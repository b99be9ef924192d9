/** E-mail notification of continuous movement (emailSubscribersController.py):
    the subscriber table with its per-subscriber back-off, the choice of who
    is due a mail, the bookkeeping of a round of sends, and the GIF creator
    that buffers frames while a clip is being collected. Times are whole
    seconds since the epoch; the SMTP server and the GIF encoder are
    parameters. A subscriber record is a value filed under its email, and
    the list of subscribers awaiting a mail lists their emails. */
module EmailNotifications {
  import opened Wrappers
  import opened Utils
  import MT = MovementTracking

  /** `GIF_DURATION`: how long frames are collected, in milliseconds. */
  const GifDurationMs := 2500

  /** `1970-01-01T00:00:00`, the last-sent date of a new subscriber. */
  const Epoch := 0

  const NoTimestamp := RaisedError("Movement Detected timetamp is None")

  /** `timedelta(hours=h, minutes=m)` in seconds. */
  function BackoffSeconds(hours: int, minutes: int): (r: int)
    ensures hours >= 0 && minutes >= 0 ==> r >= 0
    ensures r == 60 * (60 * hours + minutes)
  {
    hours * 3600 + minutes * 60
  }

  /** `EmailSubsriber`. */
  datatype Subscriber = Subscriber(username: string, email: string, backoffHour: int, backoffMinute: int, lastSent: int)
  {
    /** The back-off since the last mail has elapsed at `now`. */
    predicate Due(now: int) {
      lastSent + BackoffSeconds(backoffHour, backoffMinute) <= now
    }
  }

  /** The fields of one subscriber as the add dialog and the settings file
      give them. */
  datatype SubscriberEntry = SubscriberEntry(username: string, email: string, hour: int, minutes: int)

  /** The record a new subscriber gets: last mailed at the epoch. */
  function NewRecord(entry: SubscriberEntry): (s: Subscriber)
    ensures s.email == entry.email && s.username == entry.username
    ensures s.backoffHour == entry.hour && s.backoffMinute == entry.minutes && s.lastSent == Epoch
  {
    Subscriber(entry.username, entry.email, entry.hour, entry.minutes, Epoch)
  }

  /** One mail handed to the SMTP server: the recipient, the name its body
      (`Message`) greets, the GIF and the movement time its attachment name
      is made from. */
  datatype Mail = Mail(to: string, greeted: string, attachment: seq<byte>, taken: int)

  const GreetingHead := "\n            Hello "
  const GreetingTail := ", \n\n                We have detected continuous movement in one of the cameras you are subscribed to.\n                In attachment we are providing you with a video material where you can observe the movement in question.\n\n            Kind regards,\n            Motion Detection Bot\n        "

  /** `getMessageForSubscriber`: a fixed text that greets the subscriber by
      name. */
  function Message(username: string): (r: string)
    ensures |r| == |GreetingHead| + |username| + |GreetingTail|
    ensures r[|GreetingHead|..|GreetingHead| + |username|] == username
    ensures r[..|GreetingHead|] == GreetingHead && r[|GreetingHead| + |username|..] == GreetingTail
  {
    GreetingHead + username + GreetingTail
  }

  /** The keys among `keys`, in that order, whose subscriber's back-off has
      elapsed at `now`: exactly the due ones. */
  function DueOf(subscribers: map<string, Subscriber>, keys: seq<string>, now: int): (r: seq<string>)
    requires forall k :: k in keys ==> k in subscribers
    ensures |r| <= |keys|
    ensures forall e :: e in r ==> e in keys && subscribers[e].Due(now)
    ensures forall e :: e in keys && subscribers[e].Due(now) ==> e in r
  {
    if keys == [] then []
    else
      var last := keys[|keys| - 1];
      var init := keys[..|keys| - 1];
      assert forall k :: k in keys ==> k in init || k == last;
      DueOf(subscribers, init, now) + (if subscribers[last].Due(now) then [last] else [])
  }

  /** Some send to `e` among the first `n` of `list` succeeded. */
  predicate SentTo(list: seq<string>, n: nat, connected: bool, delivered: nat -> bool, e: string)
    requires n <= |list|
  {
    exists i :: 0 <= i < n && list[i] == e && connected && delivered(i)
  }

  lemma SentToStep(list: seq<string>, n: nat, connected: bool, delivered: nat -> bool)
    requires n < |list|
    ensures forall e :: SentTo(list, n + 1, connected, delivered, e) <==>
      SentTo(list, n, connected, delivered, e) || (e == list[n] && connected && delivered(n))
  {
    forall e | SentTo(list, n + 1, connected, delivered, e)
      ensures SentTo(list, n, connected, delivered, e) || (e == list[n] && connected && delivered(n))
    {
      var i :| 0 <= i < n + 1 && list[i] == e && connected && delivered(i);
      if i < n {
        assert SentTo(list, n, connected, delivered, e);
      }
    }
  }

  /** The mails the first `n` sends of a round deliver, in order. */
  function Deliveries(subscribers: map<string, Subscriber>, list: seq<string>, n: nat, connected: bool,
                      delivered: nat -> bool, gif: seq<byte>, taken: int): (r: seq<Mail>)
    requires n <= |list| && forall e :: e in list ==> e in subscribers
    ensures |r| <= n
    ensures !connected ==> r == []
  {
    if n == 0 then []
    else
      var s := subscribers[list[n - 1]];
      Deliveries(subscribers, list, n - 1, connected, delivered, gif, taken)
      + (if connected && delivered(n - 1) then [Mail(s.email, s.username, gif, taken)] else [])
  }

  /** Every mail of a round goes to a listed subscriber whose send
      succeeded. */
  lemma {:induction false} DeliveryAddressed(subscribers: map<string, Subscriber>, list: seq<string>, n: nat,
                                             connected: bool, delivered: nat -> bool, gif: seq<byte>, taken: int, k: nat)
    requires n <= |list| && forall e :: e in list ==> e in subscribers
    requires k < |Deliveries(subscribers, list, n, connected, delivered, gif, taken)|
    ensures exists i :: (0 <= i < n && connected && delivered(i)
      && Deliveries(subscribers, list, n, connected, delivered, gif, taken)[k]
         == Mail(subscribers[list[i]].email, subscribers[list[i]].username, gif, taken))
  {
    var prev := Deliveries(subscribers, list, n - 1, connected, delivered, gif, taken);
    if k < |prev| {
      DeliveryAddressed(subscribers, list, n - 1, connected, delivered, gif, taken, k);
      var i :| 0 <= i < n - 1 && connected && delivered(i)
        && prev[k] == Mail(subscribers[list[i]].email, subscribers[list[i]].username, gif, taken);
      assert Deliveries(subscribers, list, n, connected, delivered, gif, taken)[k] == prev[k];
    } else {
      assert connected && delivered(n - 1);
    }
  }

  /** When every send succeeds, every list element, duplicates included,
      receives its own mail. */
  lemma {:induction false} AllDelivered(subscribers: map<string, Subscriber>, list: seq<string>, n: nat,
                                        delivered: nat -> bool, gif: seq<byte>, taken: int)
    requires n <= |list| && forall e :: e in list ==> e in subscribers
    requires forall i :: 0 <= i < n ==> delivered(i)
    ensures var r := Deliveries(subscribers, list, n, true, delivered, gif, taken);
      |r| == n && forall i :: 0 <= i < n ==> r[i] == Mail(subscribers[list[i]].email, subscribers[list[i]].username, gif, taken)
  {
    if n > 0 {
      AllDelivered(subscribers, list, n - 1, delivered, gif, taken);
    }
  }

  /** The emails of `entries` not yet among `known`, in order. */
  function NewEmails(known: set<string>, entries: seq<SubscriberEntry>): (r: seq<string>)
    ensures forall e :: e in r ==> e !in known
  {
    if entries == [] then []
    else
      var e := entries[|entries| - 1].email;
      NewEmails(known, entries[..|entries| - 1]) + (if e in known then [] else [e])
  }

  function EmailsOf(entries: seq<SubscriberEntry>): (r: set<string>)
    ensures forall i :: 0 <= i < |entries| ==> entries[i].email in r
  {
    if entries == [] then {} else EmailsOf(entries[..|entries| - 1]) + {entries[|entries| - 1].email}
  }

  lemma {:induction false} EmailsOfMembers(entries: seq<SubscriberEntry>, e: string)
    ensures e in EmailsOf(entries) <==> exists i :: 0 <= i < |entries| && entries[i].email == e
  {
    if entries != [] {
      var init := entries[..|entries| - 1];
      EmailsOfMembers(init, e);
      assert forall i :: 0 <= i < |init| ==> init[i] == entries[i];
    }
  }

  /** The loop of `sendGifToSubscribers` over the waiting list: the table
      with the last-sent date of every subscriber some send to whom
      succeeded set to `taken`, and the mails delivered, in order. */
  method SendRound(table: map<string, Subscriber>, list: seq<string>, connected: bool, delivered: nat -> bool,
                   gif: seq<byte>, taken: int)
    returns (stamped: map<string, Subscriber>, sent: seq<Mail>)
    requires forall e :: e in list ==> e in table
    ensures stamped.Keys == table.Keys
    ensures forall e :: e in table ==>
      stamped[e] == (if SentTo(list, |list|, connected, delivered, e) then table[e].(lastSent := taken) else table[e])
    ensures sent == Deliveries(table, list, |list|, connected, delivered, gif, taken)
  {
    stamped, sent := table, [];
    var i := 0;
    while i < |list|
      invariant 0 <= i <= |list|
      invariant stamped.Keys == table.Keys
      invariant forall e :: e in table ==>
        stamped[e] == (if SentTo(list, i, connected, delivered, e) then table[e].(lastSent := taken) else table[e])
      invariant sent == Deliveries(table, list, i, connected, delivered, gif, taken)
    {
      SentToStep(list, i, connected, delivered);
      var e := list[i];
      if connected && delivered(i) {
        var s := stamped[e];
        sent := sent + [Mail(s.email, s.username, gif, taken)];
        stamped := stamped[e := s.(lastSent := taken)];
      }
      i := i + 1;
    }
  }

  /** The loop of `subscribersForProcessing` over the table in its order:
      the due keys, in that order. */
  method DueScan(subscribers: map<string, Subscriber>, keys: seq<string>, now: int) returns (due: seq<string>)
    requires forall k :: k in keys ==> k in subscribers
    ensures due == DueOf(subscribers, keys, now)
  {
    due := [];
    var i := 0;
    while i < |keys|
      invariant 0 <= i <= |keys|
      invariant due == DueOf(subscribers, keys[..i], now)
    {
      assert keys[..i + 1][..i] == keys[..i];
      if subscribers[keys[i]].Due(now) {
        due := due + [keys[i]];
      }
      i := i + 1;
    }
    assert keys[..i] == keys;
  }

  /** `order` lists every key of `table` once, and every subscriber is filed
      under its own email. */
  ghost predicate Indexed(table: map<string, Subscriber>, order: seq<string>) {
    && (forall e :: e in table <==> e in order)
    && (forall i, j :: 0 <= i < j < |order| ==> order[i] != order[j])
    && (forall e :: e in table ==> table[e].email == e)
  }

  /** The table and its order after filing `entries` one after another as
      new records, each replacing any record under its email. */
  function Loaded(table: map<string, Subscriber>, order: seq<string>, entries: seq<SubscriberEntry>)
    : (r: (map<string, Subscriber>, seq<string>))
  {
    if entries == [] then (table, order)
    else
      var prev := Loaded(table, order, entries[..|entries| - 1]);
      var entry := entries[|entries| - 1];
      (prev.0[entry.email := NewRecord(entry)], if entry.email in prev.0 then prev.1 else prev.1 + [entry.email])
  }

  /** Loading keeps the table indexed. */
  lemma {:induction false} LoadedStaysIndexed(table: map<string, Subscriber>, order: seq<string>, entries: seq<SubscriberEntry>)
    requires Indexed(table, order)
    ensures var r := Loaded(table, order, entries); Indexed(r.0, r.1)
  {
    if entries != [] {
      var init := entries[..|entries| - 1];
      var entry := entries[|entries| - 1];
      LoadedStaysIndexed(table, order, init);
      var prev := Loaded(table, order, init);
      if entry.email !in prev.0 {
        assert entry.email !in prev.1;
      }
    }
  }

  /** Loading adds exactly the loaded emails to the table. */
  lemma {:induction false} LoadedKeys(table: map<string, Subscriber>, order: seq<string>, entries: seq<SubscriberEntry>)
    ensures Loaded(table, order, entries).0.Keys == table.Keys + EmailsOf(entries)
  {
    if entries != [] {
      LoadedKeys(table, order, entries[..|entries| - 1]);
    }
  }

  /** Loading appends the emails new to the table to the order. */
  lemma {:induction false} LoadedOrder(table: map<string, Subscriber>, order: seq<string>, entries: seq<SubscriberEntry>)
    requires forall i, j :: 0 <= i < j < |entries| ==> entries[i].email != entries[j].email
    ensures Loaded(table, order, entries).1 == order + NewEmails(table.Keys, entries)
  {
    if entries != [] {
      var init := entries[..|entries| - 1];
      var entry := entries[|entries| - 1];
      assert forall i :: 0 <= i < |init| ==> init[i] == entries[i];
      LoadedOrder(table, order, init);
      LoadedKeys(table, order, init);
      EmailsOfMembers(init, entry.email);
      assert (entry.email in Loaded(table, order, init).0) == (entry.email in table);
    }
  }

  /** Loading leaves the records of other emails alone and files every
      entry as a fresh record. */
  lemma {:induction false} LoadedRecords(table: map<string, Subscriber>, order: seq<string>, entries: seq<SubscriberEntry>)
    requires forall i, j :: 0 <= i < j < |entries| ==> entries[i].email != entries[j].email
    ensures var r := Loaded(table, order, entries);
      && (forall e :: e in table && e !in EmailsOf(entries) ==> e in r.0 && r.0[e] == table[e])
      && (forall i :: 0 <= i < |entries| ==> entries[i].email in r.0 && r.0[entries[i].email] == NewRecord(entries[i]))
  {
    if entries != [] {
      var init := entries[..|entries| - 1];
      var entry := entries[|entries| - 1];
      assert forall i :: 0 <= i < |init| ==> init[i] == entries[i];
      LoadedRecords(table, order, init);
      var prev := Loaded(table, order, init);
      var r := Loaded(table, order, entries);
      assert r.0 == prev.0[entry.email := NewRecord(entry)];
      forall i | 0 <= i < |entries|
        ensures entries[i].email in r.0 && r.0[entries[i].email] == NewRecord(entries[i])
      {
        if i < |init| {
          assert entries[i].email != entry.email;
        }
      }
    }
  }

  /** Loading keeps the table indexed, adds exactly the loaded emails, appends
      the new ones to the order, leaves the other records alone and files
      every entry as a fresh record. */
  lemma LoadedSpec(table: map<string, Subscriber>, order: seq<string>, entries: seq<SubscriberEntry>)
    requires Indexed(table, order)
    requires forall i, j :: 0 <= i < j < |entries| ==> entries[i].email != entries[j].email
    ensures var r := Loaded(table, order, entries);
      && Indexed(r.0, r.1)
      && r.0.Keys == table.Keys + EmailsOf(entries)
      && r.1 == order + NewEmails(table.Keys, entries)
      && (forall e :: e in table && e !in EmailsOf(entries) ==> r.0[e] == table[e])
      && (forall i :: 0 <= i < |entries| ==> r.0[entries[i].email] == NewRecord(entries[i]))
  {
    LoadedStaysIndexed(table, order, entries);
    LoadedKeys(table, order, entries);
    LoadedOrder(table, order, entries);
    LoadedRecords(table, order, entries);
  }

  class EmailSubscribersController {
    var subscribers: map<string, Subscriber>    // allSubscribers
    /** The keys of `allSubscribers` in insertion order, the order a dict
        iterates in. */
    var order: seq<string>
    /** `listOfUnprocessedSubscribers`, by email. */
    var unprocessed: seq<string>
    var movementTimestamp: Option<int>           // movementDetectedTimestamp
    /** `yag` is set: `onStart` opened the SMTP connection. */
    var connected: bool
    var enableNotifications: bool
    /** Every `toggleCreatingMovementGIF` emission, in order. */
    var toggles: seq<bool>
    /** Every mail the SMTP server accepted, in order. */
    var mails: seq<Mail>

    /** The order lists every key once, every subscriber is filed under its
        own email, and every waiting subscriber is in the table. */
    ghost predicate Valid()
      reads this
    {
      && Indexed(subscribers, order)
      && (forall e :: e in unprocessed ==> e in subscribers)
    }

    constructor ()
      ensures Valid()
      ensures subscribers == map[] && order == [] && unprocessed == []
      ensures movementTimestamp == None && !connected && !enableNotifications
      ensures toggles == [] && mails == []
    {
      subscribers := map[];
      order := [];
      unprocessed := [];
      movementTimestamp := None;
      connected := false;
      enableNotifications := false;
      toggles := [];
      mails := [];
    }

    /** `onStart`: the SMTP client is created. */
    method OnStart()
      modifies this`connected
      ensures connected
    {
      connected := true;
    }

    /** `onEnableNotificationsToggled`. */
    method OnEnableNotificationsToggled(enabled: bool)
      modifies this`enableNotifications
      ensures enableNotifications == enabled
    {
      enableNotifications := enabled;
    }

    /** `subscribersForProcessing`: every due subscriber is appended in
        table order, without clearing the list first; the answer is whether
        the list is non-empty. */
    method SubscribersForProcessing(now: int) returns (any: bool)
      requires Valid()
      modifies this`unprocessed
      ensures Valid()
      ensures unprocessed == old(unprocessed) + DueOf(subscribers, order, now)
      ensures any <==> unprocessed != []
    {
      var due := DueScan(subscribers, order, now);
      unprocessed := unprocessed + due;
      any := |unprocessed| > 0;
    }

    /** `onContinuousMovementToggled`. With notifications off nothing
        happens. The end of movement always asks the GIF creator to stop.
        The start of movement collects the due subscribers and, when the
        list is then non-empty, records the time and asks for a GIF. */
    method OnContinuousMovementToggled(present: bool, now: int)
      requires Valid()
      modifies this`unprocessed, this`movementTimestamp, this`toggles
      ensures Valid()
      ensures !enableNotifications || !present ==>
        unprocessed == old(unprocessed) && movementTimestamp == old(movementTimestamp)
      ensures !enableNotifications ==> toggles == old(toggles)
      ensures enableNotifications && !present ==> toggles == old(toggles) + [false]
      ensures enableNotifications && present ==>
        && unprocessed == old(unprocessed) + DueOf(subscribers, order, now)
        && (unprocessed != [] ==> movementTimestamp == Some(now) && toggles == old(toggles) + [true])
        && (unprocessed == [] ==> movementTimestamp == old(movementTimestamp) && toggles == old(toggles))
    {
      if !enableNotifications {
        return;
      }
      if present {
        var any := SubscribersForProcessing(now);
        if any {
          movementTimestamp := Some(now);
          toggles := toggles + [true];
        }
      } else {
        toggles := toggles + [false];
      }
    }

    /** `sendGifToSubscribers`: one send per list element, in order, so a
        subscriber listed twice is mailed twice. Send `i` succeeds iff the
        SMTP client exists and `delivered(i)`; a failure is logged and
        skipped. A subscriber some send to whom succeeded now carries
        `taken` as its last-sent date; every other record is unchanged. The
        list is empty afterwards. */
    method SendGifToSubscribers(gif: seq<byte>, taken: int, delivered: nat -> bool)
      requires Valid()
      modifies this`unprocessed, this`mails, this`subscribers
      ensures Valid() && unprocessed == []
      ensures mails == old(mails) + old(Deliveries(subscribers, unprocessed, |unprocessed|, connected, delivered, gif, taken))
      ensures subscribers.Keys == old(subscribers).Keys
      ensures forall e :: e in old(subscribers) ==>
        subscribers[e] == (if SentTo(old(unprocessed), |old(unprocessed)|, connected, delivered, e)
                           then old(subscribers)[e].(lastSent := taken) else old(subscribers)[e])
    {
      var stamped, sent := SendRound(subscribers, unprocessed, connected, delivered, gif, taken);
      subscribers := stamped;
      mails := mails + sent;
      unprocessed := [];
    }

    /** `onGifCreated`: raises without a recorded movement time, otherwise
        mails the GIF to the waiting subscribers stamped with that time. */
    method OnGifCreated(gif: seq<byte>, delivered: nat -> bool) returns (outcome: Outcome)
      requires Valid()
      modifies this`unprocessed, this`mails, this`subscribers
      ensures Valid()
      ensures movementTimestamp.None? ==>
        && outcome == Raised(NoTimestamp) && unprocessed == old(unprocessed)
        && mails == old(mails) && subscribers == old(subscribers)
      ensures movementTimestamp.Some? ==>
        var list := old(unprocessed);
        var taken := movementTimestamp.value;
        && outcome == Done && unprocessed == []
        && mails == old(mails) + old(Deliveries(subscribers, list, |list|, connected, delivered, gif, taken))
        && subscribers.Keys == old(subscribers).Keys
        && forall e :: e in old(subscribers) ==>
          subscribers[e] == (if SentTo(list, |list|, connected, delivered, e)
                             then old(subscribers)[e].(lastSent := taken) else old(subscribers)[e])
    {
      if movementTimestamp.None? {
        return Raised(NoTimestamp);
      }
      SendGifToSubscribers(gif, movementTimestamp.value, delivered);
      outcome := Done;
    }

    /** `onSubscriberAdded`: an existing subscriber's name and back-off are
        updated and its last-sent date kept; a new one is added last with
        the epoch as its last-sent date. */
    method OnSubscriberAdded(entry: SubscriberEntry)
      requires Valid()
      modifies this`subscribers, this`order
      ensures Valid()
      ensures entry.email in old(subscribers) ==>
        && order == old(order)
        && subscribers == old(subscribers)[entry.email := old(subscribers)[entry.email].(
             username := entry.username, backoffHour := entry.hour, backoffMinute := entry.minutes)]
      ensures entry.email !in old(subscribers) ==>
        subscribers == old(subscribers)[entry.email := NewRecord(entry)] && order == old(order) + [entry.email]
    {
      var email := entry.email;
      if email in subscribers {
        var s := subscribers[email];
        subscribers := subscribers[email := s.(email := email, username := entry.username,
                                               backoffHour := entry.hour, backoffMinute := entry.minutes)];
        return;
      }
      subscribers := subscribers[email := NewRecord(entry)];
      order := order + [email];
    }

    /** `loadSubscriberSettings`: every listed subscriber is filed as a new
        record with the epoch as its last-sent date, replacing any record
        under that email but keeping its place in the order; then the
        notification switch is set. The emails are the keys of a dict, so
        no two entries share one. */
    method LoadSubscriberSettings(entries: seq<SubscriberEntry>, broadcast: bool)
      requires Valid()
      requires forall i, j :: 0 <= i < j < |entries| ==> entries[i].email != entries[j].email
      modifies this`subscribers, this`order, this`enableNotifications
      ensures Valid() && enableNotifications == broadcast
      ensures subscribers.Keys == old(subscribers).Keys + EmailsOf(entries)
      ensures order == old(order) + NewEmails(old(subscribers).Keys, entries)
      ensures forall e :: e in old(subscribers) && e !in EmailsOf(entries) ==> subscribers[e] == old(subscribers)[e]
      ensures forall i :: 0 <= i < |entries| ==> subscribers[entries[i].email] == NewRecord(entries[i])
    {
      var i := 0;
      while i < |entries|
        invariant 0 <= i <= |entries|
        invariant (subscribers, order) == Loaded(old(subscribers), old(order), entries[..i])
        invariant subscribers.Keys >= old(subscribers).Keys
      {
        assert entries[..i + 1][..i] == entries[..i];
        var entry := entries[i];
        if entry.email !in subscribers {
          order := order + [entry.email];
        }
        subscribers := subscribers[entry.email := NewRecord(entry)];
        i := i + 1;
      }
      assert entries[..i] == entries;
      LoadedSpec(old(subscribers), old(order), entries);
      enableNotifications := broadcast;
    }
  }

  /** `GifCreator`: collects converted frames while running and, when its
      single-shot timer fires, encodes them into one GIF. */
  class GifCreator {
    var running: bool
    var frames: seq<Frame>                 // framesForGif
    var timer: Option<MT.Timer>            // gifCreationTimer
    /** Every `gifReady` and `toggledRunning` emission, in order. */
    var gifs: seq<seq<byte>>
    var toggled: seq<bool>
    /** `cv2.cvtColor(frame, cv2.COLOR_BGR2RGB)`, left uninterpreted. */
    const toRgb: Frame -> Frame
    /** `iio.imwrite(..., extension=".gif")`, left uninterpreted. */
    const encodeGif: seq<Frame> -> seq<byte>

    /** The timer, once made, is the single-shot 2.5 s timer connected once. */
    ghost predicate Valid()
      reads this
    {
      timer.Some? ==> timer.value.interval == GifDurationMs && timer.value.singleShot && timer.value.handlers == 1
    }

    constructor (toRgb: Frame -> Frame, encodeGif: seq<Frame> -> seq<byte>)
      ensures Valid() && this.toRgb == toRgb && this.encodeGif == encodeGif
      ensures !running && frames == [] && timer == None && gifs == [] && toggled == []
    {
      this.toRgb := toRgb;
      this.encodeGif := encodeGif;
      running := false;
      frames := [];
      timer := None;
      gifs := [];
      toggled := [];
    }

    /** `onCreateGifToggle`: stopping drops the buffer; starting (re)starts
        the timer, made on first use, and keeps the buffer. The argument is
        emitted on `toggledRunning` either way. */
    method OnCreateGifToggle(create: bool)
      requires Valid()
      modifies this`running, this`frames, this`timer, this`toggled
      ensures Valid() && running == create && toggled == old(toggled) + [create]
      ensures !create ==> frames == [] && timer == old(timer)
      ensures create ==> frames == old(frames) && timer.Some? && timer.value.active
      ensures create ==> timer.value.starts == (if old(timer).Some? then old(timer).value.starts else 0) + 1
    {
      running := create;
      if !running {
        frames := [];
      } else {
        if timer.None? {
          timer := Some(MT.Timer(GifDurationMs, false, true, 1, 0));
        }
        timer := Some(MT.Start(timer.value));
      }
      toggled := toggled + [create];
    }

    /** `onGifCreationStart`: with no frames nothing happens; otherwise the
        GIF of the buffered frames is emitted and the creator stops, keeping
        the buffer. */
    method OnGifCreationStart()
      modifies this`running, this`gifs, this`toggled
      ensures frames == [] ==> running == old(running) && gifs == old(gifs) && toggled == old(toggled)
      ensures frames != [] ==>
        !running && gifs == old(gifs) + [encodeGif(frames)] && toggled == old(toggled) + [false]
    {
      if frames == [] {
        return;
      }
      gifs := gifs + [encodeGif(frames)];
      running := false;
      toggled := toggled + [false];
    }

    /** The single-shot timer fires: it stops and runs its one handler. */
    method TimerExpires()
      requires Valid() && timer.Some? && timer.value.active
      modifies this`timer, this`running, this`gifs, this`toggled
      ensures Valid() && timer == Some(MT.Stop(old(timer).value))
      ensures frames == [] ==> running == old(running) && gifs == old(gifs) && toggled == old(toggled)
      ensures frames != [] ==>
        !running && gifs == old(gifs) + [encodeGif(frames)] && toggled == old(toggled) + [false]
    {
      timer := Some(MT.Stop(timer.value));
      OnGifCreationStart();
    }

    /** `onFrameReceived`: a frame is buffered, converted, only while
        running. */
    method OnFrameReceived(frame: Frame)
      modifies this`frames
      ensures frames == old(frames) + (if running then [toRgb(frame)] else [])
    {
      if !running {
        return;
      }
      frames := frames + [toRgb(frame)];
    }
  }

  /** A creator that ignored `f0`, then collected `f1` and emitted its GIF. */
  method FirstGif(toRgb: Frame -> Frame, encodeGif: seq<Frame> -> seq<byte>, f0: Frame, f1: Frame)
    returns (creator: GifCreator)
    ensures fresh(creator) && creator.Valid()
    ensures creator.toRgb == toRgb && creator.encodeGif == encodeGif
    ensures !creator.running && creator.frames == [toRgb(f1)]
    ensures creator.gifs == [encodeGif([toRgb(f1)])] && creator.toggled == [true, false]
  {
    creator := new GifCreator(toRgb, encodeGif);
    creator.OnFrameReceived(f0);
    assert creator.frames == [];
    creator.OnCreateGifToggle(true);
    creator.OnFrameReceived(f1);
    assert creator.frames == [toRgb(f1)];
    creator.TimerExpires();
  }

  /** Frames before the start are ignored; and since a finished GIF does not
      clear the buffer, a restart without an intervening stop puts the
      previous clip's frames at the head of the next GIF. */
  method StaleFramesCarryOver(toRgb: Frame -> Frame, encodeGif: seq<Frame> -> seq<byte>, f0: Frame, f1: Frame, f2: Frame)
    returns (gifs: seq<seq<byte>>, toggled: seq<bool>)
    ensures gifs == [encodeGif([toRgb(f1)]), encodeGif([toRgb(f1), toRgb(f2)])]
    ensures toggled == [true, false, true, false]
  {
    var creator := FirstGif(toRgb, encodeGif, f0, f1);
    creator.OnCreateGifToggle(true);
    creator.OnFrameReceived(f2);
    assert creator.frames == [toRgb(f1), toRgb(f2)];
    creator.TimerExpires();
    gifs := creator.gifs;
    toggled := creator.toggled;
  }

  /** A controller with one subscriber, notifications on and the mail
      client connected. */
  method OneSubscriber(entry: SubscriberEntry) returns (c: EmailSubscribersController)
    ensures fresh(c) && c.Valid()
    ensures c.subscribers == map[entry.email := NewRecord(entry)] && c.order == [entry.email]
    ensures c.unprocessed == [] && c.movementTimestamp == None && c.connected && c.enableNotifications
    ensures c.toggles == [] && c.mails == []
  {
    c := new EmailSubscribersController();
    c.OnSubscriberAdded(entry);
    c.OnEnableNotificationsToggled(true);
    c.OnStart();
  }

  /** The one subscriber, due at `t`, is listed by a movement at `t`. */
  method TriggeredOnce(entry: SubscriberEntry, t: int) returns (c: EmailSubscribersController)
    requires NewRecord(entry).Due(t)
    ensures fresh(c) && c.Valid()
    ensures c.subscribers == map[entry.email := NewRecord(entry)] && c.order == [entry.email]
    ensures c.unprocessed == [entry.email] && c.movementTimestamp == Some(t) && c.connected && c.enableNotifications
    ensures c.toggles == [true] && c.mails == []
  {
    c := OneSubscriber(entry);
    assert DueOf(c.subscribers, [entry.email], t) == [entry.email];
    c.OnContinuousMovementToggled(true, t);
  }

  /** The one subscriber, due at `t`, is mailed the GIF of a movement at `t`. */
  method NotifiedOnce(entry: SubscriberEntry, t: int, gif: seq<byte>, delivered: nat -> bool)
    returns (c: EmailSubscribersController)
    requires NewRecord(entry).Due(t) && delivered(0)
    ensures fresh(c) && c.Valid()
    ensures c.subscribers == map[entry.email := NewRecord(entry).(lastSent := t)] && c.order == [entry.email]
    ensures c.unprocessed == [] && c.movementTimestamp == Some(t) && c.connected && c.enableNotifications
    ensures c.toggles == [true] && c.mails == [Mail(entry.email, entry.username, gif, t)]
  {
    c := TriggeredOnce(entry, t);
    assert SentTo([entry.email], 1, true, delivered, entry.email);
    var outcome := c.OnGifCreated(gif, delivered);
  }

  /** A subscriber mailed at `t` is not due again until its back-off has
      passed: a movement one second earlier asks for no GIF, a movement at
      `t` plus the back-off does. */
  method BackoffSuppressesRepeat(entry: SubscriberEntry, t: int, gif: seq<byte>, delivered: nat -> bool)
    returns (toggles: seq<bool>, mails: seq<Mail>)
    requires BackoffSeconds(entry.hour, entry.minutes) > 0 && t >= Epoch + BackoffSeconds(entry.hour, entry.minutes)
    requires delivered(0)
    ensures mails == [Mail(entry.email, entry.username, gif, t)]
    ensures toggles == [true, false, true]
  {
    var backoff := BackoffSeconds(entry.hour, entry.minutes);
    var controller := NotifiedOnce(entry, t, gif, delivered);
    controller.OnContinuousMovementToggled(false, t);
    assert DueOf(controller.subscribers, [entry.email], t + backoff - 1) == [];
    controller.OnContinuousMovementToggled(true, t + backoff - 1);
    assert DueOf(controller.subscribers, [entry.email], t + backoff) == [entry.email];
    controller.OnContinuousMovementToggled(true, t + backoff);
    toggles := controller.toggles;
    mails := controller.mails;
  }

  /** The one subscriber, due at `t1` and at `t2`, is listed once for each
      start of movement. */
  method TriggeredTwice(entry: SubscriberEntry, t1: int, t2: int) returns (c: EmailSubscribersController)
    requires NewRecord(entry).Due(t1) && NewRecord(entry).Due(t2)
    ensures fresh(c) && c.Valid()
    ensures c.subscribers == map[entry.email := NewRecord(entry)] && c.order == [entry.email]
    ensures c.unprocessed == [entry.email, entry.email] && c.movementTimestamp == Some(t2)
    ensures c.connected && c.enableNotifications && c.mails == []
  {
    c := TriggeredOnce(entry, t1);
    assert DueOf(c.subscribers, [entry.email], t2) == [entry.email];
    c.OnContinuousMovementToggled(true, t2);
    assert c.unprocessed == [entry.email] + [entry.email];
  }

  /** Two starts of movement before the GIF is ready list the subscriber
      twice, and the GIF is then mailed to them twice. */
  method RepeatedTriggerMailsTwice(entry: SubscriberEntry, t1: int, t2: int, gif: seq<byte>, delivered: nat -> bool)
    returns (mails: seq<Mail>, lastSent: int)
    requires t1 <= t2 && t1 >= Epoch + BackoffSeconds(entry.hour, entry.minutes)
    requires delivered(0) && delivered(1)
    ensures mails == [Mail(entry.email, entry.username, gif, t2), Mail(entry.email, entry.username, gif, t2)]
    ensures lastSent == t2
  {
    var controller := TriggeredTwice(entry, t1, t2);
    assert SentTo([entry.email, entry.email], 2, true, delivered, entry.email);
    var outcome := controller.OnGifCreated(gif, delivered);
    mails := controller.mails;
    lastSent := controller.subscribers[entry.email].lastSent;
  }
}
