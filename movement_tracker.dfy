/** The continuous-movement debouncer (frame_processors/movementTracker.py).
    One flag and three single-shot Qt timers turn the noisy per-frame
    "movement present" signal into `movementContinouslyPresent(bool)` events.
    A timer is the part of a `QTimer` the tracker can observe; a timer
    expiry is an explicit method that runs the connected handler once per
    connection, as Qt does. */
module MovementTracking {
  import opened Wrappers

  /** A `QTimer` as seen by its owner: its interval, whether it is counting
      down, whether it is single-shot, how many times its `timeout` signal is
      connected to the handler, and how many times its countdown was
      (re)started by `start()`. */
  datatype Timer = Timer(interval: int, active: bool, singleShot: bool, handlers: nat, starts: nat)

  function Start(t: Timer): Timer {
    t.(active := true, starts := t.starts + 1)
  }

  function Stop(t: Timer): Timer {
    t.(active := false)
  }

  /** `inactivityToleranceThreshold` when the settings do not give one. */
  const DefaultToleranceMs := 1000

  /** `MovementTrackerParameters`. */
  datatype TrackerParams = TrackerParams(presentThreshold: int, absenceThreshold: int, toleranceThreshold: int)

  /** The dataclass constructor with the tolerance left at its default. */
  function DefaultParams(presentThreshold: int, absenceThreshold: int): (p: TrackerParams)
    ensures p.presentThreshold == presentThreshold && p.absenceThreshold == absenceThreshold
    ensures p.toleranceThreshold == 1000
  {
    TrackerParams(presentThreshold, absenceThreshold, DefaultToleranceMs)
  }

  function Repeat(b: bool, n: nat): (r: seq<bool>)
    ensures |r| == n && forall i :: 0 <= i < n ==> r[i] == b
  {
    if n == 0 then [] else Repeat(b, n - 1) + [b]
  }

  class MovementTracker {
    var continuous: bool        // isMovementContinouslyPresent
    var params: TrackerParams
    var confirmTimer: Timer     // movementContinuouslyPresentTimer
    var absenceTimer: Timer     // movementAbsentTimer
    var toleranceTimer: Timer   // inactivityToleranceTimer
    /** Every `movementContinouslyPresent` emission so far, in order. */
    var emitted: seq<bool>

    /** The three hysteresis states: Idle (flag clear, confirm timer
        stopped), PendingConfirm (flag clear, confirm timer running) and
        Continuous (flag set, confirm timer stopped); the absence timer only
        runs in Continuous. Every timer is single-shot and connected as many
        times as the others. */
    ghost predicate Valid()
      reads this
    {
      && (continuous ==> !confirmTimer.active)
      && (absenceTimer.active ==> continuous)
      && confirmTimer.singleShot && absenceTimer.singleShot && toleranceTimer.singleShot
      && confirmTimer.handlers == absenceTimer.handlers == toleranceTimer.handlers >= 1
    }

    /** The number of times one expiry runs its handler. */
    function Connections(): nat
      reads this
    {
      confirmTimer.handlers
    }

    constructor (p: TrackerParams)
      ensures Valid()
      ensures params == p && !continuous && emitted == []
      ensures !confirmTimer.active && !absenceTimer.active && !toleranceTimer.active
      ensures Connections() == 1
      ensures confirmTimer.starts == 0 && absenceTimer.starts == 0 && toleranceTimer.starts == 0
      ensures confirmTimer.interval == p.presentThreshold
      ensures absenceTimer.interval == p.absenceThreshold
      ensures toleranceTimer.interval == p.toleranceThreshold
    {
      continuous := false;
      params := p;
      confirmTimer := Timer(0, false, false, 0, 0);
      absenceTimer := Timer(0, false, false, 0, 0);
      toleranceTimer := Timer(0, false, false, 0, 0);
      emitted := [];
      new;
      InitializeTimers();
    }

    /** `initializeTimers`: installs the intervals from `params`, makes every
        timer single-shot and connects each `timeout` to its handler once
        more; earlier connections are never removed. */
    method InitializeTimers()
      modifies this
      ensures continuous == old(continuous) && params == old(params) && emitted == old(emitted)
      ensures confirmTimer == old(confirmTimer).(interval := params.presentThreshold,
        singleShot := true, handlers := old(confirmTimer.handlers) + 1)
      ensures absenceTimer == old(absenceTimer).(interval := params.absenceThreshold,
        singleShot := true, handlers := old(absenceTimer.handlers) + 1)
      ensures toleranceTimer == old(toleranceTimer).(interval := params.toleranceThreshold,
        singleShot := true, handlers := old(toleranceTimer.handlers) + 1)
    {
      confirmTimer := confirmTimer.(interval := params.presentThreshold);
      toleranceTimer := toleranceTimer.(interval := params.toleranceThreshold);
      absenceTimer := absenceTimer.(interval := params.absenceThreshold);
      confirmTimer := confirmTimer.(handlers := confirmTimer.handlers + 1);
      toleranceTimer := toleranceTimer.(handlers := toleranceTimer.handlers + 1);
      absenceTimer := absenceTimer.(handlers := absenceTimer.handlers + 1);
      confirmTimer := confirmTimer.(singleShot := true);
      absenceTimer := absenceTimer.(singleShot := true);
      toleranceTimer := toleranceTimer.(singleShot := true);
    }

    /** `stopTimers`: all three timers stopped, the flag cleared and exactly
        one `false` emitted, even when the tracker was already idle. */
    method StopTimers()
      requires Valid()
      modifies this
      ensures Valid()
      ensures !confirmTimer.active && !absenceTimer.active && !toleranceTimer.active
      ensures !continuous && emitted == old(emitted) + [false]
      ensures confirmTimer == Stop(old(confirmTimer)) && absenceTimer == Stop(old(absenceTimer))
      ensures toleranceTimer == Stop(old(toleranceTimer)) && params == old(params)
    {
      confirmTimer := Stop(confirmTimer);
      absenceTimer := Stop(absenceTimer);
      toleranceTimer := Stop(toleranceTimer);
      continuous := false;
      emitted := emitted + [false];
    }

    /** `onContinousMovementDetected`, the confirm timer's handler. */
    method OnContinuousMovementDetected()
      modifies this`continuous, this`emitted
      ensures continuous && emitted == old(emitted) + [true]
    {
      continuous := true;
      emitted := emitted + [true];
    }

    /** `onInactivityToleranceBreached`, the tolerance timer's handler: it
        stops the confirm timer and leaves the flag alone. */
    method OnInactivityToleranceBreached()
      modifies this`confirmTimer
      ensures confirmTimer == Stop(old(confirmTimer))
    {
      confirmTimer := Stop(confirmTimer);
    }

    /** `onContinuosMovementStoped`, the absence timer's handler. */
    method OnContinuousMovementStopped()
      modifies this`continuous, this`emitted
      ensures !continuous && emitted == old(emitted) + [false]
    {
      continuous := false;
      emitted := emitted + [false];
    }

    /** `onMovementPresentToggled`: one per-frame motion sample. */
    method OnMovementPresentToggled(movementPresent: bool)
      requires Valid()
      modifies this
      ensures Valid()
      ensures params == old(params) && emitted == old(emitted) && continuous == old(continuous)
      // a `true` sample stops the absence timer whatever the flag is
      ensures movementPresent ==> absenceTimer == Stop(old(absenceTimer))
      // while continuous, a `true` sample changes nothing else
      ensures movementPresent && old(continuous) ==>
        confirmTimer == old(confirmTimer) && toleranceTimer == old(toleranceTimer)
      // otherwise it starts the confirm timer only if it is not running (no
      // restart) and stops the tolerance timer
      ensures movementPresent && !old(continuous) ==>
        && confirmTimer == (if old(confirmTimer.active) then old(confirmTimer) else Start(old(confirmTimer)))
        && toleranceTimer == Stop(old(toleranceTimer))
      // a `false` sample never touches the confirm timer
      ensures !movementPresent ==> confirmTimer == old(confirmTimer)
      ensures !movementPresent ==>
        toleranceTimer == (if !old(continuous) && !old(toleranceTimer.active)
                           then Start(old(toleranceTimer)) else old(toleranceTimer))
      ensures !movementPresent ==>
        absenceTimer == (if old(continuous) && !old(absenceTimer.active)
                         then Start(old(absenceTimer)) else old(absenceTimer))
    {
      if movementPresent {
        if absenceTimer.active {
          absenceTimer := Stop(absenceTimer);
        }
        if continuous {
          return;
        }
        if !confirmTimer.active {
          confirmTimer := Start(confirmTimer);
        }
        if toleranceTimer.active {
          toleranceTimer := Stop(toleranceTimer);
        }
      } else {
        if !continuous && !toleranceTimer.active {
          toleranceTimer := Start(toleranceTimer);
        }
        if continuous && !absenceTimer.active {
          absenceTimer := Start(absenceTimer);
        }
      }
    }

    /** The confirm timer times out: being single-shot it stops, then Qt runs
        `onContinousMovementDetected` once per connection. */
    method ConfirmTimerExpires()
      requires Valid() && confirmTimer.active
      modifies this
      ensures Valid()
      ensures continuous && emitted == old(emitted) + Repeat(true, Connections())
      ensures confirmTimer == Stop(old(confirmTimer))
      ensures absenceTimer == old(absenceTimer) && toleranceTimer == old(toleranceTimer)
      ensures params == old(params)
    {
      confirmTimer := Stop(confirmTimer);
      var i := 0;
      while i < confirmTimer.handlers
        invariant 0 <= i <= confirmTimer.handlers
        invariant confirmTimer == Stop(old(confirmTimer))
        invariant absenceTimer == old(absenceTimer) && toleranceTimer == old(toleranceTimer)
        invariant params == old(params)
        invariant i > 0 ==> continuous
        invariant continuous == (old(continuous) || i > 0)
        invariant emitted == old(emitted) + Repeat(true, i)
      {
        OnContinuousMovementDetected();
        i := i + 1;
      }
    }

    /** The absence timer times out: it stops, then Qt runs
        `onContinuosMovementStoped` once per connection. */
    method AbsenceTimerExpires()
      requires Valid() && absenceTimer.active
      modifies this
      ensures Valid()
      ensures !continuous && emitted == old(emitted) + Repeat(false, Connections())
      ensures absenceTimer == Stop(old(absenceTimer))
      ensures confirmTimer == old(confirmTimer) && toleranceTimer == old(toleranceTimer)
      ensures params == old(params)
    {
      absenceTimer := Stop(absenceTimer);
      var i := 0;
      while i < absenceTimer.handlers
        invariant 0 <= i <= absenceTimer.handlers
        invariant absenceTimer == Stop(old(absenceTimer))
        invariant confirmTimer == old(confirmTimer) && toleranceTimer == old(toleranceTimer)
        invariant params == old(params)
        invariant continuous == (old(continuous) && i == 0)
        invariant emitted == old(emitted) + Repeat(false, i)
      {
        OnContinuousMovementStopped();
        i := i + 1;
      }
    }

    /** The tolerance timer times out: it stops, then Qt runs
        `onInactivityToleranceBreached` once per connection; only the confirm
        timer is affected and nothing is emitted. */
    method ToleranceTimerExpires()
      requires Valid() && toleranceTimer.active
      modifies this
      ensures Valid()
      ensures continuous == old(continuous) && emitted == old(emitted)
      ensures toleranceTimer == Stop(old(toleranceTimer))
      ensures confirmTimer == Stop(old(confirmTimer)) && absenceTimer == old(absenceTimer)
      ensures params == old(params)
    {
      toleranceTimer := Stop(toleranceTimer);
      var i := 0;
      while i < toleranceTimer.handlers
        invariant 0 <= i <= toleranceTimer.handlers
        invariant toleranceTimer == Stop(old(toleranceTimer))
        invariant confirmTimer == (if i == 0 then old(confirmTimer) else Stop(old(confirmTimer)))
        invariant absenceTimer == old(absenceTimer)
        invariant continuous == old(continuous) && emitted == old(emitted) && params == old(params)
      {
        OnInactivityToleranceBreached();
        i := i + 1;
      }
    }

    /** `onSettingsChanged`: stops everything first (emitting `false`), then
        installs the new thresholds with the tolerance back at 1000 ms and
        connects every handler once more. A missing key raises after the
        timers were stopped. */
    method OnSettingsChanged(newSettings: map<string, int>) returns (outcome: Outcome)
      requires Valid()
      modifies this
      ensures Valid()
      ensures !continuous && emitted == old(emitted) + [false]
      ensures !confirmTimer.active && !absenceTimer.active && !toleranceTimer.active
      ensures outcome.Raised? <==>
        "movementPresentThreshold" !in newSettings || "movementAbsenceThreshold" !in newSettings
      ensures outcome.Raised? ==> params == old(params) && Connections() == old(Connections())
      ensures outcome.Raised? ==>
        && confirmTimer == Stop(old(confirmTimer))
        && absenceTimer == Stop(old(absenceTimer))
        && toleranceTimer == Stop(old(toleranceTimer))
      ensures outcome.Done? ==>
        && params == DefaultParams(newSettings["movementPresentThreshold"], newSettings["movementAbsenceThreshold"])
        && Connections() == old(Connections()) + 1
        && confirmTimer.interval == params.presentThreshold
        && absenceTimer.interval == params.absenceThreshold
        && toleranceTimer.interval == DefaultToleranceMs
      ensures outcome.Done? ==>
        && confirmTimer == Stop(old(confirmTimer)).(interval := params.presentThreshold,
             singleShot := true, handlers := old(confirmTimer.handlers) + 1)
        && absenceTimer == Stop(old(absenceTimer)).(interval := params.absenceThreshold,
             singleShot := true, handlers := old(absenceTimer.handlers) + 1)
        && toleranceTimer == Stop(old(toleranceTimer)).(interval := DefaultToleranceMs,
             singleShot := true, handlers := old(toleranceTimer.handlers) + 1)
    {
      StopTimers();
      if "movementPresentThreshold" !in newSettings {
        return Raised(KeyError("movementPresentThreshold"));
      }
      if "movementAbsenceThreshold" !in newSettings {
        return Raised(KeyError("movementAbsenceThreshold"));
      }
      params := DefaultParams(newSettings["movementPresentThreshold"], newSettings["movementAbsenceThreshold"]);
      InitializeTimers();
      outcome := Done;
    }
  }

  /** Motion confirmed, then gone: a `true` sample starts the confirm
      clock, a second `true` does not restart it, the confirm timer fires,
      a `false` sample starts the absence clock and the absence timer fires.
      Exactly one `true` and then one `false` are emitted, and the tracker is
      back to idle. */
  method ContinuousMovementScenario(p: TrackerParams) returns (events: seq<bool>)
    ensures events == [true, false]
  {
    var tracker := new MovementTracker(p);
    tracker.OnMovementPresentToggled(true);
    tracker.OnMovementPresentToggled(true);
    assert tracker.confirmTimer.starts == 1;
    tracker.ConfirmTimerExpires();
    tracker.OnMovementPresentToggled(false);
    tracker.AbsenceTimerExpires();
    assert !tracker.continuous;
    events := tracker.emitted;
  }

  /** A short burst is rejected: `true`, then `false` (starting the tolerance
      clock), then the tolerance timer fires and stops the confirm timer.
      Nothing is emitted and the confirm timer can no longer fire. */
  method ShortBurstScenario(p: TrackerParams) returns (events: seq<bool>, confirmPending: bool)
    ensures events == [] && !confirmPending
  {
    var tracker := new MovementTracker(p);
    tracker.OnMovementPresentToggled(true);
    tracker.OnMovementPresentToggled(false);
    tracker.ToleranceTimerExpires();
    events := tracker.emitted;
    confirmPending := tracker.confirmTimer.active;
  }

  /** After `n` settings changes each timer is connected `n + 1` times, so a
      single confirm expiry emits `true` `n + 1` times (after the `n` `false`
      emissions of the settings changes themselves). */
  method RepeatedHandlersScenario(p: TrackerParams, newSettings: map<string, int>, n: nat)
    returns (events: seq<bool>)
    requires "movementPresentThreshold" in newSettings && "movementAbsenceThreshold" in newSettings
    ensures events == Repeat(false, n) + Repeat(true, n + 1)
  {
    var tracker := new MovementTracker(p);
    var k := 0;
    while k < n
      invariant 0 <= k <= n
      invariant tracker.Valid() && !tracker.continuous && !tracker.confirmTimer.active
      invariant tracker.Connections() == k + 1
      invariant tracker.emitted == Repeat(false, k)
    {
      var outcome := tracker.OnSettingsChanged(newSettings);
      k := k + 1;
    }
    tracker.OnMovementPresentToggled(true);
    tracker.ConfirmTimerExpires();
    events := tracker.emitted;
  }
}
