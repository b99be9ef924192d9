/** The event logger (eventLogger.py): like the movement logger, but an
    entry combines the last sound intensity and the last centre, the file is
    `log.txt` inside the configured directory, and in one-line mode the file
    is reopened with "w" so that it only ever holds the latest entry. */
module EventLogging {
  import opened Wrappers
  import opened CoordinateLogging
  import MT = MovementTracking

  const LogFileName := "log.txt"

  /** The intensity value meaning "no sound since the last entry". */
  const NoSound := -1

  /** `EventLoggerParameters`. */
  datatype EventLoggerParams = EventLoggerParams(
    loggingInterval: int, loggingFile: string, scalingWidth: int, calculateInverse: bool, useOneLineLogs: bool)

  /** One line of the log: `sound -<intensity>dB <timestamp>` or
      `video <x> <y> <timestamp>`. */
  datatype EventLine = SoundLine(intensity: int, timestamp: string) | VideoLine(x: int, y: int, timestamp: string)

  /** The settings keys `onSettingsChanged` reads, in its order. */
  function ParseParams(d: map<string, Value>): (r: Result<EventLoggerParams>)
    ensures r.Ok? <==> && "loggingInterval" in d && d["loggingInterval"].IntValue?
                       && "loggingPath" in d && d["loggingPath"].TextValue?
                       && "scalingWidth" in d && d["scalingWidth"].IntValue?
                       && "invertedXaxis" in d && d["invertedXaxis"].BoolValue?
                       && "oneLineLog" in d && d["oneLineLog"].BoolValue?
    ensures r.Ok? ==> r.value == EventLoggerParams(
      d["loggingInterval"].i, d["loggingPath"].s, d["scalingWidth"].i, d["invertedXaxis"].b, d["oneLineLog"].b)
  {
    var interval :- LookupInt(d, "loggingInterval");
    var path :- LookupText(d, "loggingPath");
    var width :- LookupInt(d, "scalingWidth");
    var inverse :- LookupBool(d, "invertedXaxis");
    var oneLine :- LookupBool(d, "oneLineLog");
    Ok(EventLoggerParams(interval, path, width, inverse, oneLine))
  }

  /** The entries joined in order, as the file receives them. */
  function Flatten(entries: seq<seq<EventLine>>): seq<EventLine> {
    if entries == [] then [] else Flatten(entries[..|entries| - 1]) + entries[|entries| - 1]
  }

  /** The index of the first failing write among the first `n`, or `n`. */
  function FirstFailure(writeOk: nat -> bool, n: nat, from: nat): (k: nat)
    requires from <= n
    ensures from <= k <= n
    ensures forall j :: from <= j < k ==> writeOk(j)
    ensures k < n ==> !writeOk(k)
    decreases n - from
  {
    if from == n || !writeOk(from) then from else FirstFailure(writeOk, n, from + 1)
  }

  /** The inner loop of `flushPendingQueue` in append mode: the entries
      are written oldest first and the first failing write ends it. */
  method WriteEntries(entries: seq<seq<EventLine>>, writeOk: nat -> bool) returns (text: seq<EventLine>)
    ensures text == Flatten(entries[..FirstFailure(writeOk, |entries|, 0)])
  {
    text := [];
    var i := 0;
    var failed := false;
    while i < |entries| && !failed
      invariant 0 <= i <= |entries|
      invariant !failed ==> i <= FirstFailure(writeOk, |entries|, 0)
      invariant failed ==> i > 0 && FirstFailure(writeOk, |entries|, 0) == i - 1
      invariant text == Flatten(entries[..if failed then i - 1 else i])
    {
      if writeOk(i) {
        assert entries[..i + 1][..i] == entries[..i];
        text := text + entries[i];
      } else {
        // the OSError is logged and the loop ends
        failed := true;
      }
      i := i + 1;
    }
    if !failed {
      assert entries[..i] == entries;
    }
  }

  /** What a flush writes is always a prefix of the whole queue's text. */
  lemma {:induction false} FlattenPrefix(entries: seq<seq<EventLine>>, k: nat)
    requires k <= |entries|
    ensures Flatten(entries[..k]) <= Flatten(entries)
    decreases |entries| - k
  {
    if k < |entries| {
      FlattenPrefix(entries, k + 1);
      assert entries[..k + 1][..k] == entries[..k];
    } else {
      assert entries[..k] == entries;
    }
  }

  /** With every write succeeding the whole queue reaches the file. */
  lemma AllWritesSucceed(entries: seq<seq<EventLine>>, writeOk: nat -> bool)
    requires forall i :: 0 <= i < |entries| ==> writeOk(i)
    ensures Flatten(entries[..FirstFailure(writeOk, |entries|, 0)]) == Flatten(entries)
  {
    assert entries[..|entries|] == entries;
  }

  class EventLogger {
    var params: EventLoggerParams
    var originalFrameResolution: Option<(int, int)>
    var aspectRatio: Option<(int, int)>
    var scaledFrameResolution: Option<(int, int)>
    var currentMovementPos: Option<(int, int)>
    var currentSoundIntensity: int
    var pending: seq<seq<EventLine>>             // pendingWriteQueue, oldest first
    var timer: Option<MT.Timer>                  // loggingTimer
    var files: map<string, seq<EventLine>>

    ghost predicate Valid()
      reads this
    {
      |pending| <= PendingQueueSize
    }

    constructor (params: EventLoggerParams, files: map<string, seq<EventLine>>)
      ensures Valid() && this.params == params && this.files == files
      ensures originalFrameResolution == None && aspectRatio == None && scaledFrameResolution == None
      ensures currentMovementPos == None && currentSoundIntensity == NoSound
      ensures pending == [] && timer == None
    {
      this.params := params;
      this.files := files;
      originalFrameResolution := None;
      aspectRatio := None;
      scaledFrameResolution := None;
      currentMovementPos := None;
      currentSoundIntensity := NoSound;
      pending := [];
      timer := None;
    }

    function LogPath(): string
      reads this`params
    {
      JoinPath(params.loggingFile, LogFileName)
    }

    function FileContent(path: string): seq<EventLine>
      reads this`files
    {
      if path in files then files[path] else []
    }

    /** What opening the log file leaves in it: nothing in "w" mode. */
    function OpenedContent(): seq<EventLine>
      reads this`files, this`params
    {
      if params.useOneLineLogs then [] else FileContent(LogPath())
    }

    /** `processCoordinates` with the current resolutions and settings;
        `ScaleCoordinates` and `ScaledPointWithinFrame` state what it does. */
    function Scale(p: (int, int)): Result<(int, int)>
      reads this`scaledFrameResolution, this`originalFrameResolution, this`params
    {
      ScaleCoordinates(scaledFrameResolution, originalFrameResolution, p, params.calculateInverse)
    }

    /** `__create_log_entry`: a sound line if an intensity is pending, then
        a video line if a centre is pending, both with the same timestamp;
        scaling the centre may raise. */
    function CreateLogEntry(now: string): (r: Result<seq<EventLine>>)
      reads this`scaledFrameResolution, this`originalFrameResolution, this`params
      reads this`currentSoundIntensity, this`currentMovementPos
      ensures r.Fail? <==> currentMovementPos.Some? && Scale(currentMovementPos.value).Fail?
      ensures r.Ok? ==>
        && |r.value| == (if currentSoundIntensity != NoSound then 1 else 0) + (if currentMovementPos.Some? then 1 else 0)
        && (currentSoundIntensity != NoSound ==> r.value[0] == SoundLine(currentSoundIntensity, now))
        && (currentMovementPos.Some? ==>
              var c := Scale(currentMovementPos.value).value;
              r.value[|r.value| - 1] == VideoLine(c.0, c.1, now))
    {
      var sound := if currentSoundIntensity != NoSound then [SoundLine(currentSoundIntensity, now)] else [];
      if currentMovementPos.None? then Ok(sound)
      else
        var scaled :- Scale(currentMovementPos.value);
        Ok(sound + [VideoLine(scaled.0, scaled.1, now)])
    }

    /** `onStart`. */
    method OnStart()
      modifies this`timer
      ensures timer == Some(MT.Timer(params.loggingInterval, true, false, 1, 1))
    {
      timer := Some(MT.Start(MT.Timer(params.loggingInterval, false, false, 1, 0)));
    }

    /** `onStop`. */
    method OnStop()
      modifies this`timer
      ensures timer == if old(timer).Some? then Some(MT.Stop(old(timer).value)) else None
    {
      if timer.Some? {
        timer := Some(MT.Stop(timer.value));
      }
    }

    /** `onOriginalFrameDimensionInfoReceived`, as in the movement logger. */
    method OnOriginalFrameDimensionInfoReceived(ratio: (int, int), resized: (int, int)) returns (outcome: Outcome)
      modifies this`originalFrameResolution, this`aspectRatio, this`scaledFrameResolution
      ensures originalFrameResolution == Some(resized) && aspectRatio == Some(ratio)
      ensures ratio.0 != 0 ==>
        outcome == Done && scaledFrameResolution == Some(ScaledResolution(params.scalingWidth, ratio).value)
      ensures ratio.0 == 0 ==>
        outcome == Raised(ZeroDivisionError) && scaledFrameResolution == old(scaledFrameResolution)
    {
      originalFrameResolution := Some(resized);
      aspectRatio := Some(ratio);
      var scaled := ScaledResolution(params.scalingWidth, ratio);
      if scaled.Fail? {
        return Raised(scaled.error);
      }
      scaledFrameResolution := Some(scaled.value);
      outcome := Done;
    }

    /** `onMovementCoordinatesReceived`. */
    method OnMovementCoordinatesReceived(p: (int, int))
      modifies this`currentMovementPos
      ensures currentMovementPos == Some(p)
    {
      currentMovementPos := Some(p);
    }

    /** `onSoundDetectedReceived`: the intensity is recorded only when sound
        was detected. */
    method OnSoundDetectedReceived(detected: bool, intensity: int)
      modifies this`currentSoundIntensity
      ensures currentSoundIntensity == if detected then intensity else old(currentSoundIntensity)
    {
      if detected {
        currentSoundIntensity := intensity;
      }
    }

    /** `writeToLog`. With neither a centre nor a sound pending nothing
        happens. Otherwise the file is opened ("w" in one-line mode, which
        empties it), the entry built and written; a failed write queues the
        entry, a failed `open` loses it, and both pending values are reset
        whatever happens, except that a `put` on the full queue blocks for
        good. */
    method WriteToLog(io: IoResult, now: string) returns (outcome: LogOutcome)
      requires Valid()
      modifies this`currentMovementPos, this`currentSoundIntensity, this`pending, this`files
      ensures Valid()
      ensures old(currentMovementPos).None? && old(currentSoundIntensity) == NoSound ==>
        && outcome == Logged && pending == old(pending) && files == old(files)
        && currentMovementPos == None && currentSoundIntensity == NoSound
      ensures old(currentMovementPos).Some? || old(currentSoundIntensity) != NoSound ==>
        var entry := old(CreateLogEntry(now));
        var blocked := io == WriteFails && entry.Ok? && |old(pending)| == PendingQueueSize;
        && (blocked ==> outcome == Blocked && pending == old(pending)
                        && currentMovementPos == old(currentMovementPos)
                        && currentSoundIntensity == old(currentSoundIntensity))
        && (!blocked ==> currentMovementPos == None && currentSoundIntensity == NoSound)
        && (io == OpenFails ==> outcome == Logged && pending == old(pending) && files == old(files))
        && (io != OpenFails && entry.Fail? ==>
              outcome == Failed(entry.error) && pending == old(pending)
              && files == old(files)[LogPath() := old(OpenedContent())])
        && (io == IoOk && entry.Ok? ==>
              outcome == Logged && pending == old(pending)
              && files == old(files)[LogPath() := old(OpenedContent()) + entry.value])
        && (io == WriteFails && entry.Ok? ==>
              && entry.value != []
              && files == old(files)[LogPath() := old(OpenedContent())]
              && (!blocked ==> outcome == Logged && pending == old(pending) + [entry.value]))
    {
      if currentMovementPos.None? && currentSoundIntensity == NoSound {
        return Logged;
      }
      ghost var planned := CreateLogEntry(now);
      ghost var reopened := OpenedContent();
      if io == OpenFails {
        // the entry was never built, so there is nothing to queue
        currentMovementPos := None;
        currentSoundIntensity := NoSound;
        return Logged;
      }
      var path := LogPath();
      files := files[path := OpenedContent()];
      assert files == old(files)[path := reopened];
      var entry := CreateLogEntry(now);
      assert entry == planned;
      if entry.Fail? {
        currentMovementPos := None;
        currentSoundIntensity := NoSound;
        return Failed(entry.error);
      }
      if io == WriteFails {
        if entry.value != [] {
          if |pending| == PendingQueueSize {
            return Blocked;
          }
          pending := pending + [entry.value];
        }
        currentMovementPos := None;
        currentSoundIntensity := NoSound;
        return Logged;
      }
      files := files[path := files[path] + entry.value];
      assert files == old(files)[path := reopened + entry.value];
      currentMovementPos := None;
      currentSoundIntensity := NoSound;
      outcome := Logged;
    }

    /** `flushPendingQueue`. The queue is always empty afterwards. With
        entries queued the file is opened ("w" in one-line mode); in
        one-line mode only the oldest entry is written, otherwise the entries
        are written oldest first until a write fails. A failed `open` writes
        nothing. The `i`-th write succeeds iff `writeOk(i)`. */
    method FlushPendingQueue(openOk: bool, writeOk: nat -> bool)
      requires Valid()
      modifies this`pending, this`files
      ensures Valid() && pending == []
      ensures old(pending) == [] || !openOk ==> files == old(files)
      ensures old(pending) != [] && openOk && params.useOneLineLogs ==>
        files == old(files)[LogPath() := if writeOk(0) then old(pending)[0] else []]
      ensures old(pending) != [] && openOk && !params.useOneLineLogs ==>
        var k := FirstFailure(writeOk, |old(pending)|, 0);
        files == old(files)[LogPath() := old(FileContent(LogPath())) + Flatten(old(pending)[..k])]
    {
      if pending != [] && openOk {
        var path := LogPath();
        files := files[path := OpenedContent()];
        if params.useOneLineLogs {
          var entry := pending[0];
          pending := pending[1..];
          assert files[path] == [];
          if writeOk(0) {
            files := files[path := files[path] + entry];
            assert files[path] == entry;
          }
        } else {
          var text := WriteEntries(pending, writeOk);
          files := files[path := files[path] + text];
        }
      }
      // the `finally` clause drains whatever is left
      pending := [];
    }

    /** `onSettingsChanged`, as in the movement logger plus the one-line
        flag. */
    method OnSettingsChanged(settings: map<string, Value>) returns (outcome: Outcome)
      modifies this`params, this`scaledFrameResolution, this`timer
      ensures ParseParams(settings).Fail? ==>
        outcome == Raised(ParseParams(settings).error)
        && params == old(params) && scaledFrameResolution == old(scaledFrameResolution) && timer == old(timer)
      ensures ParseParams(settings).Ok? ==> params == ParseParams(settings).value
      ensures ParseParams(settings).Ok? && aspectRatio.None? ==>
        outcome == Done && scaledFrameResolution == old(scaledFrameResolution)
      ensures ParseParams(settings).Ok? && aspectRatio.Some? ==>
        var scaled := ScaledResolution(params.scalingWidth, aspectRatio.value);
        && (scaled.Fail? ==>
              outcome == Raised(ZeroDivisionError) && scaledFrameResolution == old(scaledFrameResolution) && timer == old(timer))
        && (scaled.Ok? ==> outcome == Done && scaledFrameResolution == Some(scaled.value))
      ensures outcome.Done? ==>
        timer == if old(timer).Some? && old(timer).value.interval != params.loggingInterval
                 then Some(MT.Start(MT.Stop(old(timer).value).(interval := params.loggingInterval)))
                 else old(timer)
    {
      var parsed := ParseParams(settings);
      if parsed.Fail? {
        return Raised(parsed.error);
      }
      params := parsed.value;
      if aspectRatio.Some? {
        var scaled := ScaledResolution(params.scalingWidth, aspectRatio.value);
        if scaled.Fail? {
          return Raised(scaled.error);
        }
        scaledFrameResolution := Some(scaled.value);
      }
      if timer.Some? && timer.value.interval != params.loggingInterval {
        var t := MT.Stop(timer.value);
        t := t.(interval := params.loggingInterval);
        timer := Some(MT.Start(t));
      }
      outcome := Done;
    }
  }

  /** In one-line mode the log holds exactly the latest entry after a
      successful write, whatever it held before. */
  method OneLineLogKeepsLatest(params: EventLoggerParams, files: map<string, seq<EventLine>>, intensity: int, now: string)
    returns (content: seq<EventLine>)
    requires params.useOneLineLogs && intensity != NoSound
    ensures content == [SoundLine(intensity, now)]
  {
    var logger := new EventLogger(params, files);
    logger.OnSoundDetectedReceived(true, intensity);
    var outcome := logger.WriteToLog(IoOk, now);
    content := logger.files[logger.LogPath()];
  }
}
