/** The movement logger (movementLogger.py): on every timer tick it first
    drains the queue of positions whose write failed earlier, then appends
    the latest centre, scaled to the logging resolution, to the log file.
    The file system is a map from path to the lines written there; whether
    an `open` or a write succeeds is an input. */
module MovementLogging {
  import opened Wrappers
  import opened CoordinateLogging
  import MT = MovementTracking

  /** `MovementLoggerParameters`. */
  datatype MovementLoggerParams = MovementLoggerParams(
    loggingInterval: int, loggingFile: string, scalingWidth: int, calculateInverse: bool)

  /** One line of the log: the scaled centre and the timestamp. */
  datatype LogLine = LogLine(x: int, y: int, timestamp: string)

  /** What draining the pending queue produces: the lines written, the
      positions left in the queue, and the exception that stopped it. */
  datatype DrainRun = DrainRun(lines: seq<LogLine>, remaining: seq<(int, int)>, error: Option<Error>)

  /** The settings keys `onSettingsChanged` reads, in its order. */
  function ParseParams(d: map<string, Value>): (r: Result<MovementLoggerParams>)
    ensures r.Ok? <==> && "loggingInterval" in d && d["loggingInterval"].IntValue?
                       && "loggingPath" in d && d["loggingPath"].TextValue?
                       && "scalingWidth" in d && d["scalingWidth"].IntValue?
                       && "invertedXaxis" in d && d["invertedXaxis"].BoolValue?
    ensures r.Ok? ==> r.value == MovementLoggerParams(
      d["loggingInterval"].i, d["loggingPath"].s, d["scalingWidth"].i, d["invertedXaxis"].b)
  {
    var interval :- LookupInt(d, "loggingInterval");
    var path :- LookupText(d, "loggingPath");
    var width :- LookupInt(d, "scalingWidth");
    var inverse :- LookupBool(d, "invertedXaxis");
    Ok(MovementLoggerParams(interval, path, width, inverse))
  }

  class MovementLogger {
    var params: MovementLoggerParams
    var originalFrameResolution: Option<(int, int)>
    var aspectRatio: Option<(int, int)>
    var scaledFrameResolution: Option<(int, int)>
    var currentMovementPos: Option<(int, int)>
    var pending: seq<(int, int)>               // pendingWriteQueue, oldest first
    var timer: Option<MT.Timer>                // loggingTimer
    var files: map<string, seq<LogLine>>

    ghost predicate Valid()
      reads this
    {
      |pending| <= PendingQueueSize
    }

    constructor (params: MovementLoggerParams, files: map<string, seq<LogLine>>)
      ensures Valid() && this.params == params && this.files == files
      ensures originalFrameResolution == None && aspectRatio == None && scaledFrameResolution == None
      ensures currentMovementPos == None && pending == [] && timer == None
    {
      this.params := params;
      this.files := files;
      originalFrameResolution := None;
      aspectRatio := None;
      scaledFrameResolution := None;
      currentMovementPos := None;
      pending := [];
      timer := None;
    }

    function FileContent(path: string): seq<LogLine>
      reads this`files
    {
      if path in files then files[path] else []
    }

    /** `processCoordinates` with the current resolutions and settings;
        `ScaleCoordinates` and `ScaledPointWithinFrame` state what it does. */
    function Scale(p: (int, int)): Result<(int, int)>
      reads this`scaledFrameResolution, this`originalFrameResolution, this`params
    {
      ScaleCoordinates(scaledFrameResolution, originalFrameResolution, p, params.calculateInverse)
    }

    /** The flush loop on the queue `ps`, the `i`-th write being the first
        one: each position is taken off the queue, scaled and written; a
        scaling exception or a failed write ends it, the position being
        lost either way. */
    function Drain(ps: seq<(int, int)>, writeOk: nat -> bool, now: nat -> string, i: nat): (r: DrainRun)
      reads this`scaledFrameResolution, this`originalFrameResolution, this`params
      decreases |ps|
    {
      if ps == [] then DrainRun([], [], None)
      else match Scale(ps[0])
        case Fail(e) => DrainRun([], ps[1..], Some(e))
        case Ok(c) =>
          if !writeOk(i) then DrainRun([], ps[1..], None)
          else
            var rest := Drain(ps[1..], writeOk, now, i + 1);
            rest.(lines := [LogLine(c.0, c.1, now(i))] + rest.lines)
    }

    /** One step of the drain. */
    lemma DrainStep(ps: seq<(int, int)>, writeOk: nat -> bool, now: nat -> string, i: nat)
      requires ps != []
      ensures Scale(ps[0]).Fail? ==> Drain(ps, writeOk, now, i) == DrainRun([], ps[1..], Some(Scale(ps[0]).error))
      ensures Scale(ps[0]).Ok? && !writeOk(i) ==> Drain(ps, writeOk, now, i) == DrainRun([], ps[1..], None)
      ensures Scale(ps[0]).Ok? && writeOk(i) ==>
        var c := Scale(ps[0]).value;
        var rest := Drain(ps[1..], writeOk, now, i + 1);
        Drain(ps, writeOk, now, i) == rest.(lines := [LogLine(c.0, c.1, now(i))] + rest.lines)
    {
    }

    /** A drain writes lines for a prefix of the queue, in queue order, and
        leaves a suffix of it queued; it never writes more lines than it
        took positions. */
    lemma {:induction false} DrainKeepsSuffix(ps: seq<(int, int)>, writeOk: nat -> bool, now: nat -> string, i: nat)
      ensures var r := Drain(ps, writeOk, now, i);
        && |r.remaining| <= |ps| && r.remaining == ps[|ps| - |r.remaining|..]
        && |r.lines| <= |ps| - |r.remaining|
        && forall j :: 0 <= j < |r.lines| ==> r.lines[j].timestamp == now(i + j)
      decreases |ps|
    {
      if ps != [] && Scale(ps[0]).Ok? && writeOk(i) {
        DrainKeepsSuffix(ps[1..], writeOk, now, i + 1);
        var rest := Drain(ps[1..], writeOk, now, i + 1);
        assert ps[1..][|ps| - 1 - |rest.remaining|..] == ps[|ps| - |rest.remaining|..];
      }
    }

    /** With both resolutions known and every write succeeding, a drain
        writes every queued position, oldest first, and empties the queue. */
    lemma {:induction false} DrainWritesAllInOrder(ps: seq<(int, int)>, writeOk: nat -> bool, now: nat -> string, i: nat)
      requires scaledFrameResolution.Some? && originalFrameResolution.Some?
      requires originalFrameResolution.value.0 != 0 && originalFrameResolution.value.1 != 0
      requires forall j :: i <= j < i + |ps| ==> writeOk(j)
      ensures var r := Drain(ps, writeOk, now, i);
        && r.remaining == [] && r.error == None && |r.lines| == |ps|
        && forall j :: 0 <= j < |ps| ==>
             r.lines[j] == LogLine(Scale(ps[j]).value.0, Scale(ps[j]).value.1, now(i + j))
      decreases |ps|
    {
      if ps != [] {
        DrainWritesAllInOrder(ps[1..], writeOk, now, i + 1);
        var r := Drain(ps, writeOk, now, i);
        forall j | 0 <= j < |ps|
          ensures r.lines[j] == LogLine(Scale(ps[j]).value.0, Scale(ps[j]).value.1, now(i + j))
        {
          if j > 0 {
            assert ps[1..][j - 1] == ps[j];
          }
        }
      }
    }

    /** `onStart`: a new repeating timer with the logging interval, its
        timeout connected once, started. */
    method OnStart()
      modifies this`timer
      ensures timer == Some(MT.Timer(params.loggingInterval, true, false, 1, 1))
    {
      timer := Some(MT.Start(MT.Timer(params.loggingInterval, false, false, 1, 0)));
    }

    /** `onStop`: stops the timer if there is one. */
    method OnStop()
      modifies this`timer
      ensures timer == if old(timer).Some? then Some(MT.Stop(old(timer).value)) else None
    {
      if timer.Some? {
        timer := Some(MT.Stop(timer.value));
      }
    }

    /** `onOriginalFrameDimensionInfoReceived`: records both resolutions and
        the aspect ratio, then derives the logging resolution; a zero ratio
        width raises after the first two are recorded. */
    method OnOriginalFrameDimensionInfoReceived(ratio: (int, int), resized: (int, int)) returns (outcome: Outcome)
      modifies this`originalFrameResolution, this`aspectRatio, this`scaledFrameResolution
      ensures originalFrameResolution == Some(resized) && aspectRatio == Some(ratio)
      ensures ratio.0 != 0 ==>
        outcome == Done && scaledFrameResolution == Some(ScaledResolution(params.scalingWidth, ratio).value)
      ensures ratio.0 == 0 ==>
        outcome == Raised(ZeroDivisionError) && scaledFrameResolution == old(scaledFrameResolution)
    {
      originalFrameResolution := Some(resized);
      aspectRatio := Some(ratio);
      var scaled := ScaledResolution(params.scalingWidth, ratio);
      if scaled.Fail? {
        return Raised(scaled.error);
      }
      scaledFrameResolution := Some(scaled.value);
      outcome := Done;
    }

    /** `onMovementCoordinatesReceived`: the latest centre replaces any
        centre not yet logged. */
    method OnMovementCoordinatesReceived(p: (int, int))
      modifies this`currentMovementPos
      ensures currentMovementPos == Some(p)
    {
      currentMovementPos := Some(p);
    }

    /** `writeToLog`. Without a position nothing happens. Otherwise the
        position is scaled and appended to the file; if the file cannot be
        opened or written it is queued raw instead, and the position is
        cleared whatever happens, except that a `put` on the full queue
        blocks for good. An unknown resolution raises once the file is
        open. */
    method WriteToLog(io: IoResult, now: string) returns (outcome: LogOutcome)
      requires Valid()
      modifies this`currentMovementPos, this`pending, this`files
      ensures Valid()
      ensures old(currentMovementPos).None? ==>
        outcome == Logged && currentMovementPos == None && pending == old(pending) && files == old(files)
      ensures old(currentMovementPos).Some? ==>
        var p := old(currentMovementPos).value;
        var path := params.loggingFile;
        var queued := io == OpenFails || (io == WriteFails && Scale(p).Ok?);
        var full := |old(pending)| == PendingQueueSize;
        && (queued && full ==> outcome == Blocked && currentMovementPos == old(currentMovementPos) && pending == old(pending))
        && (!(queued && full) ==> currentMovementPos == None)
        && (queued && !full ==> outcome == Logged && pending == old(pending) + [p])
        && (!queued ==> pending == old(pending))
        && (io != OpenFails && Scale(p).Fail? ==> outcome == Failed(Scale(p).error))
        && (io == IoOk && Scale(p).Ok? ==> outcome == Logged)
        && (io == OpenFails ==> files == old(files))
        && (io != OpenFails ==> files == old(files)[path :=
              if io == IoOk && Scale(p).Ok? then old(FileContent(path)) + [LogLine(Scale(p).value.0, Scale(p).value.1, now)]
              else old(FileContent(path))])
    {
      if currentMovementPos.None? {
        return Logged;
      }
      var p := currentMovementPos.value;
      if io == OpenFails {
        if |pending| == PendingQueueSize {
          return Blocked;
        }
        pending := pending + [p];
        currentMovementPos := None;
        return Logged;
      }
      var path := params.loggingFile;
      files := files[path := FileContent(path)];
      var scaled := Scale(p);
      if scaled.Fail? {
        currentMovementPos := None;
        return Failed(scaled.error);
      }
      if io == WriteFails {
        if |pending| == PendingQueueSize {
          return Blocked;
        }
        pending := pending + [p];
        currentMovementPos := None;
        return Logged;
      }
      files := files[path := files[path] + [LogLine(scaled.value.0, scaled.value.1, now)]];
      currentMovementPos := None;
      outcome := Logged;
    }

    /** The drain loop of `flushPendingQueue` on a copy of the queue. */
    method DrainQueue(ps: seq<(int, int)>, writeOk: nat -> bool, now: nat -> string)
      returns (lines: seq<LogLine>, remaining: seq<(int, int)>, error: Option<Error>)
      ensures DrainRun(lines, remaining, error) == Drain(ps, writeOk, now, 0)
    {
      ghost var run := Drain(ps, writeOk, now, 0);
      lines := [];
      remaining := ps;
      error := None;
      var i := 0;
      var stopped := false;
      while remaining != [] && !stopped
        invariant !stopped ==> && error == None
                               && lines + Drain(remaining, writeOk, now, i).lines == run.lines
                               && Drain(remaining, writeOk, now, i).remaining == run.remaining
                               && Drain(remaining, writeOk, now, i).error == run.error
        invariant stopped ==> DrainRun(lines, remaining, error) == run
        decreases |remaining|
      {
        ghost var before := remaining;
        var p := remaining[0];
        remaining := remaining[1..];
        var scaled := Scale(p);
        DrainStep(before, writeOk, now, i);
        if scaled.Fail? {
          error := Some(scaled.error);
          stopped := true;
        } else if !writeOk(i) {
          // the OSError is logged and the flush ends
          stopped := true;
        } else {
          lines := lines + [LogLine(scaled.value.0, scaled.value.1, now(i))];
          i := i + 1;
        }
      }
    }

    /** `flushPendingQueue`: with an empty queue, or a file that cannot be
        opened, nothing changes; otherwise the queue is drained into the
        file as `Drain` describes. The `i`-th write of the flush succeeds
        iff `writeOk(i)` and is stamped `now(i)`. */
    method FlushPendingQueue(openOk: bool, writeOk: nat -> bool, now: nat -> string) returns (outcome: LogOutcome)
      requires Valid()
      modifies this`pending, this`files
      ensures Valid()
      ensures old(pending) == [] || !openOk ==>
        outcome == Logged && pending == old(pending) && files == old(files)
      ensures old(pending) != [] && openOk ==>
        var run := Drain(old(pending), writeOk, now, 0);
        var path := params.loggingFile;
        && pending == run.remaining
        && files == old(files)[path := old(FileContent(path)) + run.lines]
        && outcome == (if run.error.Some? then Failed(run.error.value) else Logged)
    {
      if pending == [] || !openOk {
        return Logged;
      }
      var path := params.loggingFile;
      var lines, remaining, error := DrainQueue(pending, writeOk, now);
      DrainKeepsSuffix(pending, writeOk, now, 0);
      files := files[path := FileContent(path) + lines];
      pending := remaining;
      outcome := if error.Some? then Failed(error.value) else Logged;
    }

    /** `onSettingsChanged`: new parameters (a missing key raises before
        anything changes), the logging resolution recomputed only when the
        aspect ratio is known, and the timer restarted only when there is
        one and its interval changes. */
    method OnSettingsChanged(settings: map<string, Value>) returns (outcome: Outcome)
      modifies this`params, this`scaledFrameResolution, this`timer
      ensures ParseParams(settings).Fail? ==>
        outcome == Raised(ParseParams(settings).error)
        && params == old(params) && scaledFrameResolution == old(scaledFrameResolution) && timer == old(timer)
      ensures ParseParams(settings).Ok? ==> params == ParseParams(settings).value
      ensures ParseParams(settings).Ok? && aspectRatio.None? ==>
        outcome == Done && scaledFrameResolution == old(scaledFrameResolution)
      ensures ParseParams(settings).Ok? && aspectRatio.Some? ==>
        var scaled := ScaledResolution(params.scalingWidth, aspectRatio.value);
        && (scaled.Fail? ==>
              outcome == Raised(ZeroDivisionError) && scaledFrameResolution == old(scaledFrameResolution) && timer == old(timer))
        && (scaled.Ok? ==> outcome == Done && scaledFrameResolution == Some(scaled.value))
      ensures outcome.Done? ==>
        timer == if old(timer).Some? && old(timer).value.interval != params.loggingInterval
                 then Some(MT.Start(MT.Stop(old(timer).value).(interval := params.loggingInterval)))
                 else old(timer)
    {
      var parsed := ParseParams(settings);
      if parsed.Fail? {
        return Raised(parsed.error);
      }
      params := parsed.value;
      if aspectRatio.Some? {
        var scaled := ScaledResolution(params.scalingWidth, aspectRatio.value);
        if scaled.Fail? {
          return Raised(scaled.error);
        }
        scaledFrameResolution := Some(scaled.value);
      }
      if timer.Some? && timer.value.interval != params.loggingInterval {
        var t := MT.Stop(timer.value);
        t := t.(interval := params.loggingInterval);
        timer := Some(MT.Start(t));
      }
      outcome := Done;
    }
  }
}
