/** What the two coordinate loggers (movementLogger.py and eventLogger.py)
    share: scaling a centre from the resized frame to the logging
    resolution, the settings values they read, and the outcome of one
    attempt at the log file. */
module CoordinateLogging {
  import opened Wrappers
  import Utils

  /** The capacity of `pendingWriteQueue` (`Queue(1000)`). */
  const PendingQueueSize := 1000

  /** What happens when the logger touches the file: `open` succeeds and so
      does the write, `open` raises an `OSError`, or the write does. */
  datatype IoResult = IoOk | OpenFails | WriteFails

  /** The result of a logging step. `Blocked` is a `put` on the full
      pending queue: it never returns, so the step stops where it was. */
  datatype LogOutcome = Logged | Blocked | Failed(error: Error)

  /** A value of the settings dictionary the loggers read. */
  datatype Value = IntValue(i: int) | TextValue(s: string) | BoolValue(b: bool)

  function LookupInt(d: map<string, Value>, key: string): (r: Result<int>)
    ensures r.Ok? <==> key in d && d[key].IntValue?
    ensures r.Ok? ==> r.value == d[key].i
  {
    if key !in d then Fail(KeyError(key))
    else if d[key].IntValue? then Ok(d[key].i)
    else Fail(RaisedError("not an integer setting: " + key))
  }

  function LookupText(d: map<string, Value>, key: string): (r: Result<string>)
    ensures r.Ok? <==> key in d && d[key].TextValue?
    ensures r.Ok? ==> r.value == d[key].s
  {
    if key !in d then Fail(KeyError(key))
    else if d[key].TextValue? then Ok(d[key].s)
    else Fail(RaisedError("not a text setting: " + key))
  }

  function LookupBool(d: map<string, Value>, key: string): (r: Result<bool>)
    ensures r.Ok? <==> key in d && d[key].BoolValue?
    ensures r.Ok? ==> r.value == d[key].b
  {
    if key !in d then Fail(KeyError(key))
    else if d[key].BoolValue? then Ok(d[key].b)
    else Fail(RaisedError("not a boolean setting: " + key))
  }

  function Abs(n: int): nat {
    if n < 0 then -n else n
  }

  /** `int(n / d)`: the exact quotient truncated toward zero. */
  function TruncDiv(n: int, d: int): (r: int)
    requires d != 0
    ensures Abs(r) == Abs(n) / Abs(d)
    ensures r > 0 ==> (n > 0) == (d > 0)
    ensures r < 0 ==> (n > 0) != (d > 0)
    ensures n >= 0 && d > 0 ==> r == n / d
  {
    var q: int := Quotient(Abs(n), Abs(d));
    if (n >= 0) == (d > 0) then q else -q
  }

  function Quotient(a: nat, b: nat): (q: nat)
    requires b > 0
    ensures q == a / b
    ensures q > 0 ==> a > 0
  {
    if a == 0 then 0 else a / b
  }

  /** The logging resolution: the configured width and the height the
      aspect ratio gives it, truncated. A zero ratio width divides by zero. */
  function ScaledResolution(scalingWidth: int, aspectRatio: (int, int)): (r: Result<(int, int)>)
    ensures r.Fail? <==> aspectRatio.0 == 0
    ensures r.Fail? ==> r.error == ZeroDivisionError
    ensures r.Ok? ==> r.value.0 == scalingWidth
    ensures r.Ok? && scalingWidth >= 0 && aspectRatio.0 > 0 && aspectRatio.1 >= 0 ==>
      r.value.1 * aspectRatio.0 <= scalingWidth * aspectRatio.1 < (r.value.1 + 1) * aspectRatio.0
  {
    if aspectRatio.0 == 0 then Fail(ZeroDivisionError)
    else Ok((scalingWidth, TruncDiv(scalingWidth * aspectRatio.1, aspectRatio.0)))
  }

  const ResolutionMissing := RaisedError("Scaled Frame resolution or Original resolution not calculated !")

  /** `processCoordinates`: each coordinate scaled by the ratio of the two
      resolutions and truncated, and x mirrored when the axis is inverted.
      An unknown resolution raises; a zero original dimension divides by
      zero. */
  function ScaleCoordinates(scaled: Option<(int, int)>, original: Option<(int, int)>, p: (int, int), inverse: bool)
    : (r: Result<(int, int)>)
    ensures scaled.None? || original.None? ==> r == Fail(ResolutionMissing)
    ensures scaled.Some? && original.Some? ==>
      (r.Fail? <==> original.value.0 == 0 || original.value.1 == 0)
    ensures scaled.Some? && original.Some? && r.Fail? ==> r.error == ZeroDivisionError
  {
    if scaled.None? || original.None? then Fail(ResolutionMissing)
    else if original.value.0 == 0 || original.value.1 == 0 then Fail(ZeroDivisionError)
    else
      var x := TruncDiv(scaled.value.0 * p.0, original.value.0);
      var y := TruncDiv(scaled.value.1 * p.1, original.value.1);
      Ok((if inverse then scaled.value.0 - x else x, y))
  }

  lemma ScaleWithin(s: nat, v: int, o: int)
    requires 0 <= v <= o && o > 0
    ensures 0 <= TruncDiv(s * v, o) <= s
  {
    var n := s * v;
    assert s * o - n == s * (o - v) >= 0;
    var q := n / o;
    assert n == o * q + n % o && n % o >= 0;
    assert o * (s + 1) == o * s + o;
    assert o * q < o * (s + 1);
    Utils.MulStrict(o, q, s + 1);
  }

  /** A point inside the resized frame lands inside the logging frame,
      whether or not the x axis is inverted. */
  lemma ScaledPointWithinFrame(scaled: (int, int), original: (int, int), p: (int, int), inverse: bool)
    requires scaled.0 >= 0 && scaled.1 >= 0 && original.0 > 0 && original.1 > 0
    requires 0 <= p.0 <= original.0 && 0 <= p.1 <= original.1
    ensures var r := ScaleCoordinates(Some(scaled), Some(original), p, inverse);
      r.Ok? && 0 <= r.value.0 <= scaled.0 && 0 <= r.value.1 <= scaled.1
  {
    ScaleWithin(scaled.0, p.0, original.0);
    ScaleWithin(scaled.1, p.1, original.1);
  }

  /** Inverting the axis mirrors x within the logging width and keeps y. */
  lemma InversionMirrorsX(scaled: (int, int), original: (int, int), p: (int, int))
    requires ScaleCoordinates(Some(scaled), Some(original), p, false).Ok?
    ensures var plain := ScaleCoordinates(Some(scaled), Some(original), p, false).value;
      ScaleCoordinates(Some(scaled), Some(original), p, true) == Ok((scaled.0 - plain.0, plain.1))
  {
  }

  /** `os.path.join(directory, name)` for a relative name. */
  function JoinPath(directory: string, name: string): (r: string)
    ensures |r| >= |name| && r[|r| - |name|..] == name
  {
    if directory == [] || directory[|directory| - 1] == '/' then directory + name
    else directory + "/" + name
  }
}
