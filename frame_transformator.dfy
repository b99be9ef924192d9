/** The motion pipeline (frame_processors/frameTransformator.py): grayscale,
    blur, background subtraction, erosion and dilation (all OpenCV, passed in
    as uninterpreted functions), then contour filtering, an area-weighted centre and
    its smoothing over a bounded history of centres. */
module FrameTransformation {
  import opened Wrappers
  import opened Utils

  // ---------------------------------------------------------------------------
  // Contours and the centre of the mass

  /** The bounding box `cv2.boundingRect` gives for a contour. */
  datatype Box = Box(x: int, y: int, w: nat, h: nat)

  /** A contour as `cv2.findContours` reports it: its area (`cv2.contourArea`,
      equal to the zeroth moment `m00`), its centroid `int(m10/m00)`,
      `int(m01/m00)` (meaningful only when the area is positive) and its
      bounding box. */
  datatype Contour = Contour(area: nat, cx: int, cy: int, box: Box)

  /** `ContoursInfo`: the kept contours and the smoothed centre. */
  datatype ContoursInfo = ContoursInfo(contours: seq<Contour>, center: Point)

  const CenterOfTheMassQueueSize := 50
  const InertionToleranceLimit := 18

  /** The list comprehension of `extractContours`: the contours whose area
      is strictly greater than `minArea`, in their original order. */
  function LargeContours(cs: seq<Contour>, minArea: int): (r: seq<Contour>)
    ensures forall c :: c in r <==> c in cs && c.area > minArea
    ensures r == [] <==> forall i :: 0 <= i < |cs| ==> cs[i].area <= minArea
    ensures |r| <= |cs|
  {
    if cs == [] then []
    else
      var rest := LargeContours(cs[1..], minArea);
      assert forall c :: c in cs <==> c == cs[0] || c in cs[1..];
      if cs[0].area > minArea then [cs[0]] + rest else rest
  }

  function CentroidCoord(c: Contour, a: Axis): int {
    match a
    case X => c.cx
    case Y => c.cy
  }

  /** The accumulated `cx * area` (or `cy * area`) of a list of contours. */
  function WeightedSum(cs: seq<Contour>, a: Axis): int {
    if cs == [] then 0
    else WeightedSum(cs[..|cs| - 1], a) + CentroidCoord(cs[|cs| - 1], a) * cs[|cs| - 1].area
  }

  function TotalArea(cs: seq<Contour>): nat {
    if cs == [] then 0 else TotalArea(cs[..|cs| - 1]) + cs[|cs| - 1].area
  }

  predicate PositiveAreas(cs: seq<Contour>) {
    forall i :: 0 <= i < |cs| ==> cs[i].area > 0
  }

  /** Python's `round(n / d, 0)` on the exact quotient: to the nearest
      integer, ties to the even one. */
  function RoundHalfEven(n: int, d: int): (r: int)
    requires d > 0
    ensures -d <= 2 * n - 2 * d * r <= d
    ensures (2 * n - 2 * d * r == d || 2 * n - 2 * d * r == -d) ==> r % 2 == 0
  {
    var q, rem := n / d, n % d;
    assert n == d * q + rem;
    if 2 * rem < d then q
    else if 2 * rem > d then q + 1
    else if q % 2 == 0 then q
    else q + 1
  }

  /** The centre `calculateCenterOfTheMass` computes: the area-weighted mean
      of the per-contour centroids, rounded. A contour of area 0 divides by
      its zero `m00`, and an empty list divides by a zero total area. */
  function WeightedCenter(cs: seq<Contour>): (r: Result<Point>)
    ensures r.Fail? <==> cs == [] || !PositiveAreas(cs)
  {
    if cs == [] || !PositiveAreas(cs) then Fail(ZeroDivisionError)
    else
      AreaPositive(cs);
      var area := TotalArea(cs);
      Ok(Point(RoundHalfEven(WeightedSum(cs, X), area), RoundHalfEven(WeightedSum(cs, Y), area)))
  }

  lemma {:induction false} AreaPositive(cs: seq<Contour>)
    requires cs != [] && PositiveAreas(cs)
    ensures TotalArea(cs) > 0
  {
  }

  predicate CentroidsWithin(cs: seq<Contour>, a: Axis, lo: int, hi: int) {
    forall i :: 0 <= i < |cs| ==> lo <= CentroidCoord(cs[i], a) <= hi
  }

  lemma {:induction false} WeightedSumBounds(cs: seq<Contour>, a: Axis, lo: int, hi: int)
    requires CentroidsWithin(cs, a, lo, hi)
    ensures lo * TotalArea(cs) <= WeightedSum(cs, a) <= hi * TotalArea(cs)
  {
    if cs != [] {
      var init, last := cs[..|cs| - 1], cs[|cs| - 1];
      assert CentroidsWithin(init, a, lo, hi) by {
        forall i | 0 <= i < |init| ensures lo <= CentroidCoord(init[i], a) <= hi {
          assert init[i] == cs[i];
        }
      }
      WeightedSumBounds(init, a, lo, hi);
      var v := CentroidCoord(last, a);
      assert TotalArea(cs) == TotalArea(init) + last.area;
      assert WeightedSum(cs, a) == WeightedSum(init, a) + v * last.area;
      MulMonotone(last.area, lo, v);
      MulMonotone(last.area, v, hi);
      Distribute(lo, TotalArea(init), last.area);
      Distribute(hi, TotalArea(init), last.area);
    }
  }

  lemma Distribute(x: int, a: int, b: int)
    ensures x * (a + b) == x * a + b * x
  {
  }

  lemma RoundWithin(n: int, d: int, lo: int, hi: int)
    requires d > 0 && lo * d <= n <= hi * d
    ensures lo <= RoundHalfEven(n, d) <= hi
  {
    var r := RoundHalfEven(n, d);
    var dr := d * r;
    assert 2 * d * r == 2 * dr;
    assert -d <= 2 * n - 2 * dr <= d;
    assert lo * d == d * lo && hi * d == d * hi;
    assert d * (lo - 1) == d * lo - d && d * (hi + 1) == d * hi + d;
    assert d * (lo - 1) < dr < d * (hi + 1);
    MulStrict(d, lo - 1, r);
    MulStrict(d, r, hi + 1);
  }

  /** Each coordinate of the combined centre lies between the smallest and
      the largest per-contour coordinate. */
  lemma CenterWithinCentroids(cs: seq<Contour>, a: Axis, lo: int, hi: int)
    requires WeightedCenter(cs).Ok?
    requires CentroidsWithin(cs, a, lo, hi)
    ensures lo <= Coord(WeightedCenter(cs).value, a) <= hi
  {
    AreaPositive(cs);
    WeightedSumBounds(cs, a, lo, hi);
    RoundWithin(WeightedSum(cs, a), TotalArea(cs), lo, hi);
  }

  /** A single contour's centre is its own centroid. */
  lemma SingleContourCenter(c: Contour)
    requires c.area > 0
    ensures WeightedCenter([c]) == Ok(Point(c.cx, c.cy))
  {
    assert [c][..0] == [];
    forall a: Axis ensures Coord(WeightedCenter([c]).value, a) == CentroidCoord(c, a) {
      CenterWithinCentroids([c], a, CentroidCoord(c, a), CentroidCoord(c, a));
    }
    assert Coord(WeightedCenter([c]).value, X) == c.cx;
    assert Coord(WeightedCenter([c]).value, Y) == c.cy;
  }

  /** `calculateCenterOfTheMass`: the accumulator loop. */
  method CalculateCenterOfTheMass(cs: seq<Contour>) returns (r: Result<Point>)
    ensures r == WeightedCenter(cs)
  {
    var mx, my, area := 0, 0, 0;
    var i := 0;
    while i < |cs|
      invariant 0 <= i <= |cs|
      invariant PositiveAreas(cs[..i])
      invariant mx == WeightedSum(cs[..i], X) && my == WeightedSum(cs[..i], Y)
      invariant area == TotalArea(cs[..i])
    {
      var c := cs[i];
      if c.area == 0 {
        // M['m10'] / M['m00'] with a zero moment
        return Fail(ZeroDivisionError);
      }
      assert cs[..i + 1][..i] == cs[..i];
      mx := mx + c.cx * c.area;
      my := my + c.cy * c.area;
      area := area + c.area;
      i := i + 1;
    }
    assert cs[..i] == cs;
    if area == 0 {
      return Fail(ZeroDivisionError);
    }
    r := Ok(Point(RoundHalfEven(mx, area), RoundHalfEven(my, area)));
  }

  // ---------------------------------------------------------------------------
  // The smoothing state, as values

  /** What `OpenCVContourCalculator` keeps: the history of centres and the
      absence counter. */
  datatype CalculatorState = CalculatorState(history: seq<Point>, counter: int)

  /** `applyInertion` on the history: drop the oldest when full, then append. */
  function Pushed(h: seq<Point>, p: Point): (r: seq<Point>)
    requires |h| <= CenterOfTheMassQueueSize
    ensures |r| <= CenterOfTheMassQueueSize && r != [] && r[|r| - 1] == p
    ensures |r| == if |h| == CenterOfTheMassQueueSize then |h| else |h| + 1
  {
    (if |h| == CenterOfTheMassQueueSize then h[1..] else h) + [p]
  }

  /** `increaseToleranceCounter` as written: at the limit the history is
      cleared, but the counter itself is not reset (line 182 assigns a
      misspelled attribute). */
  function AbsenceStep(s: CalculatorState): CalculatorState {
    var c := s.counter + 1;
    CalculatorState(if c == InertionToleranceLimit then [] else s.history, c)
  }

  /** The same step as the authors evidently meant it, resetting the counter. */
  function IntendedAbsenceStep(s: CalculatorState): CalculatorState {
    var c := s.counter + 1;
    if c == InertionToleranceLimit then CalculatorState([], 0) else CalculatorState(s.history, c)
  }

  /** `extractDetectedContoursInfo` on the state: counter to 0, centre pushed. */
  function PresenceStep(s: CalculatorState, center: Point): CalculatorState
    requires |s.history| <= CenterOfTheMassQueueSize
  {
    CalculatorState(Pushed(s.history, center), 0)
  }

  function AbsenceStreak(s: CalculatorState, k: nat): CalculatorState {
    if k == 0 then s else AbsenceStep(AbsenceStreak(s, k - 1))
  }

  /** A streak of `k` frames without contours clears the history only if the
      counter passes 18 during the streak, and then only once; the counter
      simply grows by `k`. */
  lemma {:induction false} AbsenceStreakClearsOnce(s: CalculatorState, k: nat)
    ensures AbsenceStreak(s, k).counter == s.counter + k
    ensures AbsenceStreak(s, k).history ==
      if s.counter < InertionToleranceLimit <= s.counter + k then [] else s.history
  {
    if k > 0 {
      AbsenceStreakClearsOnce(s, k - 1);
    }
  }

  /** One frame's outcome for the smoothing state. */
  datatype Sample = NoContours | ContoursAt(center: Point)

  function RunAsWritten(s: CalculatorState, samples: seq<Sample>): CalculatorState
    requires |s.history| <= CenterOfTheMassQueueSize
    ensures |RunAsWritten(s, samples).history| <= CenterOfTheMassQueueSize
    decreases |samples|
  {
    if samples == [] then s
    else
      var next := match samples[0]
        case NoContours => AbsenceStep(s)
        case ContoursAt(p) => PresenceStep(s, p);
      RunAsWritten(next, samples[1..])
  }

  function RunIntended(s: CalculatorState, samples: seq<Sample>): CalculatorState
    requires |s.history| <= CenterOfTheMassQueueSize
    ensures |RunIntended(s, samples).history| <= CenterOfTheMassQueueSize
    decreases |samples|
  {
    if samples == [] then s
    else
      var next := match samples[0]
        case NoContours => IntendedAbsenceStep(s)
        case ContoursAt(p) => PresenceStep(s, p);
      RunIntended(next, samples[1..])
  }

  /** How the as-written state tracks the intended one: same history, the
      intended counter is the written one modulo 18, and a written counter
      past the limit means the history is already empty. */
  predicate Tracks(written: CalculatorState, intended: CalculatorState) {
    && written.history == intended.history
    && written.counter >= 0
    && intended.counter == written.counter % InertionToleranceLimit
    && (written.counter >= InertionToleranceLimit ==> written.history == [])
  }

  lemma {:induction false} TracksPreserved(w: CalculatorState, i: CalculatorState, samples: seq<Sample>)
    requires |w.history| <= CenterOfTheMassQueueSize
    requires Tracks(w, i)
    ensures Tracks(RunAsWritten(w, samples), RunIntended(i, samples))
    decreases |samples|
  {
    if samples != [] {
      match samples[0]
      case NoContours =>
        TracksPreserved(AbsenceStep(w), IntendedAbsenceStep(i), samples[1..]);
      case ContoursAt(p) =>
        TracksPreserved(PresenceStep(w, p), PresenceStep(i, p), samples[1..]);
    }
  }

  /** The misspelled reset on line 182 cannot be observed in the centre
      history: from a fresh calculator, every sequence of frames leaves the
      same history as the intended code would. */
  lemma MisspelledResetIsUnobservable(samples: seq<Sample>)
    ensures RunAsWritten(CalculatorState([], 0), samples).history
         == RunIntended(CalculatorState([], 0), samples).history
  {
    TracksPreserved(CalculatorState([], 0), CalculatorState([], 0), samples);
  }

  function PushedRepeatedly(h: seq<Point>, p: Point, k: nat): (r: seq<Point>)
    requires |h| <= CenterOfTheMassQueueSize
    ensures |r| <= CenterOfTheMassQueueSize
  {
    if k == 0 then h else Pushed(PushedRepeatedly(h, p, k - 1), p)
  }

  lemma {:induction false} PushedRepeatedlyTail(h: seq<Point>, p: Point, k: nat)
    requires |h| <= CenterOfTheMassQueueSize
    ensures var r := PushedRepeatedly(h, p, k);
      && |r| == (if |h| + k <= CenterOfTheMassQueueSize then |h| + k else CenterOfTheMassQueueSize)
      && forall i :: 0 <= i < |r| && i >= |r| - k ==> r[i] == p
  {
    if k > 0 {
      PushedRepeatedlyTail(h, p, k - 1);
      var prev := PushedRepeatedly(h, p, k - 1);
      var r := Pushed(prev, p);
      forall i | 0 <= i < |r| && i >= |r| - k ensures r[i] == p {
        if i < |r| - 1 {
          if |prev| == CenterOfTheMassQueueSize {
            assert r[i] == prev[i + 1];
          } else {
            assert r[i] == prev[i];
          }
        }
      }
    }
  }

  /** The smoothed centre of a steady target converges to the target
      exactly: after 50 pushes of the same centre, whatever came before, the
      mean is that centre. After a reset one push suffices. */
  lemma SteadyCenterConverges(h: seq<Point>, p: Point, k: nat)
    requires |h| <= CenterOfTheMassQueueSize
    requires k >= CenterOfTheMassQueueSize || (h == [] && k > 0)
    ensures MeanByColumn(PushedRepeatedly(h, p, k)) == Some(p)
  {
    PushedRepeatedlyTail(h, p, k);
    var r := PushedRepeatedly(h, p, k);
    MeanOfConstant(r, p);
  }

  // ---------------------------------------------------------------------------
  // OpenCVContourCalculator

  class ContourCalculator {
    var history: seq<Point>              // center_of_the_mass_queue
    var toleranceCounter: int            // inertion_tolerance_counter
    /** `intertion_tolerance_counter`: the attribute line 182 creates by
        mistake; nothing reads it. */
    var misspelledCounter: Option<int>

    ghost predicate Valid()
      reads this
    {
      |history| <= CenterOfTheMassQueueSize
    }

    function State(): CalculatorState
      reads this
    {
      CalculatorState(history, toleranceCounter)
    }

    constructor ()
      ensures Valid() && history == [] && toleranceCounter == 0 && misspelledCounter == None
    {
      history := [];
      toleranceCounter := 0;
      misspelledCounter := None;
    }

    /** `increaseToleranceCounter`. */
    method IncreaseToleranceCounter()
      requires Valid()
      modifies this
      ensures Valid()
      ensures State() == AbsenceStep(old(State()))
      ensures misspelledCounter == if toleranceCounter == InertionToleranceLimit then Some(0)
                                   else old(misspelledCounter)
    {
      toleranceCounter := toleranceCounter + 1;
      if toleranceCounter == InertionToleranceLimit {
        misspelledCounter := Some(0);
        history := [];
      }
    }

    /** `applyInertion`: push the centre and return the column mean of the
        updated history. */
    method ApplyInertion(center: Point) returns (smoothed: Point)
      requires Valid()
      modifies this`history
      ensures Valid()
      ensures history == Pushed(old(history), center)
      ensures MeanByColumn(history) == Some(smoothed)
    {
      if |history| == CenterOfTheMassQueueSize {
        history := history[1..];
      }
      history := history + [center];
      smoothed := MeanByColumn(history).value;
    }

    /** `extractDetectedContoursInfo`. */
    method ExtractDetectedContoursInfo(cs: seq<Contour>) returns (r: Result<ContoursInfo>)
      requires Valid()
      modifies this`history, this`toleranceCounter
      ensures Valid() && toleranceCounter == 0
      ensures WeightedCenter(cs).Fail? ==> r.Fail? && history == old(history)
      ensures WeightedCenter(cs).Ok? ==>
        && State() == PresenceStep(old(State()), WeightedCenter(cs).value)
        && r == Ok(ContoursInfo(cs, MeanByColumn(history).value))
    {
      toleranceCounter := 0;
      var center :- CalculateCenterOfTheMass(cs);
      var smoothed := ApplyInertion(center);
      r := Ok(ContoursInfo(cs, smoothed));
    }

    /** `extractContours` on the contours OpenCV found in the mask. */
    method ExtractContours(found: seq<Contour>, minArea: int) returns (r: Result<Option<ContoursInfo>>)
      requires Valid()
      modifies this
      ensures Valid()
      ensures LargeContours(found, minArea) == [] ==>
        r == Ok(None) && State() == AbsenceStep(old(State()))
      ensures LargeContours(found, minArea) != [] ==> misspelledCounter == old(misspelledCounter)
      ensures var kept := LargeContours(found, minArea);
        kept != [] && WeightedCenter(kept).Ok? ==>
          && State() == PresenceStep(old(State()), WeightedCenter(kept).value)
          && r == Ok(Some(ContoursInfo(kept, MeanByColumn(history).value)))
      ensures var kept := LargeContours(found, minArea);
        kept != [] && WeightedCenter(kept).Fail? ==>
          r.Fail? && history == old(history) && toleranceCounter == 0
    {
      var kept := LargeContours(found, minArea);
      if kept == [] {
        IncreaseToleranceCounter();
        return Ok(None);
      }
      var info :- ExtractDetectedContoursInfo(kept);
      r := Ok(Some(info));
    }

    /** `reset`. */
    method Reset()
      modifies this`history, this`toleranceCounter
      ensures Valid() && history == [] && toleranceCounter == 0
    {
      history := [];
      toleranceCounter := 0;
    }
  }

  // ---------------------------------------------------------------------------
  // Settings

  datatype AlgorithmType = RunningAvg | MixtureOfGaussians | Knn

  /** A value of the settings dictionary. */
  datatype Setting =
    | IntSetting(n: int)
    | RealSetting(x: real)
    | AlgorithmSetting(alg: AlgorithmType)
    | DictSetting(entries: map<string, Setting>)

  predicate IntAt(d: map<string, Setting>, key: string) {
    key in d && d[key].IntSetting?
  }

  predicate NumberAt(d: map<string, Setting>, key: string) {
    key in d && (d[key].IntSetting? || d[key].RealSetting?)
  }

  function GetInt(d: map<string, Setting>, key: string): (r: Result<int>)
    ensures r.Ok? <==> IntAt(d, key)
    ensures r.Ok? ==> r.value == d[key].n
  {
    if key !in d then Fail(KeyError(key))
    else if d[key].IntSetting? then Ok(d[key].n)
    else Fail(RaisedError("not an integer setting: " + key))
  }

  /** The number an int or float setting holds, as a float. */
  function NumberValue(s: Setting): real
    requires s.IntSetting? || s.RealSetting?
  {
    if s.IntSetting? then s.n as real else s.x
  }

  function GetNumber(d: map<string, Setting>, key: string): (r: Result<real>)
    ensures r.Ok? <==> NumberAt(d, key)
    ensures r.Ok? ==> r.value == NumberValue(d[key])
  {
    if key !in d then Fail(KeyError(key))
    else match d[key]
      case IntSetting(n) => Ok(n as real)
      case RealSetting(x) => Ok(x)
      case _ => Fail(RaisedError("not a number setting: " + key))
  }

  function GetDict(d: map<string, Setting>, key: string): (r: Result<map<string, Setting>>)
    ensures r.Ok? <==> key in d && d[key].DictSetting?
    ensures r.Ok? ==> r.value == d[key].entries
  {
    if key !in d then Fail(KeyError(key))
    else if d[key].DictSetting? then Ok(d[key].entries)
    else Fail(RaisedError("not a dictionary setting: " + key))
  }

  datatype MorphParams = MorphParams(kernelSize: int, iterations: int)

  /** `BackgroundSubstractingParams`; `algorithm` is whatever the dictionary
      held under "algorithmType". */
  datatype BackgroundParams = BackgroundParams(
    algorithm: Setting, thresholdValue: int, runningAvgAlpha: real,
    gaussianMixtureHistory: int, knnHistory: int)

  /** `FrameTransforamtorSettings`. */
  datatype TransformatorSettings = TransformatorSettings(
    blurKernelSize: int, erosion: MorphParams, dilation: MorphParams,
    background: BackgroundParams, minContourArea: int)

  /** The key the minimum area is read from for the chosen algorithm. */
  function MinAreaKey(algorithm: Setting): string {
    if algorithm == AlgorithmSetting(MixtureOfGaussians) then "gaussianMixtureMinArea"
    else if algorithm == AlgorithmSetting(Knn) then "knnMinArea"
    else "runningAvgMinArea"
  }

  /** The key the threshold is read from for the chosen algorithm. */
  function ThresholdKey(algorithm: Setting): string {
    if algorithm == AlgorithmSetting(MixtureOfGaussians) then "gaussianMixtureThresholdValue"
    else if algorithm == AlgorithmSetting(Knn) then "knnThresholdValue"
    else "runningAvgThresholdBinValue"
  }

  /** Every lookup `getTransfornmatorSettingsFromDict` makes succeeds. */
  predicate CompleteSettings(d: map<string, Setting>) {
    && IntAt(d, "gaussianBlurKernelSize")
    && IntAt(d, "erosionKernelSize") && IntAt(d, "erosionIterations")
    && IntAt(d, "dilationKernelSize") && IntAt(d, "dilationIterations")
    && "backgroundSubstractionSettings" in d && d["backgroundSubstractionSettings"].DictSetting?
    && var bg := d["backgroundSubstractionSettings"].entries;
      && "algorithmType" in bg
      && IntAt(bg, "runningAvgThresholdBinValue") && NumberAt(bg, "runningAvgAlpha")
      && IntAt(bg, "gaussianMixtureHistory") && IntAt(bg, "knnHistory")
      && IntAt(bg, "runningAvgMinArea")
      && IntAt(bg, MinAreaKey(bg["algorithmType"])) && IntAt(bg, ThresholdKey(bg["algorithmType"]))
  }

  /** `getTransfornmatorSettingsFromDict`: the running-average minimum area
      and threshold, overridden by the `gaussianMixture*` keys for MOG and by
      the `knn*` keys for KNN. The running-average threshold is looked up
      whatever the algorithm, so a dictionary without it always fails. */
  function GetTransformatorSettings(d: map<string, Setting>): (r: Result<TransformatorSettings>)
    ensures r.Ok? <==> CompleteSettings(d)
    ensures ("backgroundSubstractionSettings" in d && d["backgroundSubstractionSettings"].DictSetting?
             && "runningAvgThresholdBinValue" !in d["backgroundSubstractionSettings"].entries) ==> r.Fail?
    ensures r.Ok? ==>
      var bg := d["backgroundSubstractionSettings"].entries;
      var alg := bg["algorithmType"];
      && r.value.background.algorithm == alg
      && r.value.minContourArea == bg[MinAreaKey(alg)].n
      && r.value.background.thresholdValue == bg[ThresholdKey(alg)].n
      && r.value.blurKernelSize == d["gaussianBlurKernelSize"].n
      && r.value.erosion == MorphParams(d["erosionKernelSize"].n, d["erosionIterations"].n)
      && r.value.dilation == MorphParams(d["dilationKernelSize"].n, d["dilationIterations"].n)
      && r.value.background.runningAvgAlpha == NumberValue(bg["runningAvgAlpha"])
      && r.value.background.gaussianMixtureHistory == bg["gaussianMixtureHistory"].n
      && r.value.background.knnHistory == bg["knnHistory"].n
  {
    var blur :- GetInt(d, "gaussianBlurKernelSize");
    var erosionKernel :- GetInt(d, "erosionKernelSize");
    var erosionIterations :- GetInt(d, "erosionIterations");
    var dilationKernel :- GetInt(d, "dilationKernelSize");
    var dilationIterations :- GetInt(d, "dilationIterations");
    var bg :- GetDict(d, "backgroundSubstractionSettings");
    var alg :- if "algorithmType" in bg then Ok(bg["algorithmType"]) else Fail(KeyError("algorithmType"));
    var threshold :- GetInt(bg, "runningAvgThresholdBinValue");
    var alpha :- GetNumber(bg, "runningAvgAlpha");
    var mogHistory :- GetInt(bg, "gaussianMixtureHistory");
    var knnHistory :- GetInt(bg, "knnHistory");
    var minArea :- GetInt(bg, "runningAvgMinArea");
    var selectedArea :- GetInt(bg, MinAreaKey(alg));
    var selectedThreshold :- GetInt(bg, ThresholdKey(alg));
    Ok(TransformatorSettings(
      blur, MorphParams(erosionKernel, erosionIterations), MorphParams(dilationKernel, dilationIterations),
      BackgroundParams(alg, selectedThreshold, alpha, mogHistory, knnHistory),
      selectedArea))
  }

  // ---------------------------------------------------------------------------
  // Background subtractors

  /** Which subtractor and the parameters it was built with. */
  datatype SubtractorKind =
    | RunningAverage(alpha: real, thresholdBinValue: int)
    | MixtureOfGaussiansModel(history: int, varThreshold: int)
    | KnnModel(history: int, dist2Threshold: int)

  /** A subtractor and the frames its background model absorbed since it
      was built or last reset; its mask is a function of exactly these. */
  datatype Subtractor = Subtractor(kind: SubtractorKind, seen: seq<Frame>)

  function KindAlgorithm(k: SubtractorKind): AlgorithmType {
    match k
    case RunningAverage(_, _) => RunningAvg
    case MixtureOfGaussiansModel(_, _) => MixtureOfGaussians
    case KnnModel(_, _) => Knn
  }

  function KindThreshold(k: SubtractorKind): int {
    match k
    case RunningAverage(_, t) => t
    case MixtureOfGaussiansModel(_, t) => t
    case KnnModel(_, t) => t
  }

  /** `FrameTransforamtorFactory.get_background_substractor`: a fresh
      subtractor of the selected algorithm, built with the selected
      threshold; a value that is no algorithm raises. */
  function GetBackgroundSubtractor(p: BackgroundParams): (r: Result<Subtractor>)
    ensures r.Ok? <==> p.algorithm.AlgorithmSetting?
    ensures r.Ok? ==> && r.value.seen == []
                      && KindAlgorithm(r.value.kind) == p.algorithm.alg
                      && KindThreshold(r.value.kind) == p.thresholdValue
    ensures r.Ok? && r.value.kind.RunningAverage? ==> r.value.kind.alpha == p.runningAvgAlpha
    ensures r.Ok? && r.value.kind.MixtureOfGaussiansModel? ==> r.value.kind.history == p.gaussianMixtureHistory
    ensures r.Ok? && r.value.kind.KnnModel? ==> r.value.kind.history == p.knnHistory
  {
    match p.algorithm
    case AlgorithmSetting(RunningAvg) =>
      Ok(Subtractor(RunningAverage(p.runningAvgAlpha, p.thresholdValue), []))
    case AlgorithmSetting(MixtureOfGaussians) =>
      Ok(Subtractor(MixtureOfGaussiansModel(p.gaussianMixtureHistory, p.thresholdValue), []))
    case AlgorithmSetting(Knn) =>
      Ok(Subtractor(KnnModel(p.knnHistory, p.thresholdValue), []))
    case _ =>
      Fail(RaisedError("Unknown algorithm type provided for background substraction creation"))
  }

  // ---------------------------------------------------------------------------
  // FrameTransformator

  /** The OpenCV operations the pipeline calls, left uninterpreted. */
  datatype ImageOps = ImageOps(
    grayscale: Frame -> Frame,
    blur: (Frame, int) -> Frame,
    erode: (Frame, MorphParams) -> Frame,
    dilate: (Frame, MorphParams) -> Frame,
    subtract: (SubtractorKind, seq<Frame>, Frame) -> Frame,
    findContours: Frame -> seq<Contour>)

  /** The intermediate images of one frame. */
  datatype Stages = Stages(blurred: Frame, binarized: Frame, dilated: Frame)

  /** The signals the pipeline emits. */
  datatype PipelineEvent =
    | ContoursFound(info: ContoursInfo)
    | MovementInFrameDetected(present: bool)
    | PreviewFramesReady(original: Frame, blurred: Frame, binarized: Frame, dilated: Frame)
    | ResizedFrameDimensionInfo(aspectRatio: (nat, nat), resized: (nat, nat))

  /** `int(target * num / den)` for non-negative operands: the exact
      quotient truncated. */
  function Scaled(target: nat, num: nat, den: nat): nat
    requires den > 0
  {
    target * num / den
  }

  lemma ScaledByRatio(width: nat, height: nat, target: nat)
    requires width > 0
    ensures AspectRatio(width, height).Ok? && AspectRatio(width, height).value.0 > 0
    ensures Scaled(target, AspectRatio(width, height).value.1, AspectRatio(width, height).value.0)
         == Scaled(target, height, width)
  {
    ScaleByAspectRatio(width, height, target);
  }

  /** The reduced width is zero exactly when the width is. */
  lemma ZeroWidthRatio(width: nat, height: nat)
    requires AspectRatio(width, height).Ok?
    ensures AspectRatio(width, height).value.0 == 0 <==> width == 0
  {
    var ar := AspectRatio(width, height).value;
    if width > 0 {
      ScaleByAspectRatio(width, height, 0);
    } else if ar.0 > 0 {
      MulMonotone(height, 1, ar.0);
    }
  }

  /** The aspect ratio and the resolution frames are resized to: the target
      width and the height the reduced ratio gives it, which is the height
      the unreduced resolution gives it. A zero width divides by zero. */
  function ResizedResolution(width: nat, height: nat, target: nat): (r: Result<((nat, nat), (nat, nat))>)
    ensures r.Ok? <==> width > 0
    ensures r.Fail? ==> r.error == ZeroDivisionError
    ensures r.Ok? ==> r.value.0 == AspectRatio(width, height).value
    ensures r.Ok? ==> r.value.1 == (target, Scaled(target, height, width))
  {
    var ratio := AspectRatio(width, height);
    if ratio.Fail? then Fail(ratio.error)
    else
      var ar := ratio.value;
      ZeroWidthRatio(width, height);
      if ar.0 == 0 then Fail(ZeroDivisionError)
      else
        ScaledByRatio(width, height, target);
        Ok((ar, (target, Scaled(target, ar.1, ar.0))))
  }

  class FrameTransformator {
    const ops: ImageOps
    const calculator: ContourCalculator
    var subtractor: Subtractor
    var sendPreviewFrames: bool
    var numOfSubscribersForInitialFrame: int
    var settings: TransformatorSettings
    var enabled: bool                    // transforamtorEnabled
    var events: seq<PipelineEvent>

    ghost predicate Valid()
      reads this, calculator
    {
      calculator.Valid()
    }

    constructor (ops: ImageOps, subtractor: Subtractor, calculator: ContourCalculator, settings: TransformatorSettings)
      requires calculator.Valid()
      ensures Valid()
      ensures this.ops == ops && this.subtractor == subtractor && this.calculator == calculator
      ensures this.settings == settings
      ensures enabled && !sendPreviewFrames && numOfSubscribersForInitialFrame == 0 && events == []
    {
      this.ops := ops;
      this.subtractor := subtractor;
      this.calculator := calculator;
      this.settings := settings;
      sendPreviewFrames := false;
      numOfSubscribersForInitialFrame := 0;
      enabled := true;
      events := [];
    }

    /** The images one frame goes through with the current settings and
        background model. */
    function StagesOf(frame: Frame): Stages
      reads this
    {
      var blurred := ops.blur(ops.grayscale(frame), settings.blurKernelSize);
      var binarized := ops.subtract(subtractor.kind, subtractor.seen, blurred);
      var dilated := ops.dilate(ops.erode(binarized, settings.erosion), settings.dilation);
      Stages(blurred, binarized, dilated)
    }

    /** `toggleApplyTransforamtion`. */
    method ToggleApplyTransformation(toggle: bool)
      modifies this`enabled
      ensures enabled == toggle
    {
      enabled := toggle;
    }

    /** `onToggleShowPreviewFrames` (and its twin `onShowPreviewFramesToggled`). */
    method OnToggleShowPreviewFrames(toggled: bool)
      modifies this`sendPreviewFrames
      ensures sendPreviewFrames == toggled
    {
      sendPreviewFrames := toggled;
    }

    /** `processReceivedFrame`. When disabled nothing runs and nothing is
        emitted. Otherwise the frame goes through every stage, the background
        model absorbs the blurred frame, and `movementInFrameDetected` is
        emitted exactly once, true iff some contour survived the area filter;
        `contoursFound` comes before it in that case only, and the preview
        frames after it only when requested. */
    method ProcessReceivedFrame(frame: Frame) returns (outcome: Outcome)
      requires Valid()
      modifies this`subtractor, this`events, calculator
      ensures Valid()
      ensures settings == old(settings) && enabled == old(enabled) && sendPreviewFrames == old(sendPreviewFrames)
      ensures numOfSubscribersForInitialFrame == old(numOfSubscribersForInitialFrame)
      ensures outcome.Raised? ==>
        && events == old(events)
        && calculator.history == old(calculator.history) && calculator.toleranceCounter == 0
      ensures !old(enabled) ==>
        && outcome == Done && events == old(events) && subtractor == old(subtractor)
        && calculator.State() == old(calculator.State())
      ensures old(enabled) ==>
        subtractor == old(subtractor).(seen := old(subtractor.seen) + [old(StagesOf(frame)).blurred])
      ensures old(enabled) ==>
        var st := old(StagesOf(frame));
        var kept := LargeContours(ops.findContours(st.dilated), settings.minContourArea);
        var found := kept != [];
        && (outcome.Raised? <==> found && WeightedCenter(kept).Fail?)
        && var preview := if sendPreviewFrames then [PreviewFramesReady(frame, st.blurred, st.binarized, st.dilated)] else [];
        && (!found ==> events == old(events) + [MovementInFrameDetected(false)] + preview)
        && (found && outcome.Done? ==>
             && calculator.history != []
             && events == old(events) + [ContoursFound(ContoursInfo(kept, MeanByColumn(calculator.history).value))]
                          + [MovementInFrameDetected(true)] + preview)
        && (!found ==> calculator.State() == AbsenceStep(old(calculator.State())))
        && (found && outcome.Done? ==>
             calculator.State() == PresenceStep(old(calculator.State()), WeightedCenter(kept).value))
    {
      if !enabled {
        return Done;
      }
      var st := StagesOf(frame);
      var grayed := ops.grayscale(frame);
      var blurred := ops.blur(grayed, settings.blurKernelSize);
      var binarized := ops.subtract(subtractor.kind, subtractor.seen, blurred);
      subtractor := subtractor.(seen := subtractor.seen + [blurred]);
      var eroded := ops.erode(binarized, settings.erosion);
      var dilated := ops.dilate(eroded, settings.dilation);
      assert st == Stages(blurred, binarized, dilated);
      ghost var kept := LargeContours(ops.findContours(dilated), settings.minContourArea);
      var info := calculator.ExtractContours(ops.findContours(dilated), settings.minContourArea);
      if info.Fail? {
        assert kept != [] && WeightedCenter(kept).Fail?;
        return Raised(info.error);
      }
      var movementDetected := false;
      if info.value.Some? {
        events := events + [ContoursFound(info.value.value)];
        movementDetected := true;
      }
      events := events + [MovementInFrameDetected(movementDetected)];
      if sendPreviewFrames {
        events := events + [PreviewFramesReady(frame, blurred, binarized, dilated)];
      }
      outcome := Done;
    }

    /** `reset`: the background model is emptied, the calculator reset and
        the initial-frame subscriber count zeroed. */
    method Reset()
      requires Valid()
      modifies this`subtractor, this`numOfSubscribersForInitialFrame, calculator
      ensures Valid()
      ensures subtractor == old(subtractor).(seen := [])
      ensures calculator.history == [] && calculator.toleranceCounter == 0
      ensures numOfSubscribersForInitialFrame == 0
      ensures settings == old(settings) && enabled == old(enabled) && events == old(events)
      ensures sendPreviewFrames == old(sendPreviewFrames)
    {
      subtractor := subtractor.(seen := []);
      calculator.Reset();
      numOfSubscribersForInitialFrame := 0;
    }

    /** `onFrameResolutionReceived`: emits the aspect ratio and the resized
        resolution; a zero width raises and emits nothing. */
    method OnFrameResolutionReceived(width: nat, height: nat, target: nat) returns (outcome: Outcome)
      modifies this`events
      ensures outcome.Done? <==> width > 0
      ensures outcome.Done? ==>
        events == old(events) + [ResizedFrameDimensionInfo(AspectRatio(width, height).value, (target, Scaled(target, height, width)))]
      ensures outcome.Raised? ==> events == old(events)
    {
      var r := ResizedResolution(width, height, target);
      if r.Fail? {
        return Raised(r.error);
      }
      events := events + [ResizedFrameDimensionInfo(r.value.0, r.value.1)];
      outcome := Done;
    }

    /** `onFrameTransformatorSettingsChanged`: new settings, a fresh
        subtractor for the new algorithm, and an emptied history with the
        counter at 0. Unreadable settings raise before anything changes; an
        unknown algorithm raises after the settings were installed, keeping the
        old subtractor and calculator. */
    method OnFrameTransformatorSettingsChanged(newSettings: map<string, Setting>) returns (outcome: Outcome)
      requires Valid()
      modifies this`settings, this`subtractor, calculator
      ensures Valid()
      ensures enabled == old(enabled) && events == old(events)
      ensures sendPreviewFrames == old(sendPreviewFrames)
      ensures numOfSubscribersForInitialFrame == old(numOfSubscribersForInitialFrame)
      ensures CompleteSettings(newSettings) && outcome.Raised? ==>
        subtractor == old(subtractor) && calculator.State() == old(calculator.State())
      ensures !CompleteSettings(newSettings) ==>
        outcome.Raised? && settings == old(settings) && subtractor == old(subtractor)
        && calculator.State() == old(calculator.State())
      ensures CompleteSettings(newSettings) ==>
        settings == GetTransformatorSettings(newSettings).value
      ensures outcome.Done? <==>
        CompleteSettings(newSettings) && GetBackgroundSubtractor(settings.background).Ok?
      ensures outcome.Done? ==>
        && subtractor == GetBackgroundSubtractor(settings.background).value
        && subtractor.seen == []
        && calculator.history == [] && calculator.toleranceCounter == 0
    {
      var parsed := GetTransformatorSettings(newSettings);
      if parsed.Fail? {
        return Raised(parsed.error);
      }
      settings := parsed.value;
      var built := GetBackgroundSubtractor(settings.background);
      if built.Fail? {
        return Raised(built.error);
      }
      subtractor := built.value;
      calculator.Reset();
      outcome := Done;
    }
  }
}
