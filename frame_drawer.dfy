/** The overlay painter (frame_processors/frameDrawer.py): the display flags,
    the contours, centre and detected objects received for the next frame,
    and what is drawn on that frame. Every OpenCV drawing call becomes one
    abstract draw command; colours, thickness and fonts are not modelled. */
module FrameDrawing {
  import opened Wrappers
  import opened Utils
  import FT = FrameTransformation

  /** `tr` of `drawContourCrosshair`. */
  const CrosshairRadius := 30
  /** The radius of the dot marking a box centre or a contour centroid. */
  const MarkerRadius := 2
  const RecordingMessage := "Recording Frames"
  const SoundMessage := "Sound Detected..."
  const NoCenter := RaisedError("No Ceneter of the mass received for drawing Crossahir")

  /** `MovementPresentationType`. */
  datatype MovementPresentationType = Crosshair | Rectangle | Contour

  /** `TextToPutOnFrameType`. */
  datatype TextToPutOnFrameType = CenterOfTheMassMsg | RecordingMovementMsg | SoundPresentMsg

  /** One entry of the object detector's list: its box, label and
      confidence. */
  datatype DetectedObject = DetectedObject(x: int, y: int, w: int, h: int, tag: string, confidence: real)

  /** One OpenCV drawing call: `cv2.rectangle`, `cv2.circle`, `cv2.line`,
      `cv2.drawContours` of one contour, and `cv2.putText` of an object label
      (its four-decimal formatting left out) or of a plain text. */
  datatype DrawCommand =
    | Box(from: Point, to: Point)
    | Circle(center: Point, radius: nat)
    | Line(from: Point, to: Point)
    | Outline(contour: FT.Contour)
    | Label(tag: string, confidence: real, at: Point)
    | Text(message: string, at: Point)

  /** A frame emitted for display with what was drawn on it. */
  datatype DrawnFrame = DrawnFrame(frame: Frame, overlay: seq<DrawCommand>)

  /** `PreviewFrames`. */
  datatype PreviewFrames = PreviewFrames(original: DrawnFrame, grayAndBlured: DrawnFrame,
                                         thresholded: DrawnFrame, erodedAndDilated: DrawnFrame)

  /** The rectangle and the label `drawObjects` draws for one object, the
      label two pixels above the box. */
  function ObjectDrawing(o: DetectedObject): seq<DrawCommand> {
    [Box(Point(o.x, o.y), Point(o.x + o.w, o.y + o.h)), Label(o.tag, o.confidence, Point(o.x, o.y - 2))]
  }

  /** The dot at the box centre (`x + int(w/2)`, `y + int(h/2)`) and the box
      `drawRectanglesAroundContours` draws for one contour. */
  function BoxDrawing(c: FT.Contour): seq<DrawCommand> {
    [Circle(Point(c.box.x + c.box.w / 2, c.box.y + c.box.h / 2), MarkerRadius),
     Box(Point(c.box.x, c.box.y), Point(c.box.x + c.box.w, c.box.y + c.box.h))]
  }

  /** The dot at the centroid and the outline `drawContourShape` draws for
      one contour. */
  function ShapeDrawing(c: FT.Contour): seq<DrawCommand> {
    [Circle(Point(c.cx, c.cy), MarkerRadius), Outline(c)]
  }

  /** `drawContourCrosshair`: a circle of radius 30 and a horizontal and a
      vertical stroke of half-length 30 through the centre. */
  function CrosshairDrawing(p: Point): seq<DrawCommand> {
    [Circle(p, CrosshairRadius),
     Line(Point(p.x - CrosshairRadius, p.y), Point(p.x + CrosshairRadius, p.y)),
     Line(Point(p.x, p.y - CrosshairRadius), Point(p.x, p.y + CrosshairRadius))]
  }

  /** The commands of every element, element by element. */
  function DrawEach<T>(xs: seq<T>, draw: T -> seq<DrawCommand>): seq<DrawCommand> {
    if xs == [] then [] else DrawEach(xs[..|xs| - 1], draw) + draw(xs[|xs| - 1])
  }

  /** With two commands per element, element `i` owns commands `2i` and
      `2i + 1`. */
  lemma {:induction false} DrawEachSlices<T>(xs: seq<T>, draw: T -> seq<DrawCommand>, i: nat)
    requires forall j :: 0 <= j < |xs| ==> |draw(xs[j])| == 2
    requires i < |xs|
    ensures |DrawEach(xs, draw)| == 2 * |xs|
    ensures DrawEach(xs, draw)[2 * i..2 * i + 2] == draw(xs[i])
  {
    var init := xs[..|xs| - 1];
    if i < |init| {
      DrawEachSlices(init, draw, i);
      assert DrawEach(xs, draw)[2 * i..2 * i + 2] == DrawEach(init, draw)[2 * i..2 * i + 2];
    } else if init != [] {
      DrawEachSlices(init, draw, |init| - 1);
    }
  }

  /** Every command of `DrawEach` comes from drawing one of the elements. */
  lemma {:induction false} DrawEachMember<T>(xs: seq<T>, draw: T -> seq<DrawCommand>, k: DrawCommand)
    requires k in DrawEach(xs, draw)
    ensures exists i :: 0 <= i < |xs| && k in draw(xs[i])
  {
    var init := xs[..|xs| - 1];
    if k in DrawEach(init, draw) {
      DrawEachMember(init, draw, k);
      var i :| 0 <= i < |init| && k in draw(init[i]);
      assert init[i] == xs[i];
    } else {
      assert k in draw(xs[|xs| - 1]);
    }
  }

  /** `drawObjects`: nothing for `None` or an empty list. */
  function ObjectsPart(objects: Option<seq<DetectedObject>>): seq<DrawCommand> {
    if objects.None? || objects.value == [] then [] else DrawEach(objects.value, ObjectDrawing)
  }

  /** `drawRectanglesAroundContours` when rectangles are shown. */
  function RectanglesPart(contours: Option<seq<FT.Contour>>, show: bool): seq<DrawCommand> {
    if !show || contours.None? then [] else DrawEach(contours.value, BoxDrawing)
  }

  /** The number of leading contours with a positive area: `m00` of the
      first contour after them is zero. */
  function FirstFlat(cs: seq<FT.Contour>): (k: nat)
    ensures k <= |cs|
    ensures forall i :: 0 <= i < k ==> cs[i].area > 0
    ensures k < |cs| ==> cs[k].area == 0
  {
    if cs == [] || cs[0].area == 0 then 0 else 1 + FirstFlat(cs[1..])
  }

  /** `drawContourShape` when shapes are shown: the contours before the
      first flat one are drawn; a flat one divides by zero. */
  function ShapesPart(contours: Option<seq<FT.Contour>>, show: bool): (r: (seq<DrawCommand>, bool)) {
    if !show || contours.None? then ([], true)
    else
      var cs := contours.value;
      var k := FirstFlat(cs);
      (DrawEach(cs[..k], ShapeDrawing), k == |cs|)
  }

  /** Drawing shapes fails exactly when they are shown and some received
      contour has zero area; until then one dot and one outline are drawn per
      contour. */
  lemma ShapesFailIffFlat(contours: Option<seq<FT.Contour>>, show: bool)
    ensures var r := ShapesPart(contours, show);
      && (!r.1 <==> show && contours.Some? && exists c :: c in contours.value && c.area == 0)
      && (r.1 && show && contours.Some? ==> |r.0| == 2 * |contours.value|)
  {
    if show && contours.Some? {
      var cs := contours.value;
      var k := FirstFlat(cs);
      if k == |cs| {
        assert cs[..k] == cs;
        forall i | 0 <= i < |cs| ensures |ShapeDrawing(cs[i])| == 2 {}
        if cs != [] {
          DrawEachSlices(cs, ShapeDrawing, 0);
        }
      } else {
        assert cs[k] in cs;
      }
    }
  }

  /** The decimal digits of `n`. */
  function NatToString(n: nat): string
    decreases n
  {
    var digit := "0123456789"[n % 10];
    if n < 10 then [digit] else NatToString(n / 10) + [digit]
  }

  /** `str(i)`. */
  function IntToString(i: int): string {
    if i < 0 then "-" + NatToString(-i) else NatToString(i)
  }

  function CenterMessage(p: Point): string {
    "Center of the mass: " + IntToString(p.x) + " x " + IntToString(p.y)
  }

  /** `drawTextMessages`: the centre text iff there is a centre, then
      "Recording Frames" iff recording, then "Sound Detected..." iff sound
      is detected, at x 10 and y 25, 40 and 55, so top to bottom. */
  function TextsPart(center: Option<Point>, recording: bool, sound: bool): seq<DrawCommand> {
    (if center.Some? then [Text(CenterMessage(center.value), Point(10, 25))] else [])
    + (if recording then [Text(RecordingMessage, Point(10, 40))] else [])
    + (if sound then [Text(SoundMessage, Point(10, 55))] else [])
  }

  lemma TextsInOrder(center: Option<Point>, recording: bool, sound: bool)
    ensures var r := TextsPart(center, recording, sound);
      && (forall k :: k in r ==> k.Text? && k.at.x == 10)
      && (forall i, j :: 0 <= i < j < |r| ==> r[i].at.y < r[j].at.y)
      && (center.Some? <==> exists k :: k in r && k.at.y == 25)
      && (center.Some? ==> r[0] == Text(CenterMessage(center.value), Point(10, 25)))
      && (recording <==> Text(RecordingMessage, Point(10, 40)) in r)
      && (sound <==> Text(SoundMessage, Point(10, 55)) in r)
      && |r| == (if center.Some? then 1 else 0) + (if recording then 1 else 0) + (if sound then 1 else 0)
  {
  }

  /** `drawContours`: rectangles, shapes, and the crosshair whenever there
      is a centre; `self.drawContourCrosshair` is a bound method and always
      true, so `showCrosshair` plays no part. A flat contour stops it. */
  function ContoursPart(contours: Option<seq<FT.Contour>>, center: Option<Point>, showRectangles: bool,
                        showShapes: bool): (r: (seq<DrawCommand>, bool))
  {
    var shapes := ShapesPart(contours, showShapes);
    var crosshair := if shapes.1 && center.Some? then CrosshairDrawing(center.value) else [];
    (RectanglesPart(contours, showRectangles) + shapes.0 + crosshair, shapes.1)
  }

  /** `drawElementsOnFrame`: everything drawn on one frame and whether it got
      to the end. */
  function Overlay(objects: Option<seq<DetectedObject>>, contours: Option<seq<FT.Contour>>, center: Option<Point>,
                   showRectangles: bool, showShapes: bool, recording: bool, sound: bool): (r: (seq<DrawCommand>, bool))
  {
    var shapes := ShapesPart(contours, showShapes);
    var crosshair := if shapes.1 && center.Some? then CrosshairDrawing(center.value) else [];
    var texts := if shapes.1 then TextsPart(center, recording, sound) else [];
    (ObjectsPart(objects) + RectanglesPart(contours, showRectangles) + shapes.0 + crosshair + texts, shapes.1)
  }

  /** The overlay is what `drawObjects`, `drawContours` and
      `drawTextMessages` draw, one after another. */
  lemma OverlaySplit(objects: Option<seq<DetectedObject>>, contours: Option<seq<FT.Contour>>, center: Option<Point>,
                     showRectangles: bool, showShapes: bool, recording: bool, sound: bool)
    ensures var drawn := ContoursPart(contours, center, showRectangles, showShapes);
      Overlay(objects, contours, center, showRectangles, showShapes, recording, sound)
      == (ObjectsPart(objects) + drawn.0 + (if drawn.1 then TextsPart(center, recording, sound) else []), drawn.1)
  {
    var shapes := ShapesPart(contours, showShapes);
    var crosshair := if shapes.1 && center.Some? then CrosshairDrawing(center.value) else [];
    var texts := if shapes.1 then TextsPart(center, recording, sound) else [];
    var a, b := ObjectsPart(objects), RectanglesPart(contours, showRectangles);
    var drawn := ContoursPart(contours, center, showRectangles, showShapes);
    assert drawn == (b + shapes.0 + crosshair, shapes.1);
    var whole := Overlay(objects, contours, center, showRectangles, showShapes, recording, sound);
    assert whole == (a + b + shapes.0 + crosshair + texts, shapes.1);
    ConcatAssoc(a, b + shapes.0, crosshair);
    ConcatAssoc(a, b, shapes.0);
  }

  /** Associativity of concatenation as a standalone fact, so that callers
      with large proof contexts need not rederive it by extensionality. */
  lemma ConcatAssoc(a: seq<DrawCommand>, b: seq<DrawCommand>, c: seq<DrawCommand>)
    ensures a + b + c == a + (b + c)
  {
  }

  predicate IsCrosshairCircle(k: DrawCommand) {
    k.Circle? && k.radius == CrosshairRadius
  }

  /** Objects, rectangles and shapes draw no circle of the crosshair's
      radius. */
  lemma NoCrosshairCircleBefore(objects: Option<seq<DetectedObject>>, contours: Option<seq<FT.Contour>>,
                                showRectangles: bool, showShapes: bool, k: DrawCommand)
    requires IsCrosshairCircle(k)
    ensures k !in ObjectsPart(objects)
    ensures k !in RectanglesPart(contours, showRectangles)
    ensures k !in ShapesPart(contours, showShapes).0
  {
    if k in ObjectsPart(objects) {
      DrawEachMember(objects.value, ObjectDrawing, k);
      assert false;
    }
    if k in RectanglesPart(contours, showRectangles) {
      DrawEachMember(contours.value, BoxDrawing, k);
      assert false;
    }
    if k in ShapesPart(contours, showShapes).0 {
      var cs := contours.value;
      DrawEachMember(cs[..FirstFlat(cs)], ShapeDrawing, k);
      assert false;
    }
  }

  /** A completed overlay holds a crosshair circle exactly when a centre was
      received, and it is centred there. */
  lemma CrosshairIffCenter(objects: Option<seq<DetectedObject>>, contours: Option<seq<FT.Contour>>, center: Option<Point>,
                           showRectangles: bool, showShapes: bool, recording: bool, sound: bool, p: Point)
    requires Overlay(objects, contours, center, showRectangles, showShapes, recording, sound).1
    ensures Circle(p, CrosshairRadius) in Overlay(objects, contours, center, showRectangles, showShapes, recording, sound).0
            <==> center == Some(p)
  {
    var k := Circle(p, CrosshairRadius);
    NoCrosshairCircleBefore(objects, contours, showRectangles, showShapes, k);
    var a, b, shapes := ObjectsPart(objects), RectanglesPart(contours, showRectangles), ShapesPart(contours, showShapes);
    var texts := TextsPart(center, recording, sound);
    var crosshair := if center.Some? then CrosshairDrawing(center.value) else [];
    var whole := Overlay(objects, contours, center, showRectangles, showShapes, recording, sound).0;
    assert shapes.1;
    assert whole == a + b + shapes.0 + crosshair + texts;
    TextsInOrder(center, recording, sound);
    assert k !in texts;
    assert k in crosshair <==> center == Some(p);
    assert k in whole <==> k in a || k in b || k in shapes.0 || k in crosshair || k in texts;
  }

  /** A completed overlay ends with the text messages, in their order. */
  lemma TextsLast(objects: Option<seq<DetectedObject>>, contours: Option<seq<FT.Contour>>, center: Option<Point>,
                  showRectangles: bool, showShapes: bool, recording: bool, sound: bool)
    requires Overlay(objects, contours, center, showRectangles, showShapes, recording, sound).1
    ensures var r := Overlay(objects, contours, center, showRectangles, showShapes, recording, sound).0;
      var t := TextsPart(center, recording, sound);
      |t| <= |r| && r[|r| - |t|..] == t
  {
  }

  class FrameDrawer {
    var showSoundDetected: bool
    var showIsRecording: bool
    var showCrosshair: bool
    var showContourShapes: bool            // showConturShapes
    var showRectangles: bool
    var objects: Option<seq<DetectedObject>>    // objectsForDrawing
    var contours: Option<seq<FT.Contour>>       // contoursForDrawing
    var center: Option<Point>                   // centerOfTheMass
    var messages: seq<TextToPutOnFrameType>     // msgTypesForDrawing
    /** What has been drawn on the frame being prepared. */
    var canvas: seq<DrawCommand>
    /** Every `frameReadyForDisplay` emission, in order. */
    var displayed: seq<DrawnFrame>
    /** Every `previewFramesReadyForDisplay` emission, in order. */
    var previews: seq<PreviewFrames>

    /** `initializeFields`: only the crosshair is shown, nothing is pending. */
    constructor ()
      ensures showCrosshair && !showSoundDetected && !showIsRecording && !showContourShapes && !showRectangles
      ensures objects == None && contours == None && center == None && messages == []
      ensures canvas == [] && displayed == [] && previews == []
    {
      showSoundDetected := false;
      showIsRecording := false;
      showCrosshair := true;
      showContourShapes := false;
      showRectangles := false;
      objects := None;
      contours := None;
      center := None;
      messages := [];
      canvas := [];
      displayed := [];
      previews := [];
    }

    /** `onObjectForDrawingReceived`. */
    method OnObjectForDrawingReceived(list: seq<DetectedObject>)
      modifies this`objects
      ensures objects == Some(list)
    {
      objects := Some(list);
    }

    /** `onContourDataReceived`: both the contours and the centre. */
    method OnContourDataReceived(info: FT.ContoursInfo)
      modifies this`contours, this`center
      ensures contours == Some(info.contours) && center == Some(info.center)
    {
      contours := Some(info.contours);
      center := Some(info.center);
    }

    /** `onTextTypeReceived`. */
    method OnTextTypeReceived(msgType: TextToPutOnFrameType)
      modifies this`messages
      ensures messages == old(messages) + [msgType]
    {
      messages := messages + [msgType];
    }

    /** `onSetIsRecordingText`. */
    method OnSetIsRecordingText(isRecording: bool)
      modifies this`showIsRecording
      ensures showIsRecording == isRecording
    {
      showIsRecording := isRecording;
    }

    /** `onSetIsSoundDetectedText`. */
    method OnSetIsSoundDetectedText(isSoundDetected: bool)
      modifies this`showSoundDetected
      ensures showSoundDetected == isSoundDetected
    {
      showSoundDetected := isSoundDetected;
    }

    /** `onToggleShowMovementType`: exactly the flag of the given type. */
    method OnToggleShowMovementType(shapeType: MovementPresentationType, toggle: bool)
      modifies this`showCrosshair, this`showContourShapes, this`showRectangles
      ensures showCrosshair == (if shapeType == Crosshair then toggle else old(showCrosshair))
      ensures showContourShapes == (if shapeType == Contour then toggle else old(showContourShapes))
      ensures showRectangles == (if shapeType == Rectangle then toggle else old(showRectangles))
    {
      match shapeType
      case Crosshair => showCrosshair := toggle;
      case Contour => showContourShapes := toggle;
      case Rectangle => showRectangles := toggle;
    }

    /** `drawObjects`: one rectangle and one label per object, then the list
      is dropped; `None` and the empty list are left as they are. */
    method DrawObjects()
      modifies this`canvas, this`objects
      ensures canvas == old(canvas) + ObjectsPart(old(objects))
      ensures objects == (if old(objects).Some? && old(objects).value != [] then None else old(objects))
    {
      if objects.None? || objects.value == [] {
        return;
      }
      var list := objects.value;
      var i := 0;
      while i < |list|
        invariant 0 <= i <= |list|
        invariant canvas == old(canvas) + DrawEach(list[..i], ObjectDrawing)
      {
        assert list[..i + 1][..i] == list[..i];
        canvas := canvas + ObjectDrawing(list[i]);
        i := i + 1;
      }
      assert list[..i] == list;
      objects := None;
    }

    /** `drawRectanglesAroundContours`. */
    method DrawRectanglesAroundContours()
      modifies this`canvas
      ensures canvas == old(canvas) + RectanglesPart(contours, true)
    {
      if contours.None? || contours.value == [] {
        return;
      }
      var cs := contours.value;
      var i := 0;
      while i < |cs|
        invariant 0 <= i <= |cs|
        invariant canvas == old(canvas) + DrawEach(cs[..i], BoxDrawing)
      {
        assert cs[..i + 1][..i] == cs[..i];
        canvas := canvas + BoxDrawing(cs[i]);
        i := i + 1;
      }
      assert cs[..i] == cs;
    }

    /** `drawContourShape`: `int(m10/m00)` raises on the first contour whose
      area is zero, after the ones before it are drawn. */
    method DrawContourShape() returns (outcome: Outcome)
      modifies this`canvas
      ensures canvas == old(canvas) + ShapesPart(contours, true).0
      ensures outcome == (if ShapesPart(contours, true).1 then Done else Raised(ZeroDivisionError))
    {
      outcome := Done;
      if contours.None? || contours.value == [] {
        return;
      }
      var cs := contours.value;
      var i := 0;
      while i < |cs|
        invariant 0 <= i <= |cs|
        invariant forall j :: 0 <= j < i ==> cs[j].area > 0
        invariant canvas == old(canvas) + DrawEach(cs[..i], ShapeDrawing)
      {
        if cs[i].area == 0 {
          assert FirstFlat(cs) == i;
          return Raised(ZeroDivisionError);
        }
        assert cs[..i + 1][..i] == cs[..i];
        canvas := canvas + ShapeDrawing(cs[i]);
        i := i + 1;
      }
      assert FirstFlat(cs) == |cs|;
      assert cs[..i] == cs;
    }

    /** `drawContourCrosshair`: raises without a centre. */
    method DrawContourCrosshair() returns (outcome: Outcome)
      modifies this`canvas
      ensures center.None? ==> outcome == Raised(NoCenter) && canvas == old(canvas)
      ensures center.Some? ==> outcome == Done && canvas == old(canvas) + CrosshairDrawing(center.value)
    {
      if center.None? {
        return Raised(NoCenter);
      }
      canvas := canvas + CrosshairDrawing(center.value);
      outcome := Done;
    }

    /** `drawContours`. */
    method DrawContours() returns (outcome: Outcome)
      modifies this`canvas
      ensures var drawn := ContoursPart(contours, center, showRectangles, showContourShapes);
        canvas == old(canvas) + drawn.0 && outcome == (if drawn.1 then Done else Raised(ZeroDivisionError))
    {
      ghost var rects := RectanglesPart(contours, showRectangles);
      ghost var shapes := ShapesPart(contours, showContourShapes);
      if showRectangles {
        DrawRectanglesAroundContours();
      }
      assert canvas == old(canvas) + rects;
      outcome := Done;
      if showContourShapes {
        outcome := DrawContourShape();
        assert canvas == old(canvas) + rects + shapes.0;
        if outcome.Raised? {
          ConcatAssoc(old(canvas), rects, shapes.0);
          return;
        }
      }
      assert shapes.1 && canvas == old(canvas) + rects + shapes.0;
      if center.Some? {
        outcome := DrawContourCrosshair();
        ConcatAssoc(old(canvas) + rects, shapes.0, CrosshairDrawing(center.value));
      }
      ConcatAssoc(old(canvas), rects, shapes.0);
    }

    /** `drawTextMessages`. */
    method DrawTextMessages()
      modifies this`canvas
      ensures canvas == old(canvas) + TextsPart(center, showIsRecording, showSoundDetected)
    {
      if center.Some? {
        canvas := canvas + [Text(CenterMessage(center.value), Point(10, 25))];
      }
      if showIsRecording {
        canvas := canvas + [Text(RecordingMessage, Point(10, 40))];
      }
      if showSoundDetected {
        canvas := canvas + [Text(SoundMessage, Point(10, 55))];
      }
    }

    /** `clear_qeues`. */
    method ClearQueues()
      modifies this`contours, this`center, this`messages
      ensures contours == None && center == None && messages == []
    {
      contours := None;
      center := None;
      messages := [];
    }

    /** `drawElementsOnFrame`: objects, contours and texts are drawn, then
        the contours, the centre and the message list are cleared. A flat
        contour raises in the middle, after the objects were dropped and
        before anything is cleared. */
    method DrawElementsOnFrame() returns (outcome: Outcome)
      modifies this`canvas, this`objects, this`contours, this`center, this`messages
      ensures var drawn := Overlay(old(objects), old(contours), old(center), showRectangles, showContourShapes,
                                   showIsRecording, showSoundDetected);
        && canvas == old(canvas) + drawn.0
        && outcome == (if drawn.1 then Done else Raised(ZeroDivisionError))
      ensures objects == (if old(objects).Some? && old(objects).value != [] then None else old(objects))
      ensures outcome.Done? ==> contours == None && center == None && messages == []
      ensures outcome.Raised? ==> contours == old(contours) && center == old(center) && messages == old(messages)
    {
      ghost var total := Overlay(objects, contours, center, showRectangles, showContourShapes,
                                 showIsRecording, showSoundDetected);
      ghost var objectsDrawn := ObjectsPart(objects);
      ghost var contoursDrawn := ContoursPart(contours, center, showRectangles, showContourShapes);
      ghost var textsDrawn := TextsPart(center, showIsRecording, showSoundDetected);
      OverlaySplit(objects, contours, center, showRectangles, showContourShapes, showIsRecording, showSoundDetected);
      DrawObjects();
      assert canvas == old(canvas) + objectsDrawn;
      outcome := DrawContours();
      assert canvas == old(canvas) + objectsDrawn + contoursDrawn.0;
      if outcome.Raised? {
        assert total.0 == objectsDrawn + contoursDrawn.0;
        ConcatAssoc(old(canvas), objectsDrawn, contoursDrawn.0);
        assert total == Overlay(old(objects), old(contours), old(center), showRectangles, showContourShapes,
                                showIsRecording, showSoundDetected);
        return;
      }
      DrawTextMessages();
      assert canvas == old(canvas) + objectsDrawn + contoursDrawn.0 + textsDrawn;
      assert total.0 == objectsDrawn + contoursDrawn.0 + textsDrawn;
      ConcatAssoc(old(canvas), objectsDrawn, contoursDrawn.0);
      ConcatAssoc(old(canvas), objectsDrawn + contoursDrawn.0, textsDrawn);
      ClearQueues();
      assert showRectangles == old(showRectangles) && showContourShapes == old(showContourShapes);
      assert showIsRecording == old(showIsRecording) && showSoundDetected == old(showSoundDetected);
      assert total == Overlay(old(objects), old(contours), old(center), showRectangles, showContourShapes,
                              showIsRecording, showSoundDetected);
    }

    /** `onPrepareFrameForDisplay`: the frame is emitted with its overlay
        unless drawing raised. */
    method OnPrepareFrameForDisplay(frame: Frame) returns (outcome: Outcome)
      modifies this`canvas, this`objects, this`contours, this`center, this`messages, this`displayed
      ensures var drawn := Overlay(old(objects), old(contours), old(center), showRectangles, showContourShapes,
                                   showIsRecording, showSoundDetected);
        && outcome == (if drawn.1 then Done else Raised(ZeroDivisionError))
        && displayed == old(displayed) + (if drawn.1 then [DrawnFrame(frame, drawn.0)] else [])
      ensures objects == (if old(objects).Some? && old(objects).value != [] then None else old(objects))
      ensures outcome.Done? ==> contours == None && center == None && messages == []
      ensures outcome.Raised? ==> contours == old(contours) && center == old(center) && messages == old(messages)
    {
      canvas := [];
      outcome := DrawElementsOnFrame();
      assert canvas == Overlay(old(objects), old(contours), old(center), showRectangles, showContourShapes,
                               showIsRecording, showSoundDetected).0;
      if outcome.Done? {
        displayed := displayed + [DrawnFrame(frame, canvas)];
      }
    }

    /** `onPreparePreviewFramesForDisplay`: each of the four stages gets its
        caption at (10, 30). */
    method OnPreparePreviewFramesForDisplay(original: Frame, grayAndBlured: Frame, thresholded: Frame,
                                            erodedAndDilated: Frame)
      modifies this`previews
      ensures previews == old(previews) + [PreviewFrames(
        DrawnFrame(original, [Text("Original Frame", Point(10, 30))]),
        DrawnFrame(grayAndBlured, [Text("Gray&Blured Frame", Point(10, 30))]),
        DrawnFrame(thresholded, [Text("Binary thresholded Frame", Point(10, 30))]),
        DrawnFrame(erodedAndDilated, [Text("Eroded&Dilated Frame", Point(10, 30))]))]
    {
      previews := previews + [PreviewFrames(
        DrawnFrame(original, [Text("Original Frame", Point(10, 30))]),
        DrawnFrame(grayAndBlured, [Text("Gray&Blured Frame", Point(10, 30))]),
        DrawnFrame(thresholded, [Text("Binary thresholded Frame", Point(10, 30))]),
        DrawnFrame(erodedAndDilated, [Text("Eroded&Dilated Frame", Point(10, 30))]))];
    }
  }

  /** A contour update followed by one frame: with the crosshair switched
      off the frame still carries a crosshair at the received centre and the
      centre text, and afterwards nothing is pending. */
  method CrosshairDespiteToggle(info: FT.ContoursInfo, frame: Frame) returns (shown: DrawnFrame, cleared: bool)
    ensures shown.overlay == CrosshairDrawing(info.center) + [Text(CenterMessage(info.center), Point(10, 25))]
    ensures cleared
  {
    var drawer := new FrameDrawer();
    drawer.OnToggleShowMovementType(Crosshair, false);
    drawer.OnContourDataReceived(info);
    assert drawer.objects == None && !drawer.showRectangles && !drawer.showContourShapes;
    assert !drawer.showIsRecording && !drawer.showSoundDetected && drawer.displayed == [];
    var drawn := Overlay(None, Some(info.contours), Some(info.center), false, false, false, false);
    assert ShapesPart(Some(info.contours), false) == ([], true);
    assert drawn.0 == CrosshairDrawing(info.center) + [Text(CenterMessage(info.center), Point(10, 25))];
    var outcome := drawer.OnPrepareFrameForDisplay(frame);
    assert drawer.displayed == [DrawnFrame(frame, drawn.0)];
    shown := drawer.displayed[0];
    cleared := drawer.contours == None && drawer.center == None;
  }
}
