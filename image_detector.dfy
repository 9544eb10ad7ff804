/**
 * The single-image detector page (object-detection/detect.js): every prediction is outlined
 * on an overlay scaled from the image's natural size to its displayed size, the drone-like
 * ones are those with a drone label (no score threshold here), and the best of them gives a
 * drone centre, read out relative to the middle of the canvas with the y-axis pointing up.
 */
module ImageDetector {
  import opened Util
  import opened Detections

  /** The sizes the page reads from the `<img>` element. */
  datatype Image = Image(naturalWidth: nat, naturalHeight: nat, clientWidth: nat, clientHeight: nat)

  /** The pixels-per-unit input: missing from the page, or `Number.parseFloat` of its value. */
  datatype UnitField = NoInput | NotFinite | Finite(value: real)

  datatype Point = Point(x: real, y: real)

  /** One outlined prediction: the scaled box, whether it is stroked in the drone colour, and the top of its caption. */
  datatype Mark = Mark(box: Box, highlighted: bool, captionTop: real)

  /** What the coordinate readout shows. */
  datatype Readout = Blank | NoDronePosition | Position(at: Point, unit: string)

  /** The drone indicator: cleared, "no drone", or an alert naming the best label and its score. */
  datatype Indicator = IndicatorClear | NoDroneIndicator | DroneAlert(cls: string, score: real)

  /** How `await model.detect(sourceImage)` settled. */
  datatype DetectResult = DetectThrew | Predicted(predictions: seq<Prediction>)

  /** `getPixelsPerUnit()`: the user's value when it is a positive finite number, else 1. */
  function PixelsPerUnit(field: UnitField): (ppu: real)
    ensures ppu > 0.0
    ensures ppu == 1.0 || field == Finite(ppu)
  {
    if field.Finite? && field.value > 0.0 then field.value else 1.0
  }

  /** A usable value is taken as it is; anything else falls back to 1. */
  lemma PixelsPerUnitChoice(field: UnitField)
    ensures field.Finite? && field.value > 0.0 ==> PixelsPerUnit(field) == field.value
    ensures !(field.Finite? && field.value > 0.0) ==> PixelsPerUnit(field) == 1.0
  {
  }

  /** `client || natural`: the displayed side, or the natural one when the image is not laid out. */
  function DisplayedSide(client: nat, natural: nat): nat {
    if client == 0 then natural else client
  }

  /** `(client || natural) / natural`: the factor that takes a natural-size coordinate to the displayed one. */
  function AxisScale(client: nat, natural: nat): (s: real)
    requires natural > 0
    ensures s > 0.0
    ensures s * natural as real == DisplayedSide(client, natural) as real
    ensures client == 0 ==> s == 1.0
  {
    DisplayedSide(client, natural) as real / natural as real
  }

  function ScaleBox(b: Box, sx: real, sy: real): Box {
    Box(b.x * sx, b.y * sy, b.w * sx, b.h * sy)
  }

  /** The centre of a box. */
  function Center(b: Box): (c: Point)
    ensures c.x - b.x == b.x + b.w - c.x && c.y - b.y == b.y + b.h - c.y
  {
    Point(b.x + b.w / 2.0, b.y + b.h / 2.0)
  }

  /** A box of non-negative size contains its centre; scaling the box moves its centre by the same factors. */
  lemma CenterOfScaledBox(b: Box, sx: real, sy: real)
    ensures Center(ScaleBox(b, sx, sy)) == Point(Center(b).x * sx, Center(b).y * sy)
    ensures b.w >= 0.0 && b.h >= 0.0 ==>
      var c := Center(b); b.x <= c.x <= b.x + b.w && b.y <= c.y <= b.y + b.h
  {
  }

  predicate HasDroneLabel(p: Prediction) {
    p.cls in DroneLabels
  }

  /** The outline drawn for `p`; its caption sits 18 pixels above the box, but never above the canvas. */
  function MarkFor(p: Prediction, sx: real, sy: real): Mark {
    var b := ScaleBox(p.bbox, sx, sy);
    Mark(b, HasDroneLabel(p), if b.y - 18.0 >= 0.0 then b.y - 18.0 else 0.0)
  }

  /** Every prediction is outlined, in order. */
  function Marks(ps: seq<Prediction>, sx: real, sy: real): (r: seq<Mark>)
    ensures |r| == |ps|
    ensures forall i :: 0 <= i < |ps| ==> r[i] == MarkFor(ps[i], sx, sy)
  {
    seq(|ps|, i requires 0 <= i < |ps| => MarkFor(ps[i], sx, sy))
  }

  /** The drone-labelled predictions, in order, kept whatever their score. */
  function LabelledDrones(ps: seq<Prediction>): (r: seq<Prediction>)
    ensures |r| <= |ps|
  {
    if ps == [] then []
    else
      var last := ps[|ps| - 1];
      LabelledDrones(ps[..|ps| - 1]) + (if HasDroneLabel(last) then [last] else [])
  }

  /** A prediction is kept exactly when it carries a drone label. */
  lemma {:induction false} LabelledDronesExactly(ps: seq<Prediction>)
    ensures forall p :: p in LabelledDrones(ps) <==> p in ps && HasDroneLabel(p)
  {
    if ps != [] {
      LabelledDronesExactly(ps[..|ps| - 1]);
      assert ps == ps[..|ps| - 1] + [ps[|ps| - 1]];
    }
  }

  /** The predictions whose outline is highlighted, in order. */
  function Highlighted(ps: seq<Prediction>, ms: seq<Mark>): seq<Prediction>
    requires |ps| == |ms|
  {
    if ps == [] then []
    else Highlighted(ps[..|ps| - 1], ms[..|ms| - 1]) + (if ms[|ms| - 1].highlighted then [ps[|ps| - 1]] else [])
  }

  /** The highlighted outlines are exactly those of the drones the pass collects, in the same order. */
  lemma {:induction false} HighlightedAreDrones(ps: seq<Prediction>, sx: real, sy: real)
    ensures Highlighted(ps, Marks(ps, sx, sy)) == LabelledDrones(ps)
  {
    if ps != [] {
      var init := ps[..|ps| - 1];
      assert Marks(ps, sx, sy)[..|ps| - 1] == Marks(init, sx, sy);
      HighlightedAreDrones(init, sx, sy);
    }
  }

  /**
   * Each outline is its prediction's box scaled to the displayed image, highlighted iff that
   * prediction is among the drones, with its caption 18 pixels above the box or at the top edge.
   */
  lemma MarksOutlinePredictions(ps: seq<Prediction>, sx: real, sy: real)
    ensures forall i :: 0 <= i < |ps| ==>
      var m := Marks(ps, sx, sy)[i];
      m.box == ScaleBox(ps[i].bbox, sx, sy)
      && (m.highlighted <==> ps[i] in LabelledDrones(ps))
      && m.captionTop >= 0.0 && m.captionTop >= m.box.y - 18.0
      && (m.captionTop == 0.0 || m.captionTop == m.box.y - 18.0)
  {
    LabelledDronesExactly(ps);
  }

  /** The detector keeps everything the control page keeps, and more: a faint bird counts here but not there. */
  lemma NoThresholdHere(ps: seq<Prediction>)
    ensures forall p :: p in DroneDetections(ps) ==> p in LabelledDrones(ps)
    ensures var bird := Prediction("bird", Some(0.1), Box(0.0, 0.0, 1.0, 1.0));
      bird in LabelledDrones([bird]) && bird !in DroneDetections([bird])
  {
    DroneDetectionsExactly(ps);
    LabelledDronesExactly(ps);
    var bird := Prediction("bird", Some(0.1), Box(0.0, 0.0, 1.0, 1.0));
    LabelledDronesExactly([bird]);
    DroneDetectionsExactly([bird]);
  }

  /** `(c - W/2) / ppu` across and `(H/2 - c) / ppu` up: a canvas point relative to the canvas middle. */
  function RelativePosition(c: Point, width: nat, height: nat, ppu: real): (r: Point)
    requires ppu > 0.0
    ensures c.x == r.x * ppu + width as real / 2.0
    ensures c.y == height as real / 2.0 - r.y * ppu
  {
    Point((c.x - width as real / 2.0) / ppu, (height as real / 2.0 - c.y) / ppu)
  }

  /** The middle of the canvas is the origin, x grows to the right and y grows upward. */
  lemma RelativeAxes(c: Point, width: nat, height: nat, ppu: real)
    requires ppu > 0.0
    ensures c == Point(width as real / 2.0, height as real / 2.0) ==>
      RelativePosition(c, width, height, ppu) == Point(0.0, 0.0)
    ensures RelativePosition(c, width, height, ppu).x > 0.0 <==> c.x > width as real / 2.0
    ensures RelativePosition(c, width, height, ppu).y > 0.0 <==> c.y < height as real / 2.0
  {
    var r := RelativePosition(c, width, height, ppu);
    assert r.x * ppu == c.x - width as real / 2.0;
    assert r.y * ppu == height as real / 2.0 - c.y;
  }

  /** `Math.abs(ppu - 1) < 1e-6 ? "px" : "units"`. */
  function UnitLabel(ppu: real): (u: string)
    ensures u == "px" <==> -0.000001 < ppu - 1.0 < 0.000001
    ensures u == "px" || u == "units"
  {
    if (if ppu - 1.0 >= 0.0 then ppu - 1.0 else 1.0 - ppu) < 0.000001 then "px" else "units"
  }

  /** Without a usable pixels-per-unit value the readout is in pixels. */
  lemma DefaultUnitIsPixels(field: UnitField)
    requires !(field.Finite? && field.value > 0.0)
    ensures UnitLabel(PixelsPerUnit(field)) == "px"
  {
  }

  /**
   * The `forEach` of `runDetection`: outline every prediction and collect the drone-labelled
   * ones into `drones`.
   */
  method ScanPredictions(ps: seq<Prediction>, sx: real, sy: real) returns (marks: seq<Mark>, drones: seq<Prediction>)
    ensures marks == Marks(ps, sx, sy)
    ensures drones == LabelledDrones(ps)
  {
    marks, drones := [], [];
    var i := 0;
    while i < |ps|
      invariant 0 <= i <= |ps|
      invariant marks == Marks(ps[..i], sx, sy)
      invariant drones == LabelledDrones(ps[..i])
    {
      var p := ps[i];
      marks := marks + [MarkFor(p, sx, sy)];
      if HasDroneLabel(p) {
        drones := drones + [p];
      }
      assert ps[..i + 1][..i] == ps[..i];
      i := i + 1;
    }
    assert ps[..i] == ps;
  }

  /** The detector page's state: the module-level variables and what the page shows. */
  class DetectorPage {
    var isDetecting: bool
    var buttonDisabled: bool
    var lastDroneCenter: Option<Point>
    var canvasWidth: nat
    var canvasHeight: nat
    var marks: seq<Mark>
    var readout: Readout
    var indicator: Indicator

    /** The page as loaded, with a 300 by 150 canvas, the default size of an unsized canvas element. */
    constructor ()
      ensures !isDetecting && lastDroneCenter == None && marks == [] && readout == Blank
      ensures indicator == IndicatorClear && canvasWidth == 300 && canvasHeight == 150
    {
      isDetecting, buttonDisabled, lastDroneCenter := false, false, None;
      canvasWidth, canvasHeight := 300, 150;
      marks, readout, indicator := [], Blank, IndicatorClear;
    }

    /** `resizeCanvasToImage()`: the canvas takes the displayed size, unless the image has no natural size yet. */
    method ResizeCanvasToImage(img: Image)
      modifies this`canvasWidth, this`canvasHeight
      ensures if img.naturalWidth == 0 || img.naturalHeight == 0
              then canvasWidth == old(canvasWidth) && canvasHeight == old(canvasHeight)
              else canvasWidth == DisplayedSide(img.clientWidth, img.naturalWidth)
                   && canvasHeight == DisplayedSide(img.clientHeight, img.naturalHeight)
    {
      if img.naturalWidth == 0 || img.naturalHeight == 0 {
        return;
      }
      canvasWidth := DisplayedSide(img.clientWidth, img.naturalWidth);
      canvasHeight := DisplayedSide(img.clientHeight, img.naturalHeight);
    }

    /** `updateCoordReadout()`: nothing without a drone centre, else its position in the current unit. */
    method UpdateCoordReadout(field: UnitField)
      modifies this`readout
      ensures lastDroneCenter.None? ==> readout == old(readout)
      ensures lastDroneCenter.Some? ==>
        var ppu := PixelsPerUnit(field);
        readout == Position(RelativePosition(lastDroneCenter.value, canvasWidth, canvasHeight, ppu), UnitLabel(ppu))
    {
      if lastDroneCenter.None? {
        return;
      }
      var ppu := PixelsPerUnit(field);
      readout := Position(RelativePosition(lastDroneCenter.value, canvasWidth, canvasHeight, ppu), UnitLabel(ppu));
    }

    /**
     * `runDetection()` up to the call of `model.detect`: a pass already running, a missing
     * image or a model that did not load ends it; otherwise the canvas is resized to the
     * (loaded) image, the overlay, indicator and readout are cleared, and the pass is marked running.
     */
    method BeginPass(hasSource: bool, modelReady: bool, img: Image) returns (started: bool)
      modifies this`isDetecting, this`buttonDisabled, this`lastDroneCenter, this`canvasWidth,
               this`canvasHeight, this`marks, this`readout, this`indicator
      ensures started <==> !old(isDetecting) && hasSource && modelReady
      ensures !started ==>
        isDetecting == old(isDetecting) && buttonDisabled == old(buttonDisabled)
        && lastDroneCenter == old(lastDroneCenter) && canvasWidth == old(canvasWidth)
        && canvasHeight == old(canvasHeight) && marks == old(marks) && readout == old(readout)
        && indicator == old(indicator)
      ensures started ==>
        isDetecting && buttonDisabled && lastDroneCenter == None && marks == [] && readout == Blank
        && indicator == IndicatorClear
        && (if img.naturalWidth > 0 && img.naturalHeight > 0
            then canvasWidth == DisplayedSide(img.clientWidth, img.naturalWidth)
                 && canvasHeight == DisplayedSide(img.clientHeight, img.naturalHeight)
            else canvasWidth == old(canvasWidth) && canvasHeight == old(canvasHeight))
    {
      if isDetecting || !hasSource || !modelReady {
        return false;
      }
      ResizeCanvasToImage(img);
      marks := [];
      indicator := IndicatorClear;
      lastDroneCenter, readout := None, Blank;
      isDetecting, buttonDisabled := true, true;
      return true;
    }

    /** The `if`/`else` after the `forEach`: no drone clears the centre, else the best drone's scaled centre is read out. */
    method ShowBestDrone(drones: seq<Prediction>, sx: real, sy: real, field: UnitField)
      modifies this`lastDroneCenter, this`readout, this`indicator
      ensures drones == [] ==>
        lastDroneCenter == None && readout == NoDronePosition && indicator == NoDroneIndicator
      ensures drones != [] ==>
        var best := Best(drones);
        var ppu := PixelsPerUnit(field);
        lastDroneCenter == Some(Center(ScaleBox(best.bbox, sx, sy)))
        && readout == Position(RelativePosition(lastDroneCenter.value, canvasWidth, canvasHeight, ppu), UnitLabel(ppu))
        && indicator == DroneAlert(best.cls, Score(best))
    {
      if drones == [] {
        lastDroneCenter := None;
        readout := NoDronePosition;
        indicator := NoDroneIndicator;
        return;
      }
      var best := Best(drones);
      lastDroneCenter := Some(Center(ScaleBox(best.bbox, sx, sy)));
      UpdateCoordReadout(field);
      indicator := DroneAlert(best.cls, Score(best));
    }

    /**
     * `runDetection()` from the settled `model.detect` to its `finally`: outline every
     * prediction, pick the best drone-labelled one, and always mark the pass finished.
     */
    method FinishPass(result: DetectResult, img: Image, field: UnitField)
      requires img.naturalWidth > 0 && img.naturalHeight > 0
      modifies this`isDetecting, this`buttonDisabled, this`lastDroneCenter, this`marks,
               this`readout, this`indicator
      ensures !isDetecting && !buttonDisabled
      ensures result.DetectThrew? ==>
        lastDroneCenter == old(lastDroneCenter) && marks == old(marks) && readout == old(readout)
        && indicator == old(indicator)
      ensures result.Predicted? ==>
        var sx := AxisScale(img.clientWidth, img.naturalWidth);
        var sy := AxisScale(img.clientHeight, img.naturalHeight);
        var drones := LabelledDrones(result.predictions);
        var ppu := PixelsPerUnit(field);
        marks == Marks(result.predictions, sx, sy)
        && (drones == [] ==>
              lastDroneCenter == None && readout == NoDronePosition && indicator == NoDroneIndicator)
        && (drones != [] ==>
              lastDroneCenter == Some(Center(ScaleBox(Best(drones).bbox, sx, sy)))
              && readout == Position(RelativePosition(lastDroneCenter.value, canvasWidth, canvasHeight, ppu), UnitLabel(ppu))
              && indicator == DroneAlert(Best(drones).cls, Score(Best(drones))))
    {
      if result.Predicted? {
        var sx := AxisScale(img.clientWidth, img.naturalWidth);
        var sy := AxisScale(img.clientHeight, img.naturalHeight);
        var drawn, drones := ScanPredictions(result.predictions, sx, sy);
        marks := drawn;
        ShowBestDrone(drones, sx, sy, field);
      }
      isDetecting, buttonDisabled := false, false;
    }
  }

  /**
   * The best drone of a pass is a drone-labelled prediction with the highest score, the later
   * one on a tie, so the centre the page reports belongs to it.
   */
  lemma BestDroneIsLabelledAndMaximal(ps: seq<Prediction>)
    requires LabelledDrones(ps) != []
    ensures var drones := LabelledDrones(ps);
      Best(drones) in ps && HasDroneLabel(Best(drones))
      && forall q :: q in drones ==> Score(q) <= Score(Best(drones))
    ensures var drones := LabelledDrones(ps);
      Best(drones) == drones[BestIndex(drones)]
  {
    var drones := LabelledDrones(ps);
    BestIsAtBestIndex(drones);
    BestIsMaximal(drones);
    LabelledDronesExactly(ps);
  }
}
