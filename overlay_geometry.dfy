/**
 * Where the detection boxes land on the overlay canvas of js/control.js: `getImageFit`
 * (how the feed image is scaled and centred inside its container) and the box mapping and
 * filtering loop of `drawDetections`. Arithmetic is exact, over `real`.
 */
module OverlayGeometry {
  import opened Util
  import opened Detections

  /** The DOM metrics `getImageFit` reads: natural image size, container client size, computed `object-fit`. */
  datatype Media = Media(naturalWidth: nat, naturalHeight: nat,
                         containerWidth: nat, containerHeight: nat, objectFit: string)

  /** `{ scale, offsetX, offsetY }`. */
  datatype Fit = Fit(scale: real, offsetX: real, offsetY: real)

  function Min(a: real, b: real): real { if a <= b then a else b }
  function Max(a: real, b: real): real { if a >= b then a else b }

  /** `objectFit || 'contain'` compared with 'cover': only the exact value "cover" selects the larger ratio. */
  predicate IsCover(m: Media) {
    m.objectFit == "cover"
  }

  /** `getImageFit`. */
  function ImageFit(m: Media): (r: Option<Fit>)
    ensures r.None? <==> m.naturalWidth == 0 || m.naturalHeight == 0
                         || m.containerWidth == 0 || m.containerHeight == 0
    ensures r.Some? ==> r.value.scale > 0.0
  {
    if m.naturalWidth == 0 || m.naturalHeight == 0 then None
    else if m.containerWidth == 0 || m.containerHeight == 0 then None
    else
      var nw, nh := m.naturalWidth as real, m.naturalHeight as real;
      var cw, ch := m.containerWidth as real, m.containerHeight as real;
      var scale := if IsCover(m) then Max(cw / nw, ch / nh) else Min(cw / nw, ch / nh);
      Some(Fit(scale, (cw - nw * scale) / 2.0, (ch - nh * scale) / 2.0))
  }

  /** The scaled image is centred: the two margins are equal and add up with it to the container. */
  lemma FitCentres(m: Media)
    requires ImageFit(m).Some?
    ensures var f := ImageFit(m).value;
      2.0 * f.offsetX + m.naturalWidth as real * f.scale == m.containerWidth as real
      && 2.0 * f.offsetY + m.naturalHeight as real * f.scale == m.containerHeight as real
  {
  }

  lemma MulLeDiv(n: real, s: real, c: real)
    requires n > 0.0 && s <= c / n
    ensures n * s <= c
  {
    assert n * s <= n * (c / n);
  }

  lemma MulGeDiv(n: real, s: real, c: real)
    requires n > 0.0 && s >= c / n
    ensures n * s >= c
  {
    assert n * s >= n * (c / n);
  }

  /** Under 'contain' (any value but "cover") the image fits inside the container and fills one of its sides. */
  lemma ContainFitsInside(m: Media)
    requires ImageFit(m).Some? && !IsCover(m)
    ensures var s := ImageFit(m).value.scale;
      var dw, dh := m.naturalWidth as real * s, m.naturalHeight as real * s;
      dw <= m.containerWidth as real && dh <= m.containerHeight as real
      && (dw == m.containerWidth as real || dh == m.containerHeight as real)
  {
    var nw, nh := m.naturalWidth as real, m.naturalHeight as real;
    var cw, ch := m.containerWidth as real, m.containerHeight as real;
    var s := ImageFit(m).value.scale;
    assert s == Min(cw / nw, ch / nh);
    MulLeDiv(nw, s, cw);
    MulLeDiv(nh, s, ch);
    if s == cw / nw { assert nw * s == cw; } else { assert nh * s == ch; }
  }

  /** Under 'cover' the image covers the whole container and matches one of its sides. */
  lemma CoverFillsContainer(m: Media)
    requires ImageFit(m).Some? && IsCover(m)
    ensures var s := ImageFit(m).value.scale;
      var dw, dh := m.naturalWidth as real * s, m.naturalHeight as real * s;
      dw >= m.containerWidth as real && dh >= m.containerHeight as real
      && (dw == m.containerWidth as real || dh == m.containerHeight as real)
  {
    var nw, nh := m.naturalWidth as real, m.naturalHeight as real;
    var cw, ch := m.containerWidth as real, m.containerHeight as real;
    var s := ImageFit(m).value.scale;
    assert s == Max(cw / nw, ch / nh);
    MulGeDiv(nw, s, cw);
    MulGeDiv(nh, s, ch);
    if s == cw / nw { assert nw * s == cw; } else { assert nh * s == ch; }
  }

  /** An 800x600 container showing 1600x900 media under 'contain' gives scale 0.5 and offsets (0, 75). */
  lemma ContainExample()
    ensures ImageFit(Media(1600, 900, 800, 600, "contain")) == Some(Fit(0.5, 0.0, 75.0))
  {
    var m := Media(1600, 900, 800, 600, "contain");
    assert 800.0 / 1600.0 == 0.5;
    assert 600.0 / 900.0 > 0.5;
  }

  /** A box in natural-image pixels moved to canvas pixels: `(x*s+ox, y*s+oy, w*s, h*s)`. */
  function MapBox(b: Box, f: Fit): Box {
    Box(b.x * f.scale + f.offsetX, b.y * f.scale + f.offsetY, b.w * f.scale, b.h * f.scale)
  }

  /** A canvas point taken back to natural-image pixels. */
  function CanvasToNatural(cx: real, cy: real, f: Fit): (real, real)
    requires f.scale != 0.0
  {
    ((cx - f.offsetX) / f.scale, (cy - f.offsetY) / f.scale)
  }

  /** The box mapping is invertible: the mapped corner goes back to the original corner. */
  lemma MapBoxInverts(b: Box, f: Fit)
    requires f.scale > 0.0
    ensures var m := MapBox(b, f);
      CanvasToNatural(m.x, m.y, f) == (b.x, b.y)
      && m.w / f.scale == b.w && m.h / f.scale == b.h
  {
    var m := MapBox(b, f);
    assert (m.x - f.offsetX) / f.scale == b.x by {
      assert m.x - f.offsetX == b.x * f.scale;
    }
    assert (m.y - f.offsetY) / f.scale == b.y by {
      assert m.y - f.offsetY == b.y * f.scale;
    }
  }

  /** The boxes `drawDetections` strokes, in order: mapped boxes with positive width and height. */
  function DrawnBoxes(dets: seq<Prediction>, f: Fit): (r: seq<Box>)
    ensures |r| <= |dets|
    ensures forall i :: 0 <= i < |r| ==> r[i].w > 0.0 && r[i].h > 0.0
  {
    if dets == [] then []
    else
      var rest := DrawnBoxes(dets[..|dets| - 1], f);
      var b := MapBox(dets[|dets| - 1].bbox, f);
      if b.w <= 0.0 || b.h <= 0.0 then rest else rest + [b]
  }

  /** When every box has positive size, nothing is skipped: box `i` lands at `MapBox` of detection `i`. */
  lemma {:induction false} DrawnBoxesAll(dets: seq<Prediction>, f: Fit)
    requires f.scale > 0.0
    requires forall i :: 0 <= i < |dets| ==> dets[i].bbox.w > 0.0 && dets[i].bbox.h > 0.0
    ensures |DrawnBoxes(dets, f)| == |dets|
    ensures forall i :: 0 <= i < |dets| ==> DrawnBoxes(dets, f)[i] == MapBox(dets[i].bbox, f)
  {
    if dets != [] {
      var last := dets[|dets| - 1].bbox;
      assert last.w * f.scale > 0.0 && last.h * f.scale > 0.0;
      DrawnBoxesAll(dets[..|dets| - 1], f);
    }
  }

  /** One detection is drawn as its mapped box exactly when that box has positive width and height. */
  lemma DrawnBoxesSingle(d: Prediction, f: Fit)
    ensures var b := MapBox(d.bbox, f);
      DrawnBoxes([d], f) == if b.w > 0.0 && b.h > 0.0 then [b] else []
  {
    assert [d][..0] == [];
  }

  /** Each detection is drawn or skipped on its own, in order: drawing distributes over concatenation. */
  lemma {:induction false} DrawnBoxesOfAppend(a: seq<Prediction>, b: seq<Prediction>, f: Fit)
    ensures DrawnBoxes(a + b, f) == DrawnBoxes(a, f) + DrawnBoxes(b, f)
    decreases |b|
  {
    if b == [] {
      assert a + b == a;
    } else {
      assert (a + b)[..|a + b| - 1] == a + b[..|b| - 1];
      assert (a + b)[|a + b| - 1] == b[|b| - 1];
      DrawnBoxesOfAppend(a, b[..|b| - 1], f);
    }
  }

  /** A box of non-positive width or height is never drawn, wherever it stands. */
  lemma {:induction false} DrawnBoxesSkipsEmpty(dets: seq<Prediction>, f: Fit)
    requires f.scale > 0.0
    requires forall i :: 0 <= i < |dets| ==> dets[i].bbox.w <= 0.0 || dets[i].bbox.h <= 0.0
    ensures DrawnBoxes(dets, f) == []
  {
    if dets != [] {
      var last := dets[|dets| - 1].bbox;
      assert last.w * f.scale <= 0.0 || last.h * f.scale <= 0.0;
      DrawnBoxesSkipsEmpty(dets[..|dets| - 1], f);
    }
  }

  /**
   * The `forEach` of `drawDetections`, after its early returns: nothing when there are no
   * detections or no fit, otherwise one stroked rectangle per box of positive size.
   */
  method DrawDetections(dets: seq<Prediction>, m: Media) returns (drawn: seq<Box>)
    ensures dets == [] || ImageFit(m).None? ==> drawn == []
    ensures dets != [] && ImageFit(m).Some? ==> drawn == DrawnBoxes(dets, ImageFit(m).value)
  {
    drawn := [];
    if dets == [] {
      return;
    }
    var fit := ImageFit(m);
    if fit.None? {
      return;
    }
    var f := fit.value;
    var i := 0;
    while i < |dets|
      invariant 0 <= i <= |dets|
      invariant drawn == DrawnBoxes(dets[..i], f)
    {
      var b := MapBox(dets[i].bbox, f);
      assert dets[..i + 1][..i] == dets[..i];
      if b.w > 0.0 && b.h > 0.0 {
        drawn := drawn + [b];
      }
      i := i + 1;
    }
    assert dets[..i] == dets;
  }
}
