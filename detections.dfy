/**
 * Model output as the panel sees it, and the two decisions it takes on it in js/control.js:
 * which predictions count as drone-like, and which one of those is reported. The selection of
 * the best prediction is shared with object-detection/detect.js, which uses the same `reduce`.
 */
module Detections {
  import opened Util

  /** A `bbox` array `[x, y, w, h]` in pixels of the natural image. */
  datatype Box = Box(x: real, y: real, w: real, h: real)

  /** One element of what `model.detect` resolves to; `score` is `None` when the field is absent. */
  datatype Prediction = Prediction(cls: string, score: Option<real>, bbox: Box)

  /** `p.score || 0`. */
  function Score(p: Prediction): real {
    p.score.GetOr(0.0)
  }

  /** `DRONE_LABELS`. */
  const DroneLabels: seq<string> := ["airplane", "bird", "kite"]

  /** `DETECT_SCORE_THRESHOLD`. */
  const ScoreThreshold: real := 0.45

  /** The predicate of the `filter` in `runDetection`. */
  predicate IsDroneDetection(p: Prediction) {
    p.cls in DroneLabels && Score(p) >= ScoreThreshold
  }

  /** `predictions.filter(IsDroneDetection)`. */
  function DroneDetections(ps: seq<Prediction>): (r: seq<Prediction>)
    ensures |r| <= |ps|
    ensures forall i :: 0 <= i < |r| ==> IsDroneDetection(r[i])
  {
    if ps == [] then []
    else
      var rest := DroneDetections(ps[..|ps| - 1]);
      var last := ps[|ps| - 1];
      if IsDroneDetection(last) then rest + [last] else rest
  }

  /** The kept predictions are exactly the drone-labelled ones scoring at least the threshold. */
  lemma {:induction false} DroneDetectionsExactly(ps: seq<Prediction>)
    ensures forall p :: p in DroneDetections(ps) <==> p in ps && IsDroneDetection(p)
  {
    if ps != [] {
      DroneDetectionsExactly(ps[..|ps| - 1]);
      assert forall p :: p in ps <==> p in ps[..|ps| - 1] || p == ps[|ps| - 1];
    }
  }

  /** Filtering keeps the order of the predictions: the kept ones of a longer list extend those of its prefix. */
  lemma {:induction false} DroneDetectionsOfAppend(ps: seq<Prediction>, qs: seq<Prediction>)
    ensures DroneDetections(ps + qs) == DroneDetections(ps) + DroneDetections(qs)
    decreases |qs|
  {
    if qs == [] {
      assert ps + qs == ps;
    } else {
      var q := qs[|qs| - 1];
      assert (ps + qs)[..|ps + qs| - 1] == ps + qs[..|qs| - 1];
      DroneDetectionsOfAppend(ps, qs[..|qs| - 1]);
    }
  }

  /** The reducer `(a, b) => (a.score || 0) > (b.score || 0) ? a : b`. */
  function Pick(a: Prediction, b: Prediction): Prediction {
    if Score(a) > Score(b) then a else b
  }

  /** `ps.reduce(Pick)`: a left fold that starts from the first element. */
  function Best(ps: seq<Prediction>): Prediction
    requires ps != []
  {
    if |ps| == 1 then ps[0] else Pick(Best(ps[..|ps| - 1]), ps[|ps| - 1])
  }

  /** Where the reduce ends up: the LAST position holding the highest score. */
  function BestIndex(ps: seq<Prediction>): (k: nat)
    requires ps != []
    ensures k < |ps|
    ensures forall j :: 0 <= j < |ps| ==> Score(ps[j]) <= Score(ps[k])
    ensures forall j :: k < j < |ps| ==> Score(ps[j]) < Score(ps[k])
  {
    if |ps| == 1 then 0
    else
      var k := BestIndex(ps[..|ps| - 1]);
      if Score(ps[k]) > Score(ps[|ps| - 1]) then k else |ps| - 1
  }

  /** The reduce returns the prediction at `BestIndex`: a maximal score, ties going to the later element. */
  lemma {:induction false} BestIsAtBestIndex(ps: seq<Prediction>)
    requires ps != []
    ensures Best(ps) == ps[BestIndex(ps)]
  {
    if |ps| > 1 {
      BestIsAtBestIndex(ps[..|ps| - 1]);
    }
  }

  /** The best prediction is one of the list, and no element scores higher. */
  lemma BestIsMaximal(ps: seq<Prediction>)
    requires ps != []
    ensures Best(ps) in ps
    ensures forall p :: p in ps ==> Score(p) <= Score(Best(ps))
  {
    BestIsAtBestIndex(ps);
  }

  /** Of two equally scored predictions, the later one wins. */
  lemma BestTieGoesToLater(a: Prediction, b: Prediction)
    requires Score(a) == Score(b)
    ensures Best([a, b]) == b
  {
    assert [a, b][..1] == [a];
  }
}
