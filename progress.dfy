/**
 * The progress controller's arithmetic: clamp, the reading of one detection
 * tick (the callback inside startDetection) and the progress it leads to.
 * Progress is an integer count of eighths of a percent, so the steps 0.125
 * and 0.5 and the bound 100 are exact.
 */
module Progress {
  import opened Wrappers

  /** 100 %, in eighths of a percent. */
  const Max: int := 800
  /** 0.125 %: the step while a face is seen that does not smile. */
  const FaceStep: int := 1
  /** 0.5 %: the step while no face (or no expression map) is seen. */
  const NoFaceStep: int := 4
  /** A happy score at or above this counts as a smile. */
  const SmileThreshold: real := 0.5

  /** clamp(min, value, max) = Math.max(min, Math.min(max, value)). */
  function Clamp(lo: int, v: int, hi: int): (r: int)
    ensures lo <= hi ==> lo <= r <= hi
    ensures lo <= v <= hi ==> r == v
    ensures lo <= hi < v ==> r == hi
    ensures v < lo || hi < lo ==> r == lo
  {
    var upper := if hi < v then hi else v;  // Math.min(max, value)
    if lo < upper then upper else lo
  }

  /** One face found by the detector: its expression map may be missing. */
  datatype Detection = Detection(expressions: Option<map<string, real>>)

  /** What a tick makes of the detector's answer: no usable face, or a face
      with its happy score. */
  datatype Reading = NoFace | Face(happy: real)

  /** `expressions.happy || 0`: a missing happy key counts as 0. */
  function HappyScore(expressions: map<string, real>): real
  {
    if "happy" in expressions then expressions["happy"] else 0.0
  }

  /** The tick reads only the first detection, and only when it carries expressions. */
  function Read(detections: seq<Detection>): (r: Reading)
    ensures r.NoFace? <==> |detections| == 0 || detections[0].expressions.None?
    ensures r.Face? && "happy" !in detections[0].expressions.value ==> r.happy == 0.0
    ensures r.Face? && "happy" in detections[0].expressions.value
            ==> r.happy == detections[0].expressions.value["happy"]
  {
    if |detections| == 0 || detections[0].expressions.None? then NoFace
    else Face(HappyScore(detections[0].expressions.value))
  }

  /** Faces after the first never influence a tick. */
  lemma OnlyFirstDetectionCounts(detections: seq<Detection>, more: seq<Detection>)
    requires |detections| > 0
    ensures Read(detections + more) == Read(detections[..1])
  {
    assert (detections + more)[0] == detections[..1][0];
  }

  predicate Smiling(r: Reading)
  {
    r.Face? && r.happy >= SmileThreshold
  }

  /** How far a tick tries to push the trolley: nothing while smiling. */
  function Step(r: Reading): (s: int)
    ensures s == 0 <==> Smiling(r)
    ensures s >= 0
  {
    match r
    case NoFace => NoFaceStep
    case Face(h) => if h < SmileThreshold then FaceStep else 0
  }

  /** The progress after one tick: setTrolleyProgress(progress + step) unless
      the viewer smiles, in which case progress is held. */
  function NextProgress(p: int, r: Reading): (q: int)
    requires 0 <= p <= Max
    ensures p <= q <= Max
    ensures Smiling(r) ==> q == p
    ensures !Smiling(r) ==> q == p + Step(r) || q == Max
    ensures q - p <= Step(r)
  {
    if Smiling(r) then p else Clamp(0, p + Step(r), Max)
  }

  /** Progress after a run of ticks, the last reading applied last. */
  function Run(p: int, rs: seq<Reading>): (q: int)
    requires 0 <= p <= Max
    ensures 0 <= q <= Max
    decreases |rs|
  {
    if rs == [] then p else NextProgress(Run(p, rs[..|rs| - 1]), rs[|rs| - 1])
  }

  /** Progress never decreases across ticks. */
  lemma {:induction false} RunMonotone(p: int, rs: seq<Reading>)
    requires 0 <= p <= Max
    ensures p <= Run(p, rs)
    decreases |rs|
  {
    if rs != [] {
      RunMonotone(p, rs[..|rs| - 1]);
    }
  }

  /** Progress never decreases between any two moments of a run. */
  lemma {:induction false} RunPrefixMonotone(p: int, rs: seq<Reading>, i: nat)
    requires 0 <= p <= Max && i <= |rs|
    ensures Run(p, rs[..i]) <= Run(p, rs)
    decreases |rs|
  {
    if i < |rs| {
      assert rs[..|rs| - 1][..i] == rs[..i];
      RunPrefixMonotone(p, rs[..|rs| - 1], i);
    } else {
      assert rs[..i] == rs;
    }
  }

  /** A viewer who keeps smiling holds the trolley where it is. */
  lemma {:induction false} RunWhileSmiling(p: int, rs: seq<Reading>)
    requires 0 <= p <= Max
    requires forall i :: 0 <= i < |rs| ==> Smiling(rs[i])
    ensures Run(p, rs) == p
    decreases |rs|
  {
    if rs != [] {
      RunWhileSmiling(p, rs[..|rs| - 1]);
    }
  }

  /** n ticks without a face add 0.5 % each until progress saturates at 100 %. */
  lemma {:induction false} RunWithoutFace(p: int, n: nat)
    requires 0 <= p <= Max
    ensures Run(p, seq(n, _ => NoFace)) == Clamp(0, p + n * NoFaceStep, Max)
    decreases n
  {
    if n > 0 {
      var rs := seq(n, _ => NoFace);
      assert rs[..n - 1] == seq(n - 1, _ => NoFace);
      RunWithoutFace(p, n - 1);
    }
  }

  /** n ticks of a face that does not smile add 0.125 % each until progress saturates. */
  lemma {:induction false} RunWhileFrowning(p: int, rs: seq<Reading>)
    requires 0 <= p <= Max
    requires forall i :: 0 <= i < |rs| ==> rs[i].Face? && rs[i].happy < SmileThreshold
    ensures Run(p, rs) == Clamp(0, p + |rs| * FaceStep, Max)
    decreases |rs|
  {
    if rs != [] {
      RunWhileFrowning(p, rs[..|rs| - 1]);
    }
  }

  /** From a standstill, 170 ticks without a face bring the trolley to 85 %,
      and 200 such ticks pin it at 100 %. */
  lemma NoFaceScenario()
    ensures Run(0, seq(170, _ => NoFace)) == 85 * 8
    ensures Run(0, seq(200, _ => NoFace)) == Max
  {
    RunWithoutFace(0, 170);
    RunWithoutFace(0, 200);
  }
}
