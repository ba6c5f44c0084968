/** The decision part of the service's liveness check: four image-quality
    checks, each of which records a reason and lowers a confidence that starts
    at 0.8; the result is live unless the colour check fails or the clamped
    confidence falls below 0.5. The quality metrics themselves are computed by
    OpenCV and are inputs here. */
module Liveness {
  import opened Common

  /** The five numbers OpenCV computes from the grey-scale image. */
  datatype QualityMetrics = QualityMetrics(
    sharpness: real,
    brightnessMean: real,
    brightnessStd: real,
    edgeDensity: real,
    colorVariance: real)

  /** Either the metrics, or the exception their computation raised. */
  datatype Measurement = Measured(metrics: QualityMetrics) | MeasurementFailed(detail: string)

  /** The reasons the check reports, as tags instead of message strings. */
  datatype LivenessReason =
    | Blurry                  // "Image appears blurry"
    | PoorLighting            // "Poor lighting conditions"
    | LowDetail               // "Low detail/texture in image"
    | LimitedColorVariation   // "Limited color variation (possible screen/photo)"
    | GoodQuality             // "Good image quality detected"
    | CheckFailed(detail: string)

  datatype LivenessCheck = LivenessCheck(
    isLive: bool,
    confidence: real,
    reasons: seq<LivenessReason>,
    metrics: Option<QualityMetrics>)

  /** The four quality checks, in the order the service runs them. */
  const QualityChecks: seq<LivenessReason> := [Blurry, PoorLighting, LowDetail, LimitedColorVariation]

  /** Position of a quality check in `QualityChecks`. */
  function Rank(c: LivenessReason): nat
  {
    match c
    case Blurry => 0
    case PoorLighting => 1
    case LowDetail => 2
    case LimitedColorVariation => 3
    case _ => 4
  }

  /** Whether the metrics fail the quality check `c`. */
  predicate Fails(m: QualityMetrics, c: LivenessReason)
  {
    match c
    case Blurry => m.sharpness < 100.0
    case PoorLighting => m.brightnessMean < 50.0 || m.brightnessMean > 200.0
    case LowDetail => m.edgeDensity < 0.1
    case LimitedColorVariation => m.colorVariance < 1000.0
    case _ => false
  }

  /** How much a failed check lowers the confidence. */
  function Penalty(c: LivenessReason): real
  {
    match c
    case Blurry => 0.2
    case PoorLighting => 0.1
    case LowDetail => 0.2
    case LimitedColorVariation => 0.3
    case _ => 0.0
  }

  /** The checks of `checks` that `m` fails, keeping their order. */
  function FailedAmong(m: QualityMetrics, checks: seq<LivenessReason>): (r: seq<LivenessReason>)
    ensures |r| <= |checks|
  {
    if checks == [] then []
    else (if Fails(m, checks[0]) then [checks[0]] else []) + FailedAmong(m, checks[1..])
  }

  /** The quality checks `m` fails, in the service's order. */
  function Failed(m: QualityMetrics): seq<LivenessReason>
  {
    FailedAmong(m, QualityChecks)
  }

  function TotalPenalty(rs: seq<LivenessReason>): real
  {
    if rs == [] then 0.0 else Penalty(rs[0]) + TotalPenalty(rs[1..])
  }

  /** The running state of the decision: reasons so far, the live flag, the
      unclamped confidence. */
  datatype Tally = Tally(reasons: seq<LivenessReason>, isLive: bool, confidence: real)
  {
    function Flag(reason: LivenessReason, penalty: real): Tally
    {
      Tally(reasons + [reason], isLive, confidence - penalty)
    }
  }

  /** `Failed` spelled out over the four checks (`PenaltyOfFailed` does the
      same for the penalties). */
  lemma FailedUnfolded(m: QualityMetrics)
    ensures Failed(m) ==
      (if Fails(m, Blurry) then [Blurry] else [])
      + (if Fails(m, PoorLighting) then [PoorLighting] else [])
      + (if Fails(m, LowDetail) then [LowDetail] else [])
      + (if Fails(m, LimitedColorVariation) then [LimitedColorVariation] else [])
  {
    var q3: seq<LivenessReason> := [LimitedColorVariation];
    var q2: seq<LivenessReason> := [LowDetail, LimitedColorVariation];
    var q1: seq<LivenessReason> := [PoorLighting, LowDetail, LimitedColorVariation];
    assert q3[1..] == [];
    assert q2[1..] == q3;
    assert q1[1..] == q2;
    assert QualityChecks[1..] == q1;
    assert FailedAmong(m, q3) ==
      (if Fails(m, LimitedColorVariation) then [LimitedColorVariation] else []) + FailedAmong(m, []);
    assert FailedAmong(m, q2) ==
      (if Fails(m, LowDetail) then [LowDetail] else []) + FailedAmong(m, q3);
    assert FailedAmong(m, q1) ==
      (if Fails(m, PoorLighting) then [PoorLighting] else []) + FailedAmong(m, q2);
    assert FailedAmong(m, QualityChecks) ==
      (if Fails(m, Blurry) then [Blurry] else []) + FailedAmong(m, q1);
  }

  lemma TotalPenaltyAppend(a: seq<LivenessReason>, b: seq<LivenessReason>)
    ensures TotalPenalty(a + b) == TotalPenalty(a) + TotalPenalty(b)
  {
    if a != [] {
      assert (a + b)[0] == a[0];
      assert (a + b)[1..] == a[1..] + b;
      TotalPenaltyAppend(a[1..], b);
      assert TotalPenalty(a + b) == Penalty(a[0]) + TotalPenalty(a[1..] + b);
    } else {
      assert a + b == b;
    }
  }

  /** The four checks run one after the other, before clamping. */
  function RunChecks(m: QualityMetrics): (t: Tally)
    ensures |t.reasons| <= 4
    ensures 0.0 <= t.confidence <= 0.8
    ensures t.reasons == [] <==> t.confidence == 0.8
    ensures t.isLive <==> m.colorVariance >= 1000.0
    ensures m.colorVariance < 1000.0 ==> |t.reasons| >= 1 && t.confidence <= 0.5
  {
    var t0 := Tally([], true, 0.8);
    var t1 := if m.sharpness < 100.0 then t0.Flag(Blurry, 0.2) else t0;
    var t2 := if m.brightnessMean < 50.0 || m.brightnessMean > 200.0 then t1.Flag(PoorLighting, 0.1) else t1;
    var t3 := if m.edgeDensity < 0.1 then t2.Flag(LowDetail, 0.2) else t2;
    if m.colorVariance < 1000.0 then t3.Flag(LimitedColorVariation, 0.3).(isLive := false) else t3
  }

  /** Running the checks in sequence records exactly the failed checks, in
      order, subtracts exactly their penalties, and clears the live flag
      exactly when the colour check fails. */
  lemma RunChecksMeaning(m: QualityMetrics)
    ensures RunChecks(m).reasons == Failed(m)
    ensures RunChecks(m).confidence == 0.8 - TotalPenalty(Failed(m))
    ensures RunChecks(m).isLive <==> !Fails(m, LimitedColorVariation)
  {
    FailedUnfolded(m);
    PenaltyOfFailed(m);
  }

  /** The liveness decision on measured metrics (the code after the metrics
      are computed). */
  function Assess(m: QualityMetrics): (r: LivenessCheck)
    ensures r.reasons == (if Failed(m) == [] then [GoodQuality] else Failed(m))
    ensures r.confidence == Clamp01(0.8 - TotalPenalty(Failed(m)))
    ensures 0.0 <= r.confidence <= 1.0
    ensures r.isLive <==> !Fails(m, LimitedColorVariation) && r.confidence >= 0.5
    ensures Failed(m) == [] ==> r.confidence == 0.8 && r.isLive
    ensures r.metrics == Some(m)
  {
    var t := RunChecks(m);
    var confidence := Clamp01(t.confidence);
    var isLive := if confidence < 0.5 then false else t.isLive;
    var reasons := if t.reasons == [] then [GoodQuality] else t.reasons;
    RunChecksMeaning(m);
    LivenessCheck(isLive, confidence, reasons, Some(m))
  }

  lemma PenaltyOfFailed(m: QualityMetrics)
    ensures TotalPenalty(Failed(m)) ==
      (if Fails(m, Blurry) then 0.2 else 0.0)
      + (if Fails(m, PoorLighting) then 0.1 else 0.0)
      + (if Fails(m, LowDetail) then 0.2 else 0.0)
      + (if Fails(m, LimitedColorVariation) then 0.3 else 0.0)
  {
    FailedUnfolded(m);
    var a := if Fails(m, Blurry) then [Blurry] else [];
    var b := if Fails(m, PoorLighting) then [PoorLighting] else [];
    var c := if Fails(m, LowDetail) then [LowDetail] else [];
    var d := if Fails(m, LimitedColorVariation) then [LimitedColorVariation] else [];
    TotalPenaltyAppend(a + b + c, d);
    TotalPenaltyAppend(a + b, c);
    TotalPenaltyAppend(a, b);
  }

  /** The whole liveness check: the decision on measured metrics, or the
      fail-closed answer when computing them raised. */
  function Detect(meas: Measurement): (r: LivenessCheck)
    ensures 0.0 <= r.confidence <= 1.0
    ensures |r.reasons| >= 1
    ensures r.isLive ==> meas.Measured? && !Fails(meas.metrics, LimitedColorVariation) && r.confidence >= 0.5
    ensures meas.Measured? ==> r == Assess(meas.metrics)
    ensures meas.MeasurementFailed? ==> r == LivenessCheck(false, 0.0, [CheckFailed(meas.detail)], None)
  {
    match meas
    case Measured(m) => Assess(m)
    case MeasurementFailed(e) => LivenessCheck(false, 0.0, [CheckFailed(e)], None)
  }

  /** Ranks strictly increase along `s`: the checks appear in service order,
      each at most once. */
  ghost predicate InCheckOrder(s: seq<LivenessReason>)
  {
    forall i, j :: 0 <= i < j < |s| ==> Rank(s[i]) < Rank(s[j])
  }

  /** Filtering keeps exactly the failing checks and preserves check order. */
  lemma {:induction false} FailedAmongKeepsOrder(m: QualityMetrics, checks: seq<LivenessReason>)
    ensures forall c :: c in FailedAmong(m, checks) <==> c in checks && Fails(m, c)
    ensures InCheckOrder(checks) ==> InCheckOrder(FailedAmong(m, checks))
  {
    if checks != [] {
      var tail := checks[1..];
      FailedAmongKeepsOrder(m, tail);
      var head: seq<LivenessReason> := if Fails(m, checks[0]) then [checks[0]] else [];
      var r := FailedAmong(m, checks);
      assert r == head + FailedAmong(m, tail);
      forall c
        ensures c in r <==> c in checks && Fails(m, c)
      {
        assert c in checks <==> c == checks[0] || c in tail;
      }
      if InCheckOrder(checks) {
        var rest := FailedAmong(m, tail);
        forall k | 0 <= k < |rest|
          ensures Rank(checks[0]) < Rank(rest[k])
        {
          assert rest[k] in tail;
          var j :| 0 <= j < |tail| && tail[j] == rest[k];
          assert tail[j] == checks[j + 1];
        }
        forall i, j | 0 <= i < j < |r|
          ensures Rank(r[i]) < Rank(r[j])
        {
          if |head| == 1 {
            if i == 0 {
              assert r[j] == rest[j - 1];
            } else {
              assert r[i] == rest[i - 1] && r[j] == rest[j - 1];
            }
          } else {
            assert r == rest;
          }
        }
      }
    }
  }

  /** Each failed quality check contributes exactly one reason, in the fixed
      order blur, lighting, detail, colour; nothing else is reported. */
  lemma FailedChecksInServiceOrder(m: QualityMetrics)
    ensures forall c :: c in Failed(m) <==> c in QualityChecks && Fails(m, c)
    ensures InCheckOrder(Failed(m))
  {
    FailedAmongKeepsOrder(m, QualityChecks);
  }

  /** The live verdict in terms of the checks alone: live exactly when the
      colour check passes and blur and low detail do not both fail (any other
      combination keeps the confidence at 0.5 or above). */
  lemma LiveExactly(m: QualityMetrics)
    ensures Assess(m).isLive <==>
      !Fails(m, LimitedColorVariation) && !(Fails(m, Blurry) && Fails(m, LowDetail))
  {
    PenaltyOfFailed(m);
  }

  /** A negative verdict on measured metrics always names at least one failed
      check, never the good-quality reason. */
  lemma NotLiveNamesFailedCheck(m: QualityMetrics)
    ensures !Assess(m).isLive ==> Failed(m) != [] && Assess(m).reasons == Failed(m)
  {
    PenaltyOfFailed(m);
    FailedUnfolded(m);
  }

  /** An image that passes every quality check. */
  const ClearImage := QualityMetrics(150.0, 120.0, 40.0, 0.2, 2000.0)

  /** The clear image passes every check: live, with confidence 0.8. */
  lemma ClearImageIsLive()
    ensures Detect(Measured(ClearImage)).isLive && Detect(Measured(ClearImage)).confidence == 0.8
  {
    FailedUnfolded(ClearImage);
  }
}
