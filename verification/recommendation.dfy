/** The service's attendance recommendation: it weighs the verification and
    liveness confidences 0.6/0.4, allows check-in only when the face was
    detected, the faces verified, the capture is live and the weighted
    confidence is at least 0.5, and explains the first check that failed. The
    `verify-attendance` endpoint composes the three analyses into one
    response. */
module Recommendation {
  import opened Common
  import opened Liveness
  import opened FaceVerification

  /** The part of DeepFace's face analysis the recommendation reads. */
  datatype FaceAnalysis = FaceAnalysis(faceDetected: bool)

  datatype ConfidenceLevel = HighConfidence | MediumConfidence | LowConfidence | VeryLowConfidence | NoConfidence

  datatype RiskLevel = HighRisk | MediumRisk | LowRisk

  /** The `reason` text, as a tag with the values it interpolates. */
  datatype RecommendationReason =
    | NoFaceDetected
    | VerificationFailed(consensus: Consensus)
    | LivenessFailed(reasons: seq<LivenessReason>)
    | LowConfidenceScore(overall: real)
    | VerificationSucceeded(overall: real)

  datatype Recommendation = Recommendation(
    allowCheckin: bool,
    reason: RecommendationReason,
    confidenceLevel: ConfidenceLevel,
    riskLevel: RiskLevel,
    overallConfidence: real,
    livenessReasons: seq<LivenessReason>)

  /** The four conditions of an allowed check-in, listed in the order the
      reason reports them (see `Position`). */
  datatype Requirement = FaceFound | FacesVerified | CaptureLive | ConfidentEnough

  function Overall(v: VerificationResult, l: LivenessCheck): real
  {
    v.confidence * 0.6 + l.confidence * 0.4
  }

  predicate Meets(q: Requirement, v: VerificationResult, l: LivenessCheck, a: FaceAnalysis)
  {
    match q
    case FaceFound => a.faceDetected
    case FacesVerified => v.verified
    case CaptureLive => l.isLive
    case ConfidentEnough => Overall(v, l) >= 0.5
  }

  /** A requirement is either one of the four, so meeting all of them is the
      conjunction of the four conditions. */
  lemma MeetsEveryRequirement(v: VerificationResult, l: LivenessCheck, a: FaceAnalysis)
    ensures (forall q :: Meets(q, v, l, a)) <==>
      a.faceDetected && v.verified && l.isLive && Overall(v, l) >= 0.5
  {
    if a.faceDetected && v.verified && l.isLive && Overall(v, l) >= 0.5 {
      forall q ensures Meets(q, v, l, a) {
        match q {
          case FaceFound => {}
          case FacesVerified => {}
          case CaptureLive => {}
          case ConfidentEnough => {}
        }
      }
    }
    assert (forall q :: Meets(q, v, l, a)) ==>
      Meets(FaceFound, v, l, a) && Meets(FacesVerified, v, l, a)
      && Meets(CaptureLive, v, l, a) && Meets(ConfidentEnough, v, l, a);
  }

  /** The requirement a denial reason reports as failed. It is only consulted
      for denials; the success reason is mapped to the last requirement so the
      function is total. */
  function Blames(reason: RecommendationReason): Requirement
  {
    match reason
    case NoFaceDetected => FaceFound
    case VerificationFailed(_) => FacesVerified
    case LivenessFailed(_) => CaptureLive
    case LowConfidenceScore(_) => ConfidentEnough
    case VerificationSucceeded(_) => ConfidentEnough
  }

  function Position(q: Requirement): nat
  {
    match q
    case FaceFound => 0
    case FacesVerified => 1
    case CaptureLive => 2
    case ConfidentEnough => 3
  }

  function ConfidenceLevelOf(overall: real): (c: ConfidenceLevel)
    ensures c == HighConfidence <==> overall >= 0.8
    ensures c == MediumConfidence <==> 0.6 <= overall < 0.8
    ensures c == LowConfidence <==> 0.4 <= overall < 0.6
    ensures c == VeryLowConfidence <==> 0.2 <= overall < 0.4
    ensures c == NoConfidence <==> overall < 0.2
  {
    if overall >= 0.8 then HighConfidence
    else if overall >= 0.6 then MediumConfidence
    else if overall >= 0.4 then LowConfidence
    else if overall >= 0.2 then VeryLowConfidence
    else NoConfidence
  }

  function RiskLevelOf(v: VerificationResult, l: LivenessCheck, overall: real): (r: RiskLevel)
    ensures !l.isLive || v.consensus == NoMatch ==> r == HighRisk
    ensures r == LowRisk <==> l.isLive && v.consensus != NoMatch && overall >= 0.5
    ensures r == MediumRisk <==> l.isLive && v.consensus != NoMatch && overall < 0.5
  {
    if !l.isLive then HighRisk
    else if v.consensus == NoMatch then HighRisk
    else if overall < 0.5 then MediumRisk
    else LowRisk
  }

  /** The recommendation from the three analyses. */
  function Recommend(v: VerificationResult, l: LivenessCheck, a: FaceAnalysis): (r: Recommendation)
    ensures r.allowCheckin <==> forall q :: Meets(q, v, l, a)
    ensures r.reason.VerificationSucceeded? <==> r.allowCheckin
    ensures !r.allowCheckin ==>
      !Meets(Blames(r.reason), v, l, a)
      && forall q :: Position(q) < Position(Blames(r.reason)) ==> Meets(q, v, l, a)
    ensures r.reason.VerificationFailed? ==> r.reason.consensus == v.consensus
    ensures r.reason.LivenessFailed? ==> r.reason.reasons == l.reasons
    ensures r.reason.LowConfidenceScore? || r.reason.VerificationSucceeded? ==> r.reason.overall == Overall(v, l)
    ensures r.allowCheckin ==> v.verified && l.isLive
    ensures r.overallConfidence == Overall(v, l)
    ensures 0.0 <= v.confidence <= 1.0 && 0.0 <= l.confidence <= 1.0 ==> 0.0 <= r.overallConfidence <= 1.0
    ensures r.confidenceLevel == ConfidenceLevelOf(r.overallConfidence)
    ensures r.riskLevel == RiskLevelOf(v, l, r.overallConfidence)
    ensures r.livenessReasons == l.reasons
  {
    var overall := Overall(v, l);
    var allow := v.verified && l.isLive && overall >= 0.5 && a.faceDetected;
    MeetsEveryRequirement(v, l, a);
    var reason :=
      if !a.faceDetected then NoFaceDetected
      else if !v.verified then VerificationFailed(v.consensus)
      else if !l.isLive then LivenessFailed(l.reasons)
      else if overall < 0.5 then LowConfidenceScore(overall)
      else VerificationSucceeded(overall);
    Recommendation(allow, reason, ConfidenceLevelOf(overall), RiskLevelOf(v, l, overall), overall, l.reasons)
  }

  /** The body of a successful `verify-attendance` response. */
  datatype Response = Response(
    success: bool,
    verification: VerificationResult,
    liveness: LivenessCheck,
    analysis: FaceAnalysis,
    recommendation: Recommendation)

  /** The `verify-attendance` endpoint once both images are decoded: face
      analysis, liveness and verification results feed the recommendation,
      which allows check-in exactly when a face was found, at least two of the
      four models verified, the metrics were measured and judged live, and the
      weighted confidence reaches 0.5. */
  function VerifyAttendance(analysis: FaceAnalysis, measurement: Measurement, replies: seq<ModelReply>): (r: Response)
    requires |replies| == |Models|
    ensures r.success
    ensures r.verification == Verify(replies)
    ensures r.liveness == Detect(measurement)
    ensures r.analysis == analysis
    ensures r.recommendation == Recommend(r.verification, r.liveness, analysis)
    ensures r.recommendation.allowCheckin <==>
      && analysis.faceDetected
      && VerifiedCount(r.verification.modelResults) >= 2
      && measurement.Measured?
      && Assess(measurement.metrics).isLive
      && Overall(r.verification, r.liveness) >= 0.5
  {
    var liveness := Detect(measurement);
    var verification := Verify(replies);
    MeetsEveryRequirement(verification, liveness, analysis);
    Response(true, verification, liveness, analysis, Recommend(verification, liveness, analysis))
  }

  /** End to end, an allowed check-in means: a face was found, at least two
      models verified, the metrics were measured and the colour check passed,
      the weighted confidence is at least 0.5, and the risk is low. */
  lemma AllowedAttendanceIsBacked(analysis: FaceAnalysis, measurement: Measurement, replies: seq<ModelReply>)
    requires |replies| == |Models|
    ensures var r := VerifyAttendance(analysis, measurement, replies);
      r.recommendation.allowCheckin ==>
        && analysis.faceDetected
        && VerifiedCount(r.verification.modelResults) >= 2
        && measurement.Measured?
        && !Fails(measurement.metrics, LimitedColorVariation)
        && r.recommendation.overallConfidence >= 0.5
        && r.recommendation.riskLevel == LowRisk
        && r.recommendation.confidenceLevel in {HighConfidence, MediumConfidence, LowConfidence}
  {
    var r := VerifyAttendance(analysis, measurement, replies);
    ConsensusMeaning(replies);
    if r.recommendation.allowCheckin {
      assert Meets(FaceFound, r.verification, r.liveness, analysis);
      assert Meets(ConfidentEnough, r.verification, r.liveness, analysis);
    }
  }

  /** A service reply that approves: one face, four models at half their
      threshold, and an image that passes every quality check. */
  function ApprovingResponse(): Response
  {
    VerifyAttendance(FaceAnalysis(true), Measured(ClearImage), [CloseMatch, CloseMatch, CloseMatch, CloseMatch])
  }

  lemma ApprovingResponseApproves()
    ensures ApprovingResponse().recommendation.allowCheckin
  {
    ClearImageIsLive();
    CloseMatchesVerify();
    var l := Detect(Measured(ClearImage));
    var v := Verify([CloseMatch, CloseMatch, CloseMatch, CloseMatch]);
    MeetsEveryRequirement(v, l, FaceAnalysis(true));
  }
}
