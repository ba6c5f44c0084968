/** The service's multi-model face verification: the reference and current
    photos are compared by four DeepFace models; each model that answers
    contributes its verdict and a clamped confidence, each model that raises
    contributes a failed verdict with confidence 0. The overall verdict needs
    at least half of the models, and a consensus label grades the vote. The
    DeepFace calls are inputs. */
module FaceVerification {
  import opened Common

  datatype ModelName = VggFace | Facenet | OpenFace | DeepId

  /** The models, in the order the service queries them. */
  const Models: seq<ModelName> := [VggFace, Facenet, OpenFace, DeepId]

  /** What `DeepFace.verify` did for one model: answered with a verdict,
      a distance and the model's threshold, or raised. */
  datatype ModelReply = Replied(verified: bool, distance: real, threshold: real) | Raised(detail: string)

  /** One entry of `model_results`. */
  datatype ModelResult = ModelResult(
    model: ModelName,
    verified: bool,
    distance: real,
    threshold: real,
    confidence: real,
    error: Option<string>)

  datatype Consensus = StrongMatch | LikelyMatch | Uncertain | NoMatch

  datatype VerificationResult = VerificationResult(
    verified: bool,
    confidence: real,
    modelResults: seq<ModelResult>,
    consensus: Consensus)

  /** Python's message for a float division by zero, which the per-model
      `except` catches like any other error. */
  const DivisionByZero := "float division by zero"

  /** The entry for a model whose call raised. */
  function ErrorEntry(model: ModelName, detail: string): ModelResult
  {
    ModelResult(model, false, 1.0, 0.5, 0.0, Some(detail))
  }

  /** The result entry recorded for one model. */
  function Score(model: ModelName, reply: ModelReply): (r: ModelResult)
    ensures r.model == model
    ensures 0.0 <= r.confidence <= 1.0
    ensures r.error.None? <==> reply.Replied? && reply.threshold != 0.0
    ensures r.error.None? ==>
      r.verified == reply.verified && r.distance == reply.distance && r.threshold == reply.threshold
    ensures r.error.None? ==> r.confidence == Clamp01(1.0 - reply.distance / reply.threshold)
    ensures r.error.None? && 0.0 <= reply.distance <= reply.threshold ==>
      r.confidence == 1.0 - reply.distance / reply.threshold
    ensures r.error.None? && 0.0 < reply.threshold < reply.distance ==> r.confidence == 0.0
    ensures r.error.Some? ==> !r.verified && r.confidence == 0.0
    ensures reply.Raised? ==> r == ErrorEntry(model, reply.detail)
  {
    match reply
    case Replied(verified, distance, threshold) =>
      if threshold == 0.0 then ErrorEntry(model, DivisionByZero)
      else ModelResult(model, verified, distance, threshold, Clamp01(1.0 - distance / threshold), None)
    case Raised(detail) => ErrorEntry(model, detail)
  }

  /** The per-model loop: one entry per model, in model order. */
  function ScoreEach(models: seq<ModelName>, replies: seq<ModelReply>): (rs: seq<ModelResult>)
    requires |replies| == |models|
    ensures |rs| == |models|
    ensures forall i :: 0 <= i < |rs| ==> rs[i] == Score(models[i], replies[i])
  {
    if models == [] then []
    else [Score(models[0], replies[0])] + ScoreEach(models[1..], replies[1..])
  }

  /** `verified_count` after the loop. */
  function VerifiedCount(rs: seq<ModelResult>): (n: nat)
    ensures n <= |rs|
  {
    if rs == [] then 0
    else VerifiedCount(rs[..|rs| - 1]) + (if rs[|rs| - 1].verified then 1 else 0)
  }

  /** `total_confidence` after the loop. */
  function TotalConfidence(rs: seq<ModelResult>): (t: real)
    ensures (forall i :: 0 <= i < |rs| ==> 0.0 <= rs[i].confidence <= 1.0) ==> 0.0 <= t <= |rs| as real
  {
    if rs == [] then 0.0
    else TotalConfidence(rs[..|rs| - 1]) + rs[|rs| - 1].confidence
  }

  /** The consensus label for `count` verifying models out of four. */
  function ConsensusOf(count: nat): (c: Consensus)
    requires count <= |Models|
    ensures c == StrongMatch <==> count == 4
    ensures c == LikelyMatch <==> count == 3
    ensures c == Uncertain <==> count == 2
    ensures c == NoMatch <==> count <= 1
  {
    var n := |Models| as real;
    if count == |Models| then StrongMatch
    else if count as real >= n * 0.7 then LikelyMatch
    else if count as real >= n * 0.3 then Uncertain
    else NoMatch
  }

  /** The whole verification over the four models. */
  function Verify(replies: seq<ModelReply>): (v: VerificationResult)
    requires |replies| == |Models|
    ensures |v.modelResults| == |Models|
    ensures forall i :: 0 <= i < |Models| ==> v.modelResults[i] == Score(Models[i], replies[i])
    ensures v.confidence == TotalConfidence(v.modelResults) / (|Models| as real)
    ensures 0.0 <= v.confidence <= 1.0
    ensures v.verified <==> VerifiedCount(v.modelResults) >= 2
    ensures v.consensus == ConsensusOf(VerifiedCount(v.modelResults))
  {
    var results := ScoreEach(Models, replies);
    var count := VerifiedCount(results);
    var n := |Models| as real;
    var average := TotalConfidence(results) / n;
    var verified := count as real / n >= 0.5;
    VerificationResult(verified, average, results, ConsensusOf(count))
  }

  /** The count reaches its extremes exactly on unanimous votes. */
  lemma {:induction false} CountExtremes(rs: seq<ModelResult>)
    ensures VerifiedCount(rs) == |rs| <==> forall i :: 0 <= i < |rs| ==> rs[i].verified
    ensures VerifiedCount(rs) == 0 <==> forall i :: 0 <= i < |rs| ==> !rs[i].verified
  {
    if rs != [] {
      var init := rs[..|rs| - 1];
      CountExtremes(init);
      assert forall i :: 0 <= i < |init| ==> init[i] == rs[i];
    }
  }

  /** Models that all report the same confidence total it once per model. */
  lemma {:induction false} TotalOfEqualConfidences(rs: seq<ModelResult>, c: real)
    requires forall i :: 0 <= i < |rs| ==> rs[i].confidence == c
    ensures TotalConfidence(rs) == |rs| as real * c
  {
    if rs != [] {
      var init := rs[..|rs| - 1];
      assert forall i :: 0 <= i < |init| ==> init[i] == rs[i];
      TotalOfEqualConfidences(init, c);
      assert TotalConfidence(rs) == TotalConfidence(init) + c;
      assert (|init| as real) * c + c == (|rs| as real) * c;
    }
  }

  /** `strong_match` exactly when every model verifies; `no_match` exactly
      when at most one does, and then the overall verdict is negative. */
  lemma ConsensusMeaning(replies: seq<ModelReply>)
    requires |replies| == |Models|
    ensures var v := Verify(replies);
      v.consensus == StrongMatch <==> forall i :: 0 <= i < |Models| ==> v.modelResults[i].verified
    ensures Verify(replies).consensus == NoMatch ==> !Verify(replies).verified
    ensures Verify(replies).verified ==> Verify(replies).consensus in {StrongMatch, LikelyMatch, Uncertain}
  {
    CountExtremes(Verify(replies).modelResults);
  }

  /** When every model raises, the verification fails closed: not verified,
      `no_match`, confidence 0, and every entry carries its error. */
  lemma AllRaisedFailsClosed(replies: seq<ModelReply>)
    requires |replies| == |Models|
    requires forall i :: 0 <= i < |replies| ==> replies[i].Raised?
    ensures var v := Verify(replies);
      !v.verified && v.consensus == NoMatch && v.confidence == 0.0
      && forall i :: 0 <= i < |Models| ==> v.modelResults[i].error == Some(replies[i].detail)
  {
    var v := Verify(replies);
    CountExtremes(v.modelResults);
    TotalOfEqualConfidences(v.modelResults, 0.0);
  }

  /** A model answer at half the model's threshold. */
  const CloseMatch := Replied(true, 0.2, 0.4)

  /** Four close matches verify, with mean confidence 0.5. */
  lemma CloseMatchesVerify()
    ensures Verify([CloseMatch, CloseMatch, CloseMatch, CloseMatch]).verified
    ensures Verify([CloseMatch, CloseMatch, CloseMatch, CloseMatch]).confidence == 0.5
  {
    var replies := [CloseMatch, CloseMatch, CloseMatch, CloseMatch];
    var v := Verify(replies);
    forall i | 0 <= i < |Models|
      ensures v.modelResults[i].verified && v.modelResults[i].confidence == 0.5
    {
      assert replies[i] == CloseMatch;
      assert CloseMatch.distance / CloseMatch.threshold == 0.5;
    }
    CountExtremes(v.modelResults);
    TotalOfEqualConfidences(v.modelResults, 0.5);
  }
}
