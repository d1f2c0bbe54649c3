/** Deciding how far a signal may be trusted, from its own claims and the recorded history. */
module TrustAssessment {
  import opened Prelude
  import opened Calibration
  import opened RealArithmetic

  datatype Signal = Signal(
    decisionId: string, sourceId: string, modelId: string,
    confidence: real, evidenceQuality: real, sourceReliability: real, modelReliability: real, disagreement: real,
    safetyPass: bool, evidenceFresh: bool, independentValidation: bool, authorityValid: bool)

  datatype Disposition = Trusted | Review | Hold

  datatype ReasonCode =
    | AuthorityInvalid | SafetyNotVerified | StaleEvidence | IndependentValidationRequired | EvidenceQualityTooLow
    | AgentDisagreementHigh | SourceReliabilityTooLow | ModelReliabilityTooLow
    | HistoryInsufficient | CalibrationErrorHigh | SourceReliabilityReview | ModelReliabilityReview
    | AgentDisagreementReview
    | ThresholdMet | ThresholdNotMet | TrustScoreTooLow

  datatype Assessment = Assessment(
    disposition: Disposition, reasons: set<ReasonCode>, calibrated: real, trustScore: real,
    effectiveSource: real, effectiveModel: real, report: Report)

  predicate Unit(x: real) {
    0.0 <= x <= 1.0
  }

  predicate ValidSignal(s: Signal) {
    && !Blank(s.decisionId) && !Blank(s.sourceId) && !Blank(s.modelId)
    && Unit(s.confidence) && Unit(s.evidenceQuality) && Unit(s.sourceReliability) && Unit(s.modelReliability)
    && Unit(s.disagreement)
  }

  predicate ValidHistory(samples: seq<Sample>) {
    forall i :: 0 <= i < |samples| ==> Sound(samples[i])
  }

  function Filter(samples: seq<Sample>, keep: Sample -> bool): (r: seq<Sample>)
    ensures forall s :: s in r ==> s in samples && keep(s)
  {
    if samples == [] then []
    else Filter(samples[..|samples| - 1], keep) + if keep(samples[|samples| - 1]) then [samples[|samples| - 1]] else []
  }

  /** The samples of the signal's source or model. */
  function Relevant(signal: Signal, samples: seq<Sample>): seq<Sample> {
    Filter(samples, (x: Sample) => x.sourceId == signal.sourceId || x.modelId == signal.modelId)
  }

  function SourceHistory(signal: Signal, samples: seq<Sample>): seq<Sample> {
    Filter(samples, (x: Sample) => x.sourceId == signal.sourceId)
  }

  function ModelHistory(signal: Signal, samples: seq<Sample>): seq<Sample> {
    Filter(samples, (x: Sample) => x.modelId == signal.modelId)
  }

  /** Of the recorded samples, the filter keeps each as often as it occurs when it is asked for, and no other. */
  lemma {:induction false} FilterKeeps(samples: seq<Sample>, keep: Sample -> bool, x: Sample)
    ensures multiset(Filter(samples, keep))[x] == if keep(x) then multiset(samples)[x] else 0
  {
    if samples != [] {
      var n := |samples| - 1;
      FilterKeeps(samples[..n], keep, x);
      assert samples == samples[..n] + [samples[n]];
    }
  }

  /** Where the samples asked for stand. */
  ghost function Places(samples: seq<Sample>, keep: Sample -> bool): set<nat> {
    set i: nat | i < |samples| && keep(samples[i])
  }

  /** Where those of them stand that were correct. */
  ghost function Correct(samples: seq<Sample>, keep: Sample -> bool): set<nat> {
    set i: nat | i < |samples| && keep(samples[i]) && samples[i].correct
  }

  lemma PlacesGrow(samples: seq<Sample>, keep: Sample -> bool, x: Sample)
    ensures |Places(samples + [x], keep)| == |Places(samples, keep)| + if keep(x) then 1 else 0
  {
    var n := |samples|;
    assert forall i: nat :: i < n ==> (samples + [x])[i] == samples[i];
    assert Places(samples + [x], keep) == Places(samples, keep) + if keep(x) then {n} else {};
  }

  lemma CorrectGrows(samples: seq<Sample>, keep: Sample -> bool, x: Sample)
    ensures |Correct(samples + [x], keep)| == |Correct(samples, keep)| + if keep(x) && x.correct then 1 else 0
  {
    var n := |samples|;
    assert forall i: nat :: i < n ==> (samples + [x])[i] == samples[i];
    assert Correct(samples + [x], keep) == Correct(samples, keep) + if keep(x) && x.correct then {n} else {};
  }

  lemma FilterGrows(samples: seq<Sample>, keep: Sample -> bool, x: Sample)
    ensures Filter(samples + [x], keep) == if keep(x) then Filter(samples, keep) + [x] else Filter(samples, keep)
  {
    assert (samples + [x])[..|samples|] == samples;
  }

  lemma {:induction false} FilterCounts(samples: seq<Sample>, keep: Sample -> bool)
    ensures |Filter(samples, keep)| == |Places(samples, keep)|
    ensures OutcomeSum(Pairs(Filter(samples, keep))) == |Correct(samples, keep)| as real
  {
    if samples != [] {
      var n := |samples| - 1;
      var before, last := samples[..n], samples[n];
      FilterCounts(before, keep);
      assert samples == before + [last];
      PlacesGrow(before, keep, last);
      CorrectGrows(before, keep, last);
      FilterGrows(before, keep, last);
      PairsGrow(Filter(before, keep), last);
    }
  }

  lemma PairsGrow(samples: seq<Sample>, x: Sample)
    ensures OutcomeSum(Pairs(samples + [x])) == OutcomeSum(Pairs(samples)) + if x.correct then 1.0 else 0.0
  {
    assert (samples + [x])[..|samples|] == samples;
  }

  function Accuracy(samples: seq<Sample>): real {
    if samples == [] then 0.0 else OutcomeSum(Pairs(samples)) / |samples| as real
  }

  /** A claimed reliability counts no further than three or more recorded samples bear it out. */
  function Effective(claimed: real, samples: seq<Sample>): real {
    if |samples| >= 3 then Min(claimed, Accuracy(samples)) else claimed
  }

  function Clamp(x: real): real {
    Max(0.0, Min(1.0, x))
  }

  function Weight(count: nat): real {
    Min(0.80, count as real / (count as real + 5.0))
  }

  function Calibrated(confidence: real, r: Report): real {
    if r.sampleCount == 0 then Clamp(0.5 * confidence)
    else
      var alpha := Weight(r.sampleCount);
      Clamp((1.0 - alpha) * confidence + alpha * r.empiricalAccuracy - 0.25 * r.overconfidenceGap)
  }

  function CalibrationQuality(r: Report): real {
    Max(0.0, 1.0 - Min(1.0, r.expectedCalibrationError / 0.25))
  }

  function RawTrust(s: Signal, calibrated: real, source: real, model: real, quality: real): real {
    0.35 * calibrated + 0.20 * s.evidenceQuality + 0.15 * source + 0.15 * model + 0.10 * (1.0 - s.disagreement)
    + 0.05 * quality
  }

  function When(c: bool, r: ReasonCode): set<ReasonCode> {
    if c then {r} else {}
  }

  function HardReasons(s: Signal, source: real, model: real): set<ReasonCode> {
    When(!s.authorityValid, AuthorityInvalid) + When(!s.safetyPass, SafetyNotVerified)
    + When(!s.evidenceFresh, StaleEvidence) + When(!s.independentValidation, IndependentValidationRequired)
    + When(s.evidenceQuality < 0.50, EvidenceQualityTooLow) + When(s.disagreement > 0.65, AgentDisagreementHigh)
    + When(source < 0.40, SourceReliabilityTooLow) + When(model < 0.40, ModelReliabilityTooLow)
  }

  function AdvisoryReasons(s: Signal, r: Report, source: real, model: real): set<ReasonCode> {
    When(!r.status.ReportReady?, HistoryInsufficient)
    + When(r.brier > 0.20 || r.expectedCalibrationError > 0.15, CalibrationErrorHigh)
    + When(source < 0.60, SourceReliabilityReview) + When(model < 0.60, ModelReliabilityReview)
    + When(s.disagreement > 0.35, AgentDisagreementReview)
  }

  predicate MeetsThreshold(s: Signal, r: Report, calibrated: real, trust: real, source: real, model: real) {
    && r.status.ReportReady? && r.brier <= 0.20 && r.expectedCalibrationError <= 0.15
    && calibrated >= 0.72 && trust >= 0.78 && s.evidenceQuality >= 0.75
    && source >= 0.70 && model >= 0.70 && s.disagreement <= 0.25
  }

  /** The disposition, and the reasons with the one it adds; a decision without complaint says what it was based on. */
  function Decide(hard: set<ReasonCode>, reasons: set<ReasonCode>, meets: bool, trust: real)
    : (Disposition, set<ReasonCode>)
  {
    if hard != {} then (Hold, reasons)
    else if meets then (Trusted, reasons + {ThresholdMet})
    else if trust >= 0.55 then (Review, if reasons == {} then {ThresholdNotMet} else reasons)
    else (Hold, if reasons == {} then {TrustScoreTooLow} else reasons)
  }

  function Assess(s: Signal, samples: seq<Sample>, round4: real -> real): Assessment {
    var report := Rounded(round4, ReportOf(Pairs(Relevant(s, samples)), 5));
    var source := Effective(s.sourceReliability, SourceHistory(s, samples));
    var model := Effective(s.modelReliability, ModelHistory(s, samples));
    var calibrated := Calibrated(s.confidence, report);
    var trust := Clamp(RawTrust(s, calibrated, source, model, CalibrationQuality(report)));
    var hard := HardReasons(s, source, model);
    var reasons := hard + AdvisoryReasons(s, report, source, model);
    var (disposition, all) := Decide(hard, reasons, MeetsThreshold(s, report, calibrated, trust, source, model), trust);
    Assessment(disposition, all, calibrated, trust, source, model, report)
  }

  // ---- The decision, by its figures -------------------------------------------------------

  /** Nothing forbids trusting the signal: authority, safety, fresh evidence and independent validation are given,
      evidence and both reliabilities are not too low, and disagreement is not too high. */
  predicate Admissible(s: Signal, a: Assessment) {
    && s.authorityValid && s.safetyPass && s.evidenceFresh && s.independentValidation
    && 0.50 <= s.evidenceQuality && s.disagreement <= 0.65 && 0.40 <= a.effectiveSource && 0.40 <= a.effectiveModel
  }

  /** Every mark for trust is reached. */
  predicate Convincing(s: Signal, a: Assessment) {
    && a.report.status == ReportReady && a.report.brier <= 0.20 && a.report.expectedCalibrationError <= 0.15
    && 0.72 <= a.calibrated && 0.78 <= a.trustScore && 0.75 <= s.evidenceQuality
    && 0.70 <= a.effectiveSource && 0.70 <= a.effectiveModel && s.disagreement <= 0.25
  }

  /** What each reason is about. */
  predicate Applies(s: Signal, a: Assessment, reason: ReasonCode) {
    match reason
    case AuthorityInvalid => !s.authorityValid
    case SafetyNotVerified => !s.safetyPass
    case StaleEvidence => !s.evidenceFresh
    case IndependentValidationRequired => !s.independentValidation
    case EvidenceQualityTooLow => s.evidenceQuality < 0.50
    case AgentDisagreementHigh => 0.65 < s.disagreement
    case SourceReliabilityTooLow => a.effectiveSource < 0.40
    case ModelReliabilityTooLow => a.effectiveModel < 0.40
    case HistoryInsufficient => a.report.status != ReportReady
    case CalibrationErrorHigh => 0.20 < a.report.brier || 0.15 < a.report.expectedCalibrationError
    case SourceReliabilityReview => a.effectiveSource < 0.60
    case ModelReliabilityReview => a.effectiveModel < 0.60
    case AgentDisagreementReview => 0.35 < s.disagreement
    case ThresholdMet => a.disposition == Trusted
    case ThresholdNotMet => a.disposition == Review && a.reasons == {ThresholdNotMet}
    case TrustScoreTooLow => a.disposition == Hold && a.reasons == {TrustScoreTooLow}
  }

  /** An assessment is TRUSTED exactly when the signal is admissible and convincing, REVIEW exactly when it is
      admissible and not convincing but scores at least 0.55, and HOLD otherwise; it carries exactly the reasons that
      apply. */
  lemma DispositionExactlyWhen(s: Signal, samples: seq<Sample>, round4: real -> real)
    ensures
      var a := Assess(s, samples, round4);
      && (a.disposition == Trusted <==> Admissible(s, a) && Convincing(s, a))
      && (a.disposition == Review <==> Admissible(s, a) && !Convincing(s, a) && 0.55 <= a.trustScore)
  {
    var a := Assess(s, samples, round4);
    HardByFields(s, a);
  }

  lemma HardByFields(s: Signal, a: Assessment)
    ensures HardReasons(s, a.effectiveSource, a.effectiveModel) == {} <==> Admissible(s, a)
  {
    var hard := HardReasons(s, a.effectiveSource, a.effectiveModel);
    assert !s.authorityValid ==> AuthorityInvalid in hard;
    assert !s.safetyPass ==> SafetyNotVerified in hard;
    assert !s.evidenceFresh ==> StaleEvidence in hard;
    assert !s.independentValidation ==> IndependentValidationRequired in hard;
    assert s.evidenceQuality < 0.50 ==> EvidenceQualityTooLow in hard;
    assert 0.65 < s.disagreement ==> AgentDisagreementHigh in hard;
    assert a.effectiveSource < 0.40 ==> SourceReliabilityTooLow in hard;
    assert a.effectiveModel < 0.40 ==> ModelReliabilityTooLow in hard;
  }

  /** The reasons given are exactly those that apply. */
  lemma ReasonsExactlyWhen(s: Signal, samples: seq<Sample>, round4: real -> real, reason: ReasonCode)
    ensures var a := Assess(s, samples, round4); reason in a.reasons <==> Applies(s, a, reason)
  {
    var a := Assess(s, samples, round4);
    if IsComplaint(reason) {
      ComplaintsByFields(s, a, reason);
    }
    ClosingIsNoComplaint(s, a);
    var hard := HardReasons(s, a.effectiveSource, a.effectiveModel);
    DecideReasons(hard, hard + AdvisoryReasons(s, a.report, a.effectiveSource, a.effectiveModel),
                  MeetsThreshold(s, a.report, a.calibrated, a.trustScore, a.effectiveSource, a.effectiveModel),
                  a.trustScore, reason);
  }

  lemma ClosingIsNoComplaint(s: Signal, a: Assessment)
    ensures forall reason :: !IsComplaint(reason) ==>
      reason !in HardReasons(s, a.effectiveSource, a.effectiveModel) +
        AdvisoryReasons(s, a.report, a.effectiveSource, a.effectiveModel)
  {
    forall reason | !IsComplaint(reason)
      ensures reason !in HardReasons(s, a.effectiveSource, a.effectiveModel) +
        AdvisoryReasons(s, a.report, a.effectiveSource, a.effectiveModel)
    {
      ComplaintsByFields(s, a, reason);
    }
  }

  lemma DecideReasons(hard: set<ReasonCode>, reasons: set<ReasonCode>, meets: bool, trust: real, reason: ReasonCode)
    requires ThresholdMet !in reasons && ThresholdNotMet !in reasons && TrustScoreTooLow !in reasons
    ensures
      var (disposition, all) := Decide(hard, reasons, meets, trust);
      && (IsComplaint(reason) ==> (reason in all <==> reason in reasons))
      && (ThresholdMet in all <==> disposition == Trusted)
      && (ThresholdNotMet in all <==> disposition == Review && all == {ThresholdNotMet})
      && (TrustScoreTooLow in all <==> disposition == Hold && all == {TrustScoreTooLow})
  {
  }

  predicate IsComplaint(reason: ReasonCode) {
    reason != ThresholdMet && reason != ThresholdNotMet && reason != TrustScoreTooLow
  }

  lemma ComplaintsByFields(s: Signal, a: Assessment, reason: ReasonCode)
    ensures
      reason in HardReasons(s, a.effectiveSource, a.effectiveModel) +
        AdvisoryReasons(s, a.report, a.effectiveSource, a.effectiveModel)
      <==> IsComplaint(reason) && Applies(s, a, reason)
  {
    HardReasonsAre(s, a, reason);
    AdvisoryReasonsAre(s, a, reason);
  }

  predicate IsHard(reason: ReasonCode) {
    match reason
    case AuthorityInvalid | SafetyNotVerified | StaleEvidence | IndependentValidationRequired => true
    case EvidenceQualityTooLow | AgentDisagreementHigh | SourceReliabilityTooLow | ModelReliabilityTooLow => true
    case _ => false
  }

  lemma InWhen(c: bool, r: ReasonCode, reason: ReasonCode)
    ensures reason in When(c, r) <==> c && reason == r
  {
  }

  lemma HardReasonsAre(s: Signal, a: Assessment, reason: ReasonCode)
    ensures reason in HardReasons(s, a.effectiveSource, a.effectiveModel) <==> IsHard(reason) && Applies(s, a, reason)
  {
    InWhen(!s.authorityValid, AuthorityInvalid, reason);
    InWhen(!s.safetyPass, SafetyNotVerified, reason);
    InWhen(!s.evidenceFresh, StaleEvidence, reason);
    InWhen(!s.independentValidation, IndependentValidationRequired, reason);
    InWhen(s.evidenceQuality < 0.50, EvidenceQualityTooLow, reason);
    InWhen(s.disagreement > 0.65, AgentDisagreementHigh, reason);
    InWhen(a.effectiveSource < 0.40, SourceReliabilityTooLow, reason);
    InWhen(a.effectiveModel < 0.40, ModelReliabilityTooLow, reason);
  }

  lemma AdvisoryReasonsAre(s: Signal, a: Assessment, reason: ReasonCode)
    ensures reason in AdvisoryReasons(s, a.report, a.effectiveSource, a.effectiveModel) <==>
      IsComplaint(reason) && !IsHard(reason) && Applies(s, a, reason)
  {
    InWhen(!a.report.status.ReportReady?, HistoryInsufficient, reason);
    InWhen(a.report.brier > 0.20 || a.report.expectedCalibrationError > 0.15, CalibrationErrorHigh, reason);
    InWhen(a.effectiveSource < 0.60, SourceReliabilityReview, reason);
    InWhen(a.effectiveModel < 0.60, ModelReliabilityReview, reason);
    InWhen(s.disagreement > 0.35, AgentDisagreementReview, reason);
  }

  /** How much the recorded accuracy counts beside the confidence: the more samples the more, up to four fifths. */
  function ShareOf(count: nat): real {
    if count <= 20 then count as real / (count as real + 5.0) else 0.80
  }

  /** How confidence is calibrated by a report: one on nothing halves it, any other blends it with the accuracy and
      takes off a quarter of the gap. */
  predicate CalibratedBy(c: real, confidence: real, r: Report, share: real) {
    var blend := confidence + share * (r.empiricalAccuracy - confidence) - r.overconfidenceGap / 4.0;
    if r.sampleCount == 0 then 2.0 * c == confidence
    else if blend < 0.0 then c == 0.0
    else if blend > 1.0 then c == 1.0
    else c == blend
  }

  /** The score weighs calibrated confidence, evidence, the two reliabilities, agreement and calibration by 7, 4, 3, 3,
      2 and 1; calibration is worth nothing from an error of a quarter on. */
  predicate Scores(s: Signal, a: Assessment) {
    20.0 * a.trustScore ==
      7.0 * a.calibrated + 4.0 * s.evidenceQuality + 3.0 * a.effectiveSource + 3.0 * a.effectiveModel +
      2.0 * (1.0 - s.disagreement) +
      (if a.report.expectedCalibrationError < 0.25 then 1.0 - 4.0 * a.report.expectedCalibrationError else 0.0)
  }

  /** The figures an assessment decides on. */
  lemma FiguresOfAssessment(s: Signal, samples: seq<Sample>, round4: real -> real)
    requires ValidSignal(s) && ValidHistory(samples) && Rounds(round4)
    ensures
      var a := Assess(s, samples, round4);
      CalibratedBy(a.calibrated, s.confidence, a.report, ShareOf(a.report.sampleCount)) && Scores(s, a)
  {
    var a := Assess(s, samples, round4);
    ScoresInRange(s, samples, round4);
    RelevantReportIsCoherent(s, samples, round4);
    CalibratedByReport(s.confidence, a.report);
    RawTrustScores(s, a);
  }

  lemma RawTrustScores(s: Signal, a: Assessment)
    requires a.trustScore ==
      RawTrust(s, a.calibrated, a.effectiveSource, a.effectiveModel, CalibrationQuality(a.report))
    requires 0.0 <= a.report.expectedCalibrationError
    ensures Scores(s, a)
  {
    var e := a.report.expectedCalibrationError;
    assert e / 0.25 == 4.0 * e;
  }

  lemma CalibratedByReport(confidence: real, r: Report)
    requires Unit(confidence)
    ensures CalibratedBy(Calibrated(confidence, r), confidence, r, ShareOf(r.sampleCount))
  {
    ShareOfHistory(r.sampleCount);
    Blends(confidence, r, Weight(r.sampleCount));
  }

  lemma Blends(confidence: real, r: Report, share: real)
    requires Unit(confidence)
    ensures r.sampleCount > 0 ==>
      CalibratedBy(Clamp((1.0 - share) * confidence + share * r.empiricalAccuracy - 0.25 * r.overconfidenceGap),
                   confidence, r, share)
    ensures r.sampleCount == 0 ==> CalibratedBy(Clamp(0.5 * confidence), confidence, r, share)
  {
    BlendIs(confidence, r.empiricalAccuracy, r.overconfidenceGap, share);
  }

  lemma ShareOfHistory(count: nat)
    ensures Weight(count) == ShareOf(count)
  {
    var n := count as real;
    var m := n + 5.0;
    assert m * (n / m) == n;
    if n / m >= 0.80 {
      LargeShare(n, m, n / m);
      assert count == 20 ==> n / m == 0.80;
    } else {
      SmallShare(n, m, n / m);
    }
  }

  lemma LargeShare(n: real, m: real, share: real)
    requires m >= 0.0 && m == n + 5.0 && m * share == n && share >= 0.80
    ensures n >= 20.0
  {
    NonNegativeProduct(m, share - 0.80);
    Excess(m, share);
  }

  lemma SmallShare(n: real, m: real, share: real)
    requires m >= 0.0 && m == n + 5.0 && m * share == n && share < 0.80
    ensures n <= 20.0
  {
    NonNegativeProduct(m, 0.80 - share);
    Excess(m, share);
  }

  lemma Excess(m: real, share: real)
    ensures m * (share - 0.80) == m * share - 0.80 * m
  {
  }

  lemma BlendIs(confidence: real, accuracy: real, gap: real, share: real)
    ensures (1.0 - share) * confidence + share * accuracy - 0.25 * gap ==
      confidence + share * (accuracy - confidence) - gap / 4.0
  {
  }

  lemma RelevantReportIsCoherent(s: Signal, samples: seq<Sample>, round4: real -> real)
    requires ValidHistory(samples)
    ensures Coherent(ReportOf(Pairs(Relevant(s, samples)), 5))
    ensures Rounds(round4) ==> NearlyCoherent(Assess(s, samples, round4).report)
  {
    var relevant := Relevant(s, samples);
    forall i | 0 <= i < |relevant| ensures Sound(relevant[i]) {
      assert relevant[i] in relevant;
    }
    PairsAreUnit(relevant);
    ReportIsNearlyCoherent(Pairs(relevant), 5, round4);
  }

  /** TRUSTED carries exactly one reason, and no other disposition carries it: nothing advisory can be
      outstanding when trust is granted. Every assessment gives a reason. */
  lemma TrustedIsClean(s: Signal, samples: seq<Sample>, round4: real -> real)
    ensures var a := Assess(s, samples, round4);
      && (a.disposition == Trusted <==> a.reasons == {ThresholdMet})
      && a.reasons != {}
  {
    var a := Assess(s, samples, round4);
    ThresholdIsNoComplaint(s, a.report, a.effectiveSource, a.effectiveModel);
    if a.disposition == Trusted {
      ThresholdLeavesNoAdvice(s, a.report, a.calibrated, a.trustScore, a.effectiveSource, a.effectiveModel);
    }
  }

  lemma ThresholdIsNoComplaint(s: Signal, r: Report, source: real, model: real)
    ensures ThresholdMet !in HardReasons(s, source, model)
    ensures ThresholdMet !in AdvisoryReasons(s, r, source, model)
  {
  }

  lemma ThresholdLeavesNoAdvice(s: Signal, r: Report, calibrated: real, trust: real, source: real, model: real)
    requires MeetsThreshold(s, r, calibrated, trust, source, model)
    ensures AdvisoryReasons(s, r, source, model) == {}
  {
  }

  /** Trust is never granted on a history that was overconfident: in the recorded samples of the same source or
      model, at least six, the average confidence exceeds the accuracy by at most 0.15 as reported, and so by half
      of the last place more at the most. The assessment lowers the calibrated confidence by a quarter of the gap,
      but no threshold bounds the gap itself. */
  lemma TrustedIsNotOverconfident(s: Signal, samples: seq<Sample>, round4: real -> real)
    requires ValidHistory(samples) && Rounds(round4) && Assess(s, samples, round4).disposition == Trusted
    ensures Assess(s, samples, round4).report.overconfidenceGap <= 0.15
    ensures var relevant := Pairs(Relevant(s, samples));
      && |relevant| >= 6
      && ConfidenceSum(relevant) / |relevant| as real - OutcomeSum(relevant) / |relevant| as real <= 0.15005
  {
    RelevantReportIsCoherent(s, samples, round4);
  }

  lemma AccuracyIsUnit(samples: seq<Sample>)
    requires ValidHistory(samples)
    ensures Unit(Accuracy(samples))
  {
    if samples != [] {
      PairsAreUnit(samples);
      SumsAreBounded(Pairs(samples));
      MeanInUnit(OutcomeSum(Pairs(samples)), |samples| as real);
    }
  }

  lemma EffectiveBounds(claimed: real, samples: seq<Sample>)
    requires Unit(claimed) && ValidHistory(samples)
    ensures Unit(Effective(claimed, samples)) && Effective(claimed, samples) <= claimed
    ensures |samples| >= 3 ==> Effective(claimed, samples) <= Accuracy(samples)
  {
    AccuracyIsUnit(samples);
  }

  /** A reliability counts as claimed unless three samples or more make the accuracy lower, and then counts as that. */
  predicate CountsAs(effective: real, claimed: real, samples: nat, correct: nat) {
    if samples >= 3 && correct as real < claimed * samples as real then effective * samples as real == correct as real
    else effective == claimed
  }

  lemma EffectiveCounts(claimed: real, samples: seq<Sample>, keep: Sample -> bool)
    ensures
      CountsAs(Effective(claimed, Filter(samples, keep)), claimed, |Places(samples, keep)|, |Correct(samples, keep)|)
  {
    FilterCounts(samples, keep);
    EffectiveCountsAs(claimed, Filter(samples, keep), |Correct(samples, keep)|);
  }

  lemma EffectiveCountsAs(claimed: real, samples: seq<Sample>, correct: nat)
    requires OutcomeSum(Pairs(samples)) == correct as real
    ensures CountsAs(Effective(claimed, samples), claimed, |samples|, correct)
  {
    if |samples| >= 3 {
      AccuracyBelow(correct as real, |samples| as real, claimed);
    }
  }

  lemma AccuracyBelow(sum: real, n: real, claimed: real)
    requires n > 0.0
    ensures sum / n * n == sum && (sum / n < claimed <==> sum < claimed * n)
  {
    var x := sum / n;
    assert x * n == sum;
    LessByFactor(x, claimed, n);
  }

  lemma LessByFactor(x: real, y: real, n: real)
    requires n > 0.0
    ensures x < y <==> x * n < y * n
  {
    assert (y - x) * n == y * n - x * n;
  }

  /** Which of the recorded samples tell: for each reliability those of the signal's own source, or its own model, and
      for the report those of either, each as often as it is recorded. */
  lemma HistoryOfAssessment(s: Signal, samples: seq<Sample>, round4: real -> real)
    ensures
      var a := Assess(s, samples, round4);
      var told := Relevant(s, samples);
      && CountsAs(a.effectiveSource, s.sourceReliability,
                  |set i: nat | i < |samples| && samples[i].sourceId == s.sourceId|,
                  |set i: nat | i < |samples| && samples[i].sourceId == s.sourceId && samples[i].correct|)
      && CountsAs(a.effectiveModel, s.modelReliability,
                  |set i: nat | i < |samples| && samples[i].modelId == s.modelId|,
                  |set i: nat | i < |samples| && samples[i].modelId == s.modelId && samples[i].correct|)
      && a.report == Rounded(round4, ReportOf(Pairs(told), 5))
      && forall x :: multiset(told)[x] ==
           if x.sourceId == s.sourceId || x.modelId == s.modelId then multiset(samples)[x] else 0
  {
    SourceCounts(s, samples);
    ModelCounts(s, samples);
    forall x ensures multiset(Relevant(s, samples))[x] ==
      if x.sourceId == s.sourceId || x.modelId == s.modelId then multiset(samples)[x] else 0
    {
      FilterKeeps(samples, (x: Sample) => x.sourceId == s.sourceId || x.modelId == s.modelId, x);
    }
  }

  lemma SourceCounts(s: Signal, samples: seq<Sample>)
    ensures
      CountsAs(Effective(s.sourceReliability, SourceHistory(s, samples)), s.sourceReliability,
               |set i: nat | i < |samples| && samples[i].sourceId == s.sourceId|,
               |set i: nat | i < |samples| && samples[i].sourceId == s.sourceId && samples[i].correct|)
  {
    ByPlaces(s.sourceReliability, samples, (x: Sample) => x.sourceId == s.sourceId,
             set i: nat | i < |samples| && samples[i].sourceId == s.sourceId,
             set i: nat | i < |samples| && samples[i].sourceId == s.sourceId && samples[i].correct);
  }

  lemma ModelCounts(s: Signal, samples: seq<Sample>)
    ensures
      CountsAs(Effective(s.modelReliability, ModelHistory(s, samples)), s.modelReliability,
               |set i: nat | i < |samples| && samples[i].modelId == s.modelId|,
               |set i: nat | i < |samples| && samples[i].modelId == s.modelId && samples[i].correct|)
  {
    ByPlaces(s.modelReliability, samples, (x: Sample) => x.modelId == s.modelId,
             set i: nat | i < |samples| && samples[i].modelId == s.modelId,
             set i: nat | i < |samples| && samples[i].modelId == s.modelId && samples[i].correct);
  }

  lemma ByPlaces(claimed: real, samples: seq<Sample>, keep: Sample -> bool, told: set<nat>, right: set<nat>)
    requires forall i: nat :: i in told <==> i < |samples| && keep(samples[i])
    requires forall i: nat :: i in right <==> i < |samples| && keep(samples[i]) && samples[i].correct
    ensures CountsAs(Effective(claimed, Filter(samples, keep)), claimed, |told|, |right|)
  {
    assert told == Places(samples, keep) && right == Correct(samples, keep);
    EffectiveCounts(claimed, samples, keep);
  }

  lemma FilterKeepsValid(samples: seq<Sample>, keep: Sample -> bool)
    requires ValidHistory(samples)
    ensures ValidHistory(Filter(samples, keep))
  {
    forall i | 0 <= i < |Filter(samples, keep)| ensures Sound(Filter(samples, keep)[i]) {
      assert Filter(samples, keep)[i] in Filter(samples, keep);
    }
  }

  /** The scores are proper ones without help: the weights keep the trust score between nought and one, so
      clamping it changes nothing, and a claimed reliability is never raised. */
  lemma ScoresInRange(s: Signal, samples: seq<Sample>, round4: real -> real)
    requires ValidSignal(s) && ValidHistory(samples) && Rounds(round4)
    ensures var a := Assess(s, samples, round4);
      && Unit(a.calibrated)
      && a.trustScore == RawTrust(s, a.calibrated, a.effectiveSource, a.effectiveModel, CalibrationQuality(a.report))
      && a.effectiveSource <= s.sourceReliability && a.effectiveModel <= s.modelReliability
  {
    var a := Assess(s, samples, round4);
    RelevantReportIsCoherent(s, samples, round4);
    FilterKeepsValid(samples, (x: Sample) => x.sourceId == s.sourceId);
    FilterKeepsValid(samples, (x: Sample) => x.modelId == s.modelId);
    EffectiveBounds(s.sourceReliability, SourceHistory(s, samples));
    EffectiveBounds(s.modelReliability, ModelHistory(s, samples));
    assert Unit(a.effectiveSource) && Unit(a.effectiveModel);
    assert Unit(a.calibrated);
    QualityIsUnit(a.report);
    RawTrustIsUnit(s, a.calibrated, a.effectiveSource, a.effectiveModel, CalibrationQuality(a.report));
  }

  lemma QualityIsUnit(r: Report)
    requires r.expectedCalibrationError >= 0.0
    ensures Unit(CalibrationQuality(r))
  {
    assert r.expectedCalibrationError / 0.25 >= 0.0;
  }

  lemma RawTrustIsUnit(s: Signal, calibrated: real, source: real, model: real, quality: real)
    requires ValidSignal(s) && Unit(calibrated) && Unit(source) && Unit(model) && Unit(quality)
    ensures Unit(RawTrust(s, calibrated, source, model, quality))
  {
  }
}
