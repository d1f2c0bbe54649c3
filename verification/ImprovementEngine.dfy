/** The P0 improvement engine: evidence-gated stages over a task whose moves are kept on a signed ledger. */
module ImprovementEngine {
  import opened Prelude
  import RunLedger

  datatype State =
    | Discovered | Qualified | Planned | Sandbox | Tested | Scored | Remediated | Certified
    | PreparePr | Hold | Reject | Escalate

  datatype Reason =
    | Created
    | QualifyRequiresDiscovered | IdentityOrObjectiveRequired | QualificationEvidenceInvalid
    | QualificationDigestMismatch
    | TriggerInvalid | TriggerEvidenceInvalid | TriggerDigestMismatch | BudgetInvalid | HumanOnlyTarget | UnknownTarget
    | ProductionBoundary | UnknownRisk | HighRisk | ReversibilityRequired | RoleIdentityRequired
    | BuilderSelfCertification | BoundaryAndEvidenceChecksPassed
    | PlanRequiresQualified | BoundedPlanReady
    | SandboxRequiresPlanned | IsolatedExecutionRequired | IsolatedExecutionConfirmed
    | TestRequiresSandboxOrRemediated | TestFailedRemediate | TestFailedRemediationExhausted | DeterministicTestsPassed
    | ScoringRequiresTested | EvaluationScoreInvalid | EvaluationEvidenceInvalid | EvaluationDigestMismatch
    | UsageEvidenceInvalid | UsageDigestMismatch | BudgetOverrun | BaselineEvidenceRequired | BaselineScoreInvalid
    | BaselineEvidenceInvalid | BaselineDigestMismatch | QualityRegression | CorrectnessBelowThreshold
    | SafetyBelowThreshold | RegressionBelowThreshold | TotalScoreBelowThreshold | SignedQualityEvidencePassed
    | CertificationRequiresScored | CertifierIdentityMismatch | IndependentValidationRequired | EvidenceContradiction
    | CertificationEvidenceInvalid | CertificationDigestMismatch | IndependentSignedValidationPassed
    | PreparePrRequiresCertified | TransitionLedgerInvalid | CertificationLineageIncomplete | CertificationTokenRequired
    | CertificationTokenInvalid | AutonomousCeilingReached

  predicate Terminal(s: State) {
    s == PreparePr || s == Hold || s == Reject || s == Escalate
  }

  /** The transition table. */
  predicate CanGo(from: State, to: State) {
    match from
    case Discovered => to == Qualified || to == Hold || to == Escalate
    case Qualified => to == Planned || to == Hold
    case Planned => to == Sandbox || to == Hold
    case Sandbox => to == Tested || to == Remediated || to == Hold || to == Reject
    case Remediated => to == Tested || to == Remediated || to == Hold || to == Reject
    case Tested => to == Scored || to == Hold || to == Reject
    case Scored => to == Certified || to == Hold
    case Certified => to == PreparePr || to == Hold
    case _ => false
  }

  // ---- Evidence and policy ---------------------------------------------------------------

  datatype Kind =
    | Qualification | TriggerKind | EvaluationKind | Baseline | UsageKind | Certification | OtherKind(text: string)

  datatype TriggerType = Manual | Schedule | Event | CiFailure | ObservabilityAlert | OtherTrigger(text: string)

  datatype Unsigned = Unsigned(id: string, kind: Kind, issuer: string, subject: string, provenance: string,
                               issuedAt: int, expiresAt: int, payload: string)

  datatype Evidence = Evidence(text: Unsigned, signature: string)

  datatype Budget = Budget(maxCost: real, maxSeconds: int, maxRetries: int, maxToolCalls: int)

  datatype Usage = Usage(cost: real, seconds: int, retries: int, toolCalls: int)

  datatype Trigger = Trigger(id: string, kind: TriggerType, source: string, evidence: Evidence)

  datatype Evaluation = Evaluation(correctness: real, safety: real, regression: real, ux: real, performance: real)

  datatype CertificationEvidence = CertificationEvidence(certifier: string, independent: bool, consistent: bool,
                                                         evidence: Evidence)

  /** The fields of a task that no stage changes. */
  datatype Policy = Policy(id: string, target: RunLedger.Target, risk: RunLedger.Risk, reversible: bool,
                           production: bool, objective: string, builder: string, certifier: string, budget: Budget,
                           qualification: Evidence, trigger: Trigger)

  /** What payload digests are taken of. */
  datatype Payload =
    | QualificationPayload(id: string, target: RunLedger.Target, risk: RunLedger.Risk, reversible: bool,
                           production: bool, objective: string, builder: string, certifier: string)
    | TriggerPayload(triggerId: string, kind: TriggerType, source: string)
    | EvaluationPayload(evaluation: Evaluation)
    | UsagePayload(usage: Usage)
    | CertificationPayload(id: string, certifier: string, independent: bool, consistent: bool, tail: string)
    | PolicyPayload(policy: Policy)

  /** What the engine's own key signs. */
  datatype Sealed =
    | MoveText(taskId: string, sequence: int, from: State, to: State, reason: Reason, previous: string, policy: string)
    | TokenText(taskId: string, tail: string, certifier: string)

  /** The engine's configuration, its keys, and the functions it computes with. */
  datatype World = World(keys: map<string, string>, sign: (string, Unsigned) -> string, digest: Payload -> string,
                         mac: Sealed -> string, isHexNumber: string -> bool, round4: real -> real,
                         minCorrectness: real, minSafety: real, minRegression: real, minTotal: real,
                         maxAttempts: int, maxAge: int)

  predicate ValidDigest(w: World, s: string) {
    |s| == 64 && w.isHexNumber(s) && s != RunLedger.ZERO
  }

  predicate InTime(e: Unsigned, now: int, maxAge: int) {
    e.issuedAt < e.expiresAt && e.issuedAt <= now + 60 && now <= e.expiresAt && now - e.issuedAt <= maxAge
  }

  predicate Complete(w: World, e: Evidence) {
    && !Blank(e.text.id) && !e.text.kind.OtherKind? && !Blank(e.text.issuer)
    && RunLedger.ValidRef(e.text.subject) && RunLedger.ValidRef(e.text.provenance)
    && ValidDigest(w, e.text.payload) && ValidDigest(w, e.signature)
  }

  function SubjectOf(id: string): string {
    "urn:lom:task:" + id
  }

  /** The evidence is complete, of this kind, about this task, in time, and signed with its issuer's key. */
  predicate Verifies(w: World, e: Evidence, kind: Kind, subject: string, issuer: Option<string>, now: int) {
    && e.text.issuer in w.keys && Complete(w, e) && e.text.kind == kind && e.text.subject == subject
    && (issuer.Some? ==> e.text.issuer == issuer.value)
    && InTime(e.text, now, w.maxAge) && e.signature == w.sign(w.keys[e.text.issuer], e.text)
  }

  predicate ValidBudget(b: Budget) {
    b.maxCost >= 0.0 && b.maxSeconds > 0 && b.maxRetries >= 0 && b.maxToolCalls > 0
  }

  predicate ValidUsage(u: Usage) {
    u.cost >= 0.0 && u.seconds >= 0 && u.retries >= 0 && u.toolCalls >= 0
  }

  predicate WithinBudget(u: Usage, b: Budget) {
    && ValidUsage(u) && u.cost <= b.maxCost && u.seconds <= b.maxSeconds && u.retries <= b.maxRetries
    && u.toolCalls <= b.maxToolCalls
  }

  predicate UnitScore(x: real) {
    0.0 <= x <= 1.0
  }

  predicate ValidEvaluation(e: Evaluation) {
    UnitScore(e.correctness) && UnitScore(e.safety) && UnitScore(e.regression) && UnitScore(e.ux)
      && UnitScore(e.performance)
  }

  /** The parts count 14, 12, 8, 3 and 3 fortieths. */
  function WeightedScore(w: World, e: Evaluation): (total: real)
    ensures forall exact ::
      40.0 * exact == 14.0 * e.correctness + 12.0 * e.safety + 8.0 * e.regression + 3.0 * e.ux + 3.0 * e.performance ==>
        total == w.round4(exact)
  {
    w.round4(0.35 * e.correctness + 0.30 * e.safety + 0.20 * e.regression + 0.075 * e.ux + 0.075 * e.performance)
  }

  // ---- The stages' verdicts --------------------------------------------------------------

  /** Where a stage sends the task, and why. */
  type Verdict = (State, Reason)

  function QualifyVerdict(w: World, p: Policy, now: int, later: int): Verdict {
    var request := RequestFault(w, p, now);
    if request.Some? then (Hold, request.value)
    else
      var trigger := TriggerFault(w, p, later);
      if trigger.Some? then (Hold, trigger.value) else BoundaryVerdict(p)
  }

  function QualificationOf(p: Policy): Payload {
    QualificationPayload(p.id, p.target, p.risk, p.reversible, p.production, p.objective, p.builder, p.certifier)
  }

  function TriggerOf(p: Policy): Payload {
    TriggerPayload(p.trigger.id, p.trigger.kind, p.trigger.source)
  }

  /** The request names itself and its objective; then its evidence, then what the evidence is about. */
  function RequestFault(w: World, p: Policy, now: int): (r: Option<Reason>)
    ensures r != Some(TransitionLedgerInvalid)
  {
    if Blank(p.id) || Blank(p.objective) then Some(IdentityOrObjectiveRequired)
    else if !Verifies(w, p.qualification, Qualification, SubjectOf(p.id), None, now) then
      Some(QualificationEvidenceInvalid)
    else if p.qualification.text.payload != w.digest(QualificationOf(p)) then
      Some(QualificationDigestMismatch)
    else None
  }

  /** The trigger is named, of a known kind, and refers to its source. */
  predicate TriggerStated(t: Trigger) {
    !Blank(t.id) && !t.kind.OtherTrigger? && RunLedger.ValidRef(t.source)
  }

  function TriggerFault(w: World, p: Policy, later: int): (r: Option<Reason>)
    ensures r != Some(TransitionLedgerInvalid)
  {
    if Blank(p.trigger.id) || p.trigger.kind.OtherTrigger? || !RunLedger.ValidRef(p.trigger.source) then
      Some(TriggerInvalid)
    else if !Verifies(w, p.trigger.evidence, TriggerKind, SubjectOf(p.id), None, later) then
      Some(TriggerEvidenceInvalid)
    else if p.trigger.evidence.text.payload != w.digest(TriggerOf(p)) then
      Some(TriggerDigestMismatch)
    else None
  }

  /** The task stays within what the engine may do on its own. */
  predicate InBounds(p: Policy) {
    && p.target.Allowed? && !p.production && (p.risk.Low? || p.risk.Medium?) && p.reversible
    && !Blank(p.builder) && !Blank(p.certifier) && p.builder != p.certifier
    && 0.0 <= p.budget.maxCost && 0 < p.budget.maxSeconds && 0 <= p.budget.maxRetries && 0 < p.budget.maxToolCalls
  }

  /** What speaks against a task's bounds. */
  predicate OutOfBounds(p: Policy, reason: Reason) {
    match reason
    case BudgetInvalid =>
      p.budget.maxCost < 0.0 || p.budget.maxSeconds <= 0 || p.budget.maxRetries < 0 || p.budget.maxToolCalls <= 0
    case HumanOnlyTarget => p.target.HumanOnly?
    case UnknownTarget => p.target.OtherTarget?
    case ProductionBoundary => p.production
    case UnknownRisk => p.risk.OtherRisk?
    case HighRisk => p.risk.High?
    case ReversibilityRequired => !p.reversible
    case RoleIdentityRequired => Blank(p.builder) || Blank(p.certifier)
    case BuilderSelfCertification => p.builder == p.certifier
    case _ => false
  }

  /** The order in which the bounds are looked at. */
  function Turn(reason: Reason): nat {
    match reason
    case BudgetInvalid => 0
    case HumanOnlyTarget => 1
    case UnknownTarget => 2
    case ProductionBoundary => 3
    case UnknownRisk => 4
    case HighRisk => 5
    case ReversibilityRequired => 6
    case RoleIdentityRequired => 7
    case _ => 8
  }

  function BoundaryVerdict(p: Policy): (v: Verdict)
    ensures CanGo(Discovered, v.0) && v.1 != TransitionLedgerInvalid
    ensures v.0 == Qualified <==> InBounds(p)
  {
    if !ValidBudget(p.budget) then (Hold, BudgetInvalid)
    else if p.target.HumanOnly? then (Escalate, HumanOnlyTarget)
    else if p.target.OtherTarget? then (Hold, UnknownTarget)
    else if p.production then (Escalate, ProductionBoundary)
    else if p.risk.OtherRisk? then (Hold, UnknownRisk)
    else if p.risk.High? then (Escalate, HighRisk)
    else if !p.reversible then (Hold, ReversibilityRequired)
    else if Blank(p.builder) || Blank(p.certifier) then (Hold, RoleIdentityRequired)
    else if p.builder == p.certifier then (Hold, BuilderSelfCertification)
    else (Qualified, BoundaryAndEvidenceChecksPassed)
  }

  /** A failed test is remediated while attempts are left, and rejected after them. */
  function TestVerdict(w: World, passed: bool, attempts: int): (v: Verdict)
    ensures v == (Tested, DeterministicTestsPassed) <==> passed
    ensures v == (Remediated, TestFailedRemediate) <==> !passed && attempts + 1 <= w.maxAttempts
    ensures v == (Reject, TestFailedRemediationExhausted) <==> !passed && w.maxAttempts <= attempts
  {
    if passed then (Tested, DeterministicTestsPassed)
    else if attempts < w.maxAttempts then (Remediated, TestFailedRemediate)
    else (Reject, TestFailedRemediationExhausted)
  }

  /** What a scoring run is handed; the three times are those of its three evidence checks. */
  datatype Scoring = Scoring(evaluation: Evaluation, evaluationEvidence: Evidence, baseline: Option<Evaluation>,
                             baselineEvidence: Option<Evidence>, usage: Usage, usageEvidence: Evidence,
                             now1: int, now2: int, now3: int)

  function ScoreVerdict(w: World, p: Policy, s: Scoring): Verdict {
    var baseline := BaselineFault(w, p, s);
    FirstFault(EvaluationFault(w, p, s), UsageFault(w, p, s), WithinBudget(s.usage, p.budget), baseline,
               if baseline.None? then QualityFault(w, s.evaluation, s.baseline.value) else None)
  }

  /** The first fault decides; an overrun or poor quality rejects, any other fault holds. */
  function FirstFault(evaluation: Option<Reason>, usage: Option<Reason>, within: bool, baseline: Option<Reason>,
                      quality: Option<Reason>): (v: Verdict)
    ensures v.0 == Scored || v.0 == Hold || v.0 == Reject
  {
    if evaluation.Some? then (Hold, evaluation.value)
    else if usage.Some? then (Hold, usage.value)
    else if !within then (Reject, BudgetOverrun)
    else if baseline.Some? then (Hold, baseline.value)
    else if quality.Some? then (Reject, quality.value)
    else (Scored, SignedQualityEvidencePassed)
  }

  predicate UnitScores(e: Evaluation) {
    && 0.0 <= e.correctness && e.correctness <= 1.0 && 0.0 <= e.safety && e.safety <= 1.0
    && 0.0 <= e.regression && e.regression <= 1.0 && 0.0 <= e.ux && e.ux <= 1.0
    && 0.0 <= e.performance && e.performance <= 1.0
  }

  function EvaluationFault(w: World, p: Policy, s: Scoring): (r: Option<Reason>)
    ensures r != Some(TransitionLedgerInvalid)
  {
    if !ValidEvaluation(s.evaluation) then Some(EvaluationScoreInvalid)
    else if !Verifies(w, s.evaluationEvidence, EvaluationKind, SubjectOf(p.id), None, s.now1) then
      Some(EvaluationEvidenceInvalid)
    else if s.evaluationEvidence.text.payload != w.digest(EvaluationPayload(s.evaluation)) then
      Some(EvaluationDigestMismatch)
    else None
  }

  function UsageFault(w: World, p: Policy, s: Scoring): (r: Option<Reason>)
    ensures r != Some(TransitionLedgerInvalid)
  {
    if !ValidUsage(s.usage) then Some(UsageEvidenceInvalid)
    else if !Verifies(w, s.usageEvidence, UsageKind, SubjectOf(p.id), None, s.now2) then Some(UsageEvidenceInvalid)
    else if s.usageEvidence.text.payload != w.digest(UsagePayload(s.usage)) then Some(UsageDigestMismatch)
    else None
  }

  function BaselineFault(w: World, p: Policy, s: Scoring): (r: Option<Reason>)
    ensures r != Some(TransitionLedgerInvalid)
    ensures r.None? ==> s.baseline.Some?
  {
    if s.baseline.None? || s.baselineEvidence.None? then Some(BaselineEvidenceRequired)
    else if !ValidEvaluation(s.baseline.value) then Some(BaselineScoreInvalid)
    else if !Verifies(w, s.baselineEvidence.value, Baseline, SubjectOf(p.id), None, s.now3) then
      Some(BaselineEvidenceInvalid)
    else if s.baselineEvidence.value.text.payload != w.digest(EvaluationPayload(s.baseline.value)) then
      Some(BaselineDigestMismatch)
    else None
  }

  /** No worse in correctness, safety and regression. */
  predicate AtLeast(e: Evaluation, correctness: real, safety: real, regression: real) {
    correctness <= e.correctness && safety <= e.safety && regression <= e.regression
  }

  function QualityFault(w: World, e: Evaluation, baseline: Evaluation): (r: Option<Reason>)
    ensures r != Some(TransitionLedgerInvalid)
  {
    if e.correctness < baseline.correctness || e.safety < baseline.safety || e.regression < baseline.regression then
      Some(QualityRegression)
    else if e.correctness < w.minCorrectness then Some(CorrectnessBelowThreshold)
    else if e.safety < w.minSafety then Some(SafetyBelowThreshold)
    else if e.regression < w.minRegression then Some(RegressionBelowThreshold)
    else if WeightedScore(w, e) < w.minTotal then Some(TotalScoreBelowThreshold)
    else None
  }

  function CertificationOf(p: Policy, c: CertificationEvidence, tail: string): Payload {
    CertificationPayload(p.id, c.certifier, c.independent, c.consistent, tail)
  }

  function CertifyVerdict(w: World, p: Policy, c: CertificationEvidence, tail: string, now: int): (v: Verdict)
    ensures v.0 == Certified || v.0 == Hold
  {
    if c.certifier != p.certifier then (Hold, CertifierIdentityMismatch)
    else if c.certifier == p.builder then (Hold, BuilderSelfCertification)
    else if !c.independent then (Hold, IndependentValidationRequired)
    else if !c.consistent then (Hold, EvidenceContradiction)
    else if !Verifies(w, c.evidence, Certification, SubjectOf(p.id), Some(c.certifier), now) then
      (Hold, CertificationEvidenceInvalid)
    else if c.evidence.text.payload != w.digest(CertificationOf(p, c, tail)) then
      (Hold, CertificationDigestMismatch)
    else (Certified, IndependentSignedValidationPassed)
  }

  // ---- What a passed stage means ---------------------------------------------------------

  /** The evidence verifies, and is about exactly this payload. */
  predicate Vouches(w: World, p: Policy, e: Evidence, kind: Kind, payload: Payload, issuer: Option<string>, now: int) {
    Verifies(w, e, kind, SubjectOf(p.id), issuer, now) && e.text.payload == w.digest(payload)
  }

  /** The request and its trigger are complete, signed evidence vouches for both, and the task is in bounds. */
  predicate GoodQualification(w: World, p: Policy, now: int, later: int) {
    && !Blank(p.id) && !Blank(p.objective) && InBounds(p)
    && Vouches(w, p, p.qualification, Qualification,
               QualificationPayload(p.id, p.target, p.risk, p.reversible, p.production, p.objective, p.builder,
                                    p.certifier), None, now)
    && TriggerStated(p.trigger)
    && Vouches(w, p, p.trigger.evidence, TriggerKind, TriggerPayload(p.trigger.id, p.trigger.kind, p.trigger.source),
               None, later)
  }

  /** Evaluation, usage and baseline are proper and vouched for, usage is within budget, nothing regressed, and every
      threshold is met. */
  predicate GoodScoring(w: World, p: Policy, s: Scoring) {
    && UnitScores(s.evaluation)
    && Vouches(w, p, s.evaluationEvidence, EvaluationKind, EvaluationPayload(s.evaluation), None, s.now1)
    && Vouches(w, p, s.usageEvidence, UsageKind, UsagePayload(s.usage), None, s.now2)
    && 0.0 <= s.usage.cost <= p.budget.maxCost && 0 <= s.usage.seconds <= p.budget.maxSeconds
    && 0 <= s.usage.retries <= p.budget.maxRetries && 0 <= s.usage.toolCalls <= p.budget.maxToolCalls
    && s.baseline.Some? && s.baselineEvidence.Some? && UnitScores(s.baseline.value)
    && Vouches(w, p, s.baselineEvidence.value, Baseline, EvaluationPayload(s.baseline.value), None, s.now3)
    && AtLeast(s.evaluation, s.baseline.value.correctness, s.baseline.value.safety, s.baseline.value.regression)
    && AtLeast(s.evaluation, w.minCorrectness, w.minSafety, w.minRegression)
    && w.minTotal <= WeightedScore(w, s.evaluation)
  }

  /** The named certifier, who is not the builder, validated independently and consistently, and evidence it signed
      vouches for that at this point of the ledger. */
  predicate GoodCertification(w: World, p: Policy, c: CertificationEvidence, tail: string, now: int) {
    && c.certifier == p.certifier && c.certifier != p.builder && c.independent && c.consistent
    && Vouches(w, p, c.evidence, Certification, CertificationPayload(p.id, p.certifier, true, true, tail),
               Some(p.certifier), now)
  }

  // ---- What each check looks at -----------------------------------------------------------

  lemma RequestFaultByFields(w: World, p: Policy, now: int)
    ensures RequestFault(w, p, now).None? <==>
      && !Blank(p.id) && !Blank(p.objective)
      && Vouches(w, p, p.qualification, Qualification,
                 QualificationPayload(p.id, p.target, p.risk, p.reversible, p.production, p.objective, p.builder,
                                      p.certifier), None, now)
    ensures RequestFault(w, p, now).Some? ==>
      match RequestFault(w, p, now).value
      case IdentityOrObjectiveRequired => Blank(p.id) || Blank(p.objective)
      case QualificationEvidenceInvalid =>
        && !Blank(p.id) && !Blank(p.objective)
        && !Verifies(w, p.qualification, Qualification, SubjectOf(p.id), None, now)
      case QualificationDigestMismatch => Verifies(w, p.qualification, Qualification, SubjectOf(p.id), None, now)
      case _ => false
  {
  }

  lemma TriggerFaultByFields(w: World, p: Policy, later: int)
    ensures TriggerFault(w, p, later).None? <==>
      && TriggerStated(p.trigger)
      && Vouches(w, p, p.trigger.evidence, TriggerKind, TriggerPayload(p.trigger.id, p.trigger.kind, p.trigger.source),
                 None, later)
    ensures TriggerFault(w, p, later).Some? ==>
      match TriggerFault(w, p, later).value
      case TriggerInvalid => !TriggerStated(p.trigger)
      case TriggerEvidenceInvalid =>
        TriggerStated(p.trigger) && !Verifies(w, p.trigger.evidence, TriggerKind, SubjectOf(p.id), None, later)
      case TriggerDigestMismatch => Verifies(w, p.trigger.evidence, TriggerKind, SubjectOf(p.id), None, later)
      case _ => false
  {
  }

  lemma EvaluationFaultByFields(w: World, p: Policy, s: Scoring)
    ensures EvaluationFault(w, p, s).None? <==>
      && UnitScores(s.evaluation)
      && Vouches(w, p, s.evaluationEvidence, EvaluationKind, EvaluationPayload(s.evaluation), None, s.now1)
    ensures EvaluationFault(w, p, s).Some? ==>
      match EvaluationFault(w, p, s).value
      case EvaluationScoreInvalid => !UnitScores(s.evaluation)
      case EvaluationEvidenceInvalid =>
        && UnitScores(s.evaluation)
        && !Verifies(w, s.evaluationEvidence, EvaluationKind, SubjectOf(p.id), None, s.now1)
      case EvaluationDigestMismatch => Verifies(w, s.evaluationEvidence, EvaluationKind, SubjectOf(p.id), None, s.now1)
      case _ => false
  {
  }

  lemma UsageFaultByFields(w: World, p: Policy, s: Scoring)
    ensures UsageFault(w, p, s).None? <==>
      && 0.0 <= s.usage.cost && 0 <= s.usage.seconds && 0 <= s.usage.retries && 0 <= s.usage.toolCalls
      && Vouches(w, p, s.usageEvidence, UsageKind, UsagePayload(s.usage), None, s.now2)
    ensures UsageFault(w, p, s).Some? ==>
      (UsageFault(w, p, s).value.UsageDigestMismatch? <==>
        && 0.0 <= s.usage.cost && 0 <= s.usage.seconds && 0 <= s.usage.retries && 0 <= s.usage.toolCalls
        && Verifies(w, s.usageEvidence, UsageKind, SubjectOf(p.id), None, s.now2))
    ensures UsageFault(w, p, s).Some? ==>
      UsageFault(w, p, s).value.UsageDigestMismatch? || UsageFault(w, p, s).value.UsageEvidenceInvalid?
  {
  }

  lemma BaselineFaultByFields(w: World, p: Policy, s: Scoring)
    ensures BaselineFault(w, p, s).None? <==>
      && s.baseline.Some? && s.baselineEvidence.Some? && UnitScores(s.baseline.value)
      && Vouches(w, p, s.baselineEvidence.value, Baseline, EvaluationPayload(s.baseline.value), None, s.now3)
    ensures BaselineFault(w, p, s).Some? ==>
      match BaselineFault(w, p, s).value
      case BaselineEvidenceRequired => s.baseline.None? || s.baselineEvidence.None?
      case BaselineScoreInvalid => s.baseline.Some? && s.baselineEvidence.Some? && !UnitScores(s.baseline.value)
      case BaselineEvidenceInvalid =>
        && s.baseline.Some? && s.baselineEvidence.Some? && UnitScores(s.baseline.value)
        && !Verifies(w, s.baselineEvidence.value, Baseline, SubjectOf(p.id), None, s.now3)
      case BaselineDigestMismatch =>
        && s.baseline.Some? && s.baselineEvidence.Some?
        && Verifies(w, s.baselineEvidence.value, Baseline, SubjectOf(p.id), None, s.now3)
      case _ => false
  {
  }

  lemma QualityFaultByFields(w: World, e: Evaluation, baseline: Evaluation)
    ensures QualityFault(w, e, baseline).None? <==>
      && baseline.correctness <= e.correctness && baseline.safety <= e.safety && baseline.regression <= e.regression
      && w.minCorrectness <= e.correctness && w.minSafety <= e.safety && w.minRegression <= e.regression
      && w.minTotal <= WeightedScore(w, e)
    ensures QualityFault(w, e, baseline).Some? ==>
      var regressed := e.correctness < baseline.correctness || e.safety < baseline.safety
        || e.regression < baseline.regression;
      match QualityFault(w, e, baseline).value
      case QualityRegression => regressed
      case CorrectnessBelowThreshold => !regressed && e.correctness < w.minCorrectness
      case SafetyBelowThreshold => !regressed && w.minCorrectness <= e.correctness && e.safety < w.minSafety
      case RegressionBelowThreshold =>
        && !regressed && w.minCorrectness <= e.correctness && w.minSafety <= e.safety
        && e.regression < w.minRegression
      case TotalScoreBelowThreshold =>
        && !regressed && w.minCorrectness <= e.correctness && w.minSafety <= e.safety
        && w.minRegression <= e.regression && WeightedScore(w, e) < w.minTotal
      case _ => false
  {
  }

  lemma CertifyVerdictByFields(w: World, p: Policy, c: CertificationEvidence, tail: string, now: int)
    ensures CertifyVerdict(w, p, c, tail, now).0 == Certified || CertifyVerdict(w, p, c, tail, now).0 == Hold
    ensures CertifyVerdict(w, p, c, tail, now).0 == Certified <==> GoodCertification(w, p, c, tail, now)
    ensures CertifyVerdict(w, p, c, tail, now).0 == Hold ==>
      var named := c.certifier == p.certifier;
      match CertifyVerdict(w, p, c, tail, now).1
      case CertifierIdentityMismatch => !named
      case BuilderSelfCertification => named && c.certifier == p.builder
      case IndependentValidationRequired => named && c.certifier != p.builder && !c.independent
      case EvidenceContradiction => named && c.certifier != p.builder && c.independent && !c.consistent
      case CertificationEvidenceInvalid =>
        && named && c.certifier != p.builder && c.independent && c.consistent
        && !Verifies(w, c.evidence, Certification, SubjectOf(p.id), Some(c.certifier), now)
      case CertificationDigestMismatch =>
        && named && c.certifier != p.builder && c.independent && c.consistent
        && Verifies(w, c.evidence, Certification, SubjectOf(p.id), Some(c.certifier), now)
      case _ => false
  {
  }

  lemma BoundaryVerdictByFields(p: Policy)
    ensures
      var (state, why) := BoundaryVerdict(p);
      && CanGo(Discovered, state) && why != TransitionLedgerInvalid
      && (state == Qualified <==> InBounds(p))
      && (state != Qualified ==>
           && OutOfBounds(p, why) && (forall other :: OutOfBounds(p, other) ==> Turn(why) <= Turn(other))
           && state == if why.HumanOnlyTarget? || why.ProductionBoundary? || why.HighRisk? then Escalate else Hold)
  {
  }

  lemma FirstFaultByFields(evaluation: Option<Reason>, usage: Option<Reason>, within: bool, baseline: Option<Reason>,
                           quality: Option<Reason>)
    ensures
      var (state, why) := FirstFault(evaluation, usage, within, baseline, quality);
      match state
      case Scored =>
        && why == SignedQualityEvidencePassed
        && evaluation.None? && usage.None? && within && baseline.None? && quality.None?
      case Hold =>
        || evaluation == Some(why)
        || (evaluation.None? && usage == Some(why))
        || (evaluation.None? && usage.None? && within && baseline == Some(why))
      case Reject =>
        && evaluation.None? && usage.None?
        && if within then baseline.None? && quality == Some(why) else why == BudgetOverrun
      case _ => false
  {
  }

  lemma QualifiedExactlyWhen(w: World, p: Policy, now: int, later: int)
    ensures QualifyVerdict(w, p, now, later).0 == Qualified <==> GoodQualification(w, p, now, later)
  {
    RequestFaultByFields(w, p, now);
    TriggerFaultByFields(w, p, later);
  }

  lemma ScoredExactlyWhen(w: World, p: Policy, s: Scoring)
    ensures ScoreVerdict(w, p, s).0 == Scored <==> GoodScoring(w, p, s)
  {
    EvaluationFaultByFields(w, p, s);
    UsageFaultByFields(w, p, s);
    BaselineFaultByFields(w, p, s);
    if s.baseline.Some? {
      QualityFaultByFields(w, s.evaluation, s.baseline.value);
    }
  }

  lemma CertifiedExactlyWhen(w: World, p: Policy, c: CertificationEvidence, tail: string, now: int)
    ensures CertifyVerdict(w, p, c, tail, now).0 == Certified <==> GoodCertification(w, p, c, tail, now)
  {
    CertifyVerdictByFields(w, p, c, tail, now);
  }

  /** A text of 64 characters that reads as a hexadecimal number and is not all zeros. */
  predicate Fingerprint(w: World, s: string) {
    |s| == 64 && w.isHexNumber(s) && s != RunLedger.ZERO
  }

  /** Evidence vouches for a payload exactly when it is of the kind asked for, about the task, of that payload, stated
      in full, signed with the key of its issuer, who is the one asked for if one is, issued no more than a minute
      ahead, not expired, and not older than allowed. */
  lemma VouchesExactlyWhen(w: World, p: Policy, e: Evidence, kind: Kind, payload: Payload, issuer: Option<string>,
                           now: int)
    ensures Vouches(w, p, e, kind, payload, issuer, now) <==>
      var t := e.text;
      && t.kind == kind && !kind.OtherKind? && t.subject == "urn:lom:task:" + p.id && t.payload == w.digest(payload)
      && !Blank(t.id) && !Blank(t.issuer) && RunLedger.ValidRef(t.subject) && RunLedger.ValidRef(t.provenance)
      && Fingerprint(w, t.payload) && Fingerprint(w, e.signature)
      && t.issuer in w.keys && e.signature == w.sign(w.keys[t.issuer], t) && (issuer.None? || issuer.value == t.issuer)
      && t.issuedAt < t.expiresAt && t.issuedAt - now <= 60 && 0 <= t.expiresAt - now && now - w.maxAge <= t.issuedAt
  {
  }

  // ---- The ledger ------------------------------------------------------------------------

  datatype Move = Move(sequence: int, from: State, to: State, reason: Reason, previous: string, digest: string)

  /** A task apart from its policy. */
  datatype Progress = Progress(state: State, reason: Reason, attempts: int, ledger: seq<Move>)

  function Tail(ledger: seq<Move>): string {
    if ledger == [] then RunLedger.ZERO else ledger[|ledger| - 1].digest
  }

  function LastState(ledger: seq<Move>): State {
    if ledger == [] then Discovered else ledger[|ledger| - 1].to
  }

  function MoveDigest(w: World, p: Policy, sequence: int, from: State, to: State, reason: Reason,
                      previous: string): string {
    w.mac(MoveText(p.id, sequence, from, to, reason, previous, w.digest(PolicyPayload(p))))
  }

  function NextMove(w: World, p: Policy, ledger: seq<Move>, from: State, to: State, reason: Reason): Move {
    Move(|ledger| + 1, from, to, reason, Tail(ledger), MoveDigest(w, p, |ledger| + 1, from, to, reason, Tail(ledger)))
  }

  /** `m` has the next number, leads on from where the task stood, names the last digest and carries its own. */
  predicate Continues(w: World, p: Policy, sequence: int, state: State, previous: string, m: Move) {
    && m.sequence == sequence && m.from == state && CanGo(state, m.to) && m.previous == previous
    && m.digest == MoveDigest(w, p, m.sequence, m.from, m.to, m.reason, m.previous)
  }

  predicate Follows(w: World, p: Policy, ledger: seq<Move>, m: Move) {
    Continues(w, p, |ledger| + 1, LastState(ledger), Tail(ledger), m)
  }

  /** Every move follows those before it. */
  predicate Chained(w: World, p: Policy, ledger: seq<Move>) {
    ledger == [] ||
    var init, last := ledger[..|ledger| - 1], ledger[|ledger| - 1];
    Chained(w, p, init) && Follows(w, p, init, last)
  }

  lemma {:induction false} ChainedPrefix(w: World, p: Policy, ledger: seq<Move>, k: nat)
    requires Chained(w, p, ledger) && k <= |ledger|
    ensures Chained(w, p, ledger[..k])
    decreases |ledger|
  {
    if k < |ledger| {
      ChainedPrefix(w, p, ledger[..|ledger| - 1], k);
      assert ledger[..|ledger| - 1][..k] == ledger[..k];
    } else {
      assert ledger[..k] == ledger;
    }
  }

  function History(ledger: seq<Move>): seq<State> {
    [Discovered] + seq(|ledger|, i requires 0 <= i < |ledger| => ledger[i].to)
  }

  /** A walk through the transition table from the start. */
  ghost predicate IsWalk(history: seq<State>) {
    && history != [] && history[0] == Discovered
    && forall i, j :: 0 <= i && j == i + 1 && j < |history| ==> CanGo(history[i], history[j])
  }

  lemma WalkGrows(history: seq<State>, to: State)
    requires IsWalk(history) && CanGo(history[|history| - 1], to)
    ensures IsWalk(history + [to])
  {
  }

  lemma {:induction false} ChainedIsWalk(w: World, p: Policy, ledger: seq<Move>)
    requires Chained(w, p, ledger)
    ensures IsWalk(History(ledger)) && History(ledger)[|ledger|] == LastState(ledger)
  {
    if ledger == [] {
    } else {
      var k := |ledger| - 1;
      ChainedIsWalk(w, p, ledger[..k]);
      assert History(ledger) == History(ledger[..k]) + [ledger[k].to];
      WalkGrows(History(ledger[..k]), ledger[k].to);
    }
  }

  // ---- The success history ---------------------------------------------------------------

  lemma WalksOn(history: seq<State>, i: nat)
    requires IsWalk(history) && history[|history| - 1] == Certified && i + 1 < |history|
    ensures CanGo(history[i], history[i + 1]) && !Terminal(history[i + 1])
  {
    if i + 2 < |history| {
      assert CanGo(history[i + 1], history[i + 2]);
    }
  }

  /** Every walk to certification is long enough and sets out the same way. */
  lemma SetsOut(history: seq<State>)
    requires IsWalk(history) && history[|history| - 1] == Certified
    ensures |history| >= 7 && history[1] == Qualified && history[2] == Planned && history[3] == Sandbox
  {
    WalksOn(history, 0);
    WalksOn(history, 1);
    WalksOn(history, 2);
    WalksOn(history, 3);
    WalksOn(history, 4);
    WalksOn(history, 5);
  }

  /** The history is accepted exactly when it is that of a walk through the table that ends in certification. */
  method ValidSuccessHistory(history: seq<State>) returns (ok: bool)
    ensures ok <==> IsWalk(history) && history[|history| - 1] == Certified
  {
    if IsWalk(history) && history[|history| - 1] == Certified {
      SetsOut(history);
    }
    if |history| < 7 || history[0] != Discovered {
      return false;
    }
    if history[1] != Qualified || history[2] != Planned || history[3] != Sandbox {
      return false;
    }
    var index := 4;
    while index < |history| && history[index] == Remediated
      invariant 4 <= index <= |history|
      invariant forall i :: 4 <= i < index ==> history[i] == Remediated
    {
      index := index + 1;
    }
    ok := index + 3 == |history| && history[index] == Tested && history[index + 1] == Scored
      && history[index + 2] == Certified;
    EndsAfterRemediation(history, index);
  }

  lemma EndsAfterRemediation(history: seq<State>, index: nat)
    requires 4 <= index <= |history|
    requires history[0] == Discovered && history[1] == Qualified && history[2] == Planned && history[3] == Sandbox
    requires forall i :: 4 <= i < index ==> history[i] == Remediated
    requires index < |history| ==> history[index] != Remediated
    ensures IsWalk(history) && history[|history| - 1] == Certified <==>
      index + 3 == |history| && history[index] == Tested && history[index + 1] == Scored
        && history[index + 2] == Certified
  {
    if IsWalk(history) && history[|history| - 1] == Certified {
      assert index < |history|;
      WalksOn(history, index - 1);
      assert history[index] == Tested && index + 1 < |history|;
      WalksOn(history, index);
      assert history[index + 1] == Scored && index + 2 < |history|;
      WalksOn(history, index + 1);
      assert history[index + 2] == Certified;
      if index + 3 < |history| {
        WalksOn(history, index + 2);
      }
    }
  }
}
