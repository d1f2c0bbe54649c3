/** The bounded remediation loop over executor, validator, scorers and certifier that cannot be trusted. */
module RemediationRun {
  import opened Prelude
  import opened RunLedger
  import opened Scoring
  import opened TaskBoard

  /** What a callback did: it returned, or it raised. */
  datatype Reply<+T> = Returned(value: T) | Threw

  datatype AuthorityScope = NonProdBranch | OtherScope(text: string)

  datatype Ceiling = PreparePrCeiling | OtherCeiling(text: string)

  datatype AttemptResult = AttemptResult(
    testsPassed: bool, evidenceRef: string, context: map<string, string>,
    reversible: bool, production: bool, authorityScope: AuthorityScope)

  datatype ValidationResult = ValidationResult(passed: bool, validatorId: string, evidenceRef: string)

  datatype CertificationResult = CertificationResult(
    passed: bool, certifierId: string, evidenceRef: string, authorityCeiling: Ceiling)

  /** Arbitrary callbacks, the registered scorers included. Each sees a snapshot that carries the attempt number, or
      the number itself, so a callback that answers differently every time is covered too. None of them writes to
      the board or its ledger. */
  datatype Callbacks = Callbacks(
    executor: (TaskSnapshot, int) -> Reply<AttemptResult>,
    validator: (TaskSnapshot, AttemptResult) -> Reply<ValidationResult>,
    scorer: (string, map<string, string>, int) -> Reading,
    certifier: (TaskSnapshot, Report) -> Reply<CertificationResult>)

  const EXCEPTION_REF: string := "urn:lom:validation:exception"

  /** Why a queued task is not run at all. */
  function Preflight(spec: TaskSpec): Option<(TaskState, Reason)> {
    if spec.production then Some((Escalated, ProductionBoundary))
    else if spec.target.HumanOnly? then Some((Escalated, HumanOnlyTargetReason))
    else if !spec.target.Allowed? then Some((OnHold, UnknownTarget))
    else if !spec.reversible then Some((OnHold, ReversibilityRequired))
    else if !spec.risk.Low? && !spec.risk.Medium? then Some((Escalated, RiskThresholdExceeded))
    else if spec.builderId == spec.validatorId || spec.builderId == spec.certifierId
      || spec.validatorId == spec.certifierId then
      Some((OnHold, SeparationOfDuties))
    else None
  }

  /** Why an attempt's result ends the run before anyone validates it. */
  function AttemptGate(a: AttemptResult): Option<(TaskState, Reason)> {
    if a.production then Some((Escalated, CrossedProductionBoundary))
    else if !a.reversible then Some((OnHold, AttemptNotReversible))
    else if !a.authorityScope.NonProdBranch? then Some((OnHold, AuthorityScopeInvalid))
    else if !ValidRef(a.evidenceRef) then Some((OnHold, AttemptEvidenceRequired))
    else None
  }

  function ValidationGate(spec: TaskSpec, v: ValidationResult): Option<Reason> {
    if v.validatorId != spec.validatorId || v.validatorId == spec.builderId then Some(ValidatorIdentityInvalid)
    else if !ValidRef(v.evidenceRef) then Some(ValidationEvidenceRequired)
    else None
  }

  function CertificationGate(spec: TaskSpec, c: CertificationResult): Option<Reason> {
    if c.certifierId != spec.certifierId then Some(CertifierIdentityInvalid)
    else if c.certifierId == spec.builderId || c.certifierId == spec.validatorId then Some(CertifierNotIndependent)
    else if !c.passed then Some(CertificationFailed)
    else if !ValidRef(c.evidenceRef) then Some(CertificationEvidenceRequired)
    else if !c.authorityCeiling.PreparePrCeiling? then Some(AuthorityCeilingInvalid)
    else None
  }

  // ---- The gates, by what they look at ----------------------------------------------------

  /** A task that may be run: non-production, on an allowed target, reversible, of low or medium risk, and with three
      different people on it. */
  predicate Runnable(spec: TaskSpec) {
    && !spec.production && spec.target.Allowed? && spec.reversible && (spec.risk.Low? || spec.risk.Medium?)
    && spec.builderId != spec.validatorId && spec.builderId != spec.certifierId && spec.validatorId != spec.certifierId
  }

  /** Why a task is not run, by the first thing that speaks against it. */
  predicate StoppedBeforehand(spec: TaskSpec, state: TaskState, reason: Reason) {
    match reason
    case ProductionBoundary => state.Escalated? && spec.production
    case HumanOnlyTargetReason => state.Escalated? && !spec.production && spec.target.HumanOnly?
    case UnknownTarget => state.OnHold? && !spec.production && spec.target.OtherTarget?
    case ReversibilityRequired => state.OnHold? && !spec.production && spec.target.Allowed? && !spec.reversible
    case RiskThresholdExceeded =>
      && state.Escalated? && !spec.production && spec.target.Allowed? && spec.reversible
      && (spec.risk.High? || spec.risk.OtherRisk?)
    case SeparationOfDuties =>
      && state.OnHold? && !spec.production && spec.target.Allowed? && spec.reversible
      && (spec.risk.Low? || spec.risk.Medium?) && !Runnable(spec)
    case _ => false
  }

  /** A result within bounds: in a non-production branch, reversible, and with evidence. */
  predicate InBounds(a: AttemptResult) {
    !a.production && a.reversible && a.authorityScope == NonProdBranch && ValidRef(a.evidenceRef)
  }

  predicate OutOfBounds(a: AttemptResult, state: TaskState, reason: Reason) {
    match reason
    case CrossedProductionBoundary => state.Escalated? && a.production
    case AttemptNotReversible => state.OnHold? && !a.production && !a.reversible
    case AuthorityScopeInvalid => state.OnHold? && !a.production && a.reversible && a.authorityScope.OtherScope?
    case AttemptEvidenceRequired =>
      state.OnHold? && !a.production && a.reversible && a.authorityScope.NonProdBranch? && !ValidRef(a.evidenceRef)
    case _ => false
  }

  /** The named validator, who is not the builder, gives evidence. */
  predicate ValidatorInOrder(spec: TaskSpec, v: ValidationResult) {
    v.validatorId == spec.validatorId != spec.builderId && ValidRef(v.evidenceRef)
  }

  predicate ValidatorAtFault(spec: TaskSpec, v: ValidationResult, reason: Reason) {
    match reason
    case ValidatorIdentityInvalid => v.validatorId != spec.validatorId || spec.validatorId == spec.builderId
    case ValidationEvidenceRequired =>
      v.validatorId == spec.validatorId && spec.validatorId != spec.builderId && !ValidRef(v.evidenceRef)
    case _ => false
  }

  /** The named certifier, who is neither builder nor validator, passes the report with evidence and up to the
      ceiling. */
  predicate Certifies(spec: TaskSpec, c: CertificationResult) {
    && c.certifierId == spec.certifierId && spec.certifierId != spec.builderId && spec.certifierId != spec.validatorId
    && c.passed && ValidRef(c.evidenceRef) && c.authorityCeiling == PreparePrCeiling
  }

  predicate CertifierAtFault(spec: TaskSpec, c: CertificationResult, reason: Reason) {
    var named := c.certifierId == spec.certifierId;
    var independent := named && spec.certifierId != spec.builderId && spec.certifierId != spec.validatorId;
    match reason
    case CertifierIdentityInvalid => !named
    case CertifierNotIndependent => named && !independent
    case CertificationFailed => independent && !c.passed
    case CertificationEvidenceRequired => independent && c.passed && !ValidRef(c.evidenceRef)
    case AuthorityCeilingInvalid =>
      independent && c.passed && ValidRef(c.evidenceRef) && c.authorityCeiling.OtherCeiling?
    case _ => false
  }

  /** The gates pass what is in order, and otherwise name the first fault. */
  lemma PreflightByFields(spec: TaskSpec)
    ensures Preflight(spec).None? <==> Runnable(spec)
    ensures Preflight(spec).Some? ==> StoppedBeforehand(spec, Preflight(spec).value.0, Preflight(spec).value.1)
  {
  }

  lemma AttemptGateByFields(a: AttemptResult)
    ensures AttemptGate(a).None? <==> InBounds(a)
    ensures AttemptGate(a).Some? ==> OutOfBounds(a, AttemptGate(a).value.0, AttemptGate(a).value.1)
  {
  }

  lemma ValidationGateByFields(spec: TaskSpec, v: ValidationResult)
    ensures ValidationGate(spec, v).None? <==> ValidatorInOrder(spec, v)
    ensures ValidationGate(spec, v).Some? ==> ValidatorAtFault(spec, v, ValidationGate(spec, v).value)
  {
  }

  lemma CertificationGateByFields(spec: TaskSpec, c: CertificationResult)
    ensures CertificationGate(spec, c).None? <==> Certifies(spec, c)
    ensures CertificationGate(spec, c).Some? ==> CertifierAtFault(spec, c, CertificationGate(spec, c).value)
  {
  }

  /** The answer that stands in for a validator who raised is in order, and fails the attempt. */
  lemma ExceptionIsInOrder(spec: TaskSpec)
    requires spec.validatorId != spec.builderId
    ensures ValidatorInOrder(spec, ValidationResult(false, spec.validatorId, EXCEPTION_REF))
  {
    assert StripLeft(EXCEPTION_REF) == EXCEPTION_REF && StripRight(EXCEPTION_REF) == EXCEPTION_REF;
    assert "urn:" <= EXCEPTION_REF;
  }

  // ---- One attempt, by the answers of the callbacks ---------------------------------------

  /** The answers of one scorer after another to an attempt's result. */
  function Answers(calls: Callbacks, a: AttemptResult, n: int): string -> Reading {
    (name: string) => calls.scorer(name, a.context, n)
  }

  /** The task as the validator sees it, in the attempt that began with `seen`. */
  function Judged(seen: TaskSnapshot): TaskSnapshot {
    seen.(state := Verifying, reason := AttemptReady)
  }

  /** The task as the certifier sees it. */
  function ScoredView(seen: TaskSnapshot): TaskSnapshot {
    seen.(state := Scored, reason := Reason.ScoringPassed)
  }

  /** The executor, seeing `seen`, gave a result within bounds. */
  predicate Produced(calls: Callbacks, seen: TaskSnapshot) {
    calls.executor(seen, seen.attempts).Returned? && InBounds(calls.executor(seen, seen.attempts).value)
  }

  function Attempted(calls: Callbacks, seen: TaskSnapshot): AttemptResult
    requires Produced(calls, seen)
  {
    calls.executor(seen, seen.attempts).value
  }

  function Validation(calls: Callbacks, seen: TaskSnapshot): Reply<ValidationResult>
    requires Produced(calls, seen)
  {
    calls.validator(Judged(seen), Attempted(calls, seen))
  }

  /** The result passed its tests and the validator. */
  predicate Validated(calls: Callbacks, seen: TaskSnapshot) {
    && Produced(calls, seen) && Attempted(calls, seen).testsPassed && Validation(calls, seen).Returned?
    && ValidatorInOrder(seen.spec, Validation(calls, seen).value) && Validation(calls, seen).value.passed
  }

  /** The report on a validated result. */
  ghost predicate ScoredBy(calls: Callbacks, rules: Rules, seen: TaskSnapshot, report: Report) {
    Validated(calls, seen) && IsReport(rules, Answers(calls, Attempted(calls, seen), seen.attempts), report)
  }

  /** The ways an attempt fails that another attempt may mend. */
  datatype Failure = ExecutorRaised | NotValidated | NotScored(verdict: Verdict)

  /** The executor raised; or its bounded result failed its tests or the validator, who raised or was in order; or
      it was validated and its report did not pass. */
  ghost predicate Fails(calls: Callbacks, rules: Rules, seen: TaskSnapshot, how: Failure) {
    match how
    case ExecutorRaised => calls.executor(seen, seen.attempts).Threw?
    case NotValidated =>
      && Produced(calls, seen) && !Validated(calls, seen)
      && (Validation(calls, seen).Threw? || ValidatorInOrder(seen.spec, Validation(calls, seen).value))
    case NotScored(verdict) =>
      exists report :: ScoredBy(calls, rules, seen, report) && !report.passed && report.verdict == verdict
  }

  /** The result is out of bounds. */
  predicate StopsAtResult(calls: Callbacks, seen: TaskSnapshot, state: TaskState, reason: Reason) {
    && calls.executor(seen, seen.attempts).Returned?
    && OutOfBounds(calls.executor(seen, seen.attempts).value, state, reason)
  }

  predicate StopsAtValidator(calls: Callbacks, seen: TaskSnapshot, reason: Reason) {
    && Produced(calls, seen) && Validation(calls, seen).Returned?
    && ValidatorAtFault(seen.spec, Validation(calls, seen).value, reason)
  }

  /** The fault that ends the run: in the result's bounds, with the validator, or, once the report passed, with the
      certifier, who may have raised. */
  ghost predicate Stops(calls: Callbacks, rules: Rules, seen: TaskSnapshot, state: TaskState, reason: Reason) {
    || StopsAtResult(calls, seen, state, reason)
    || (state.OnHold? && StopsAtValidator(calls, seen, reason))
    || (state.OnHold? && exists report :: CertificationStops(calls, rules, seen, report, reason))
  }

  ghost predicate CertificationStops(calls: Callbacks, rules: Rules, seen: TaskSnapshot, report: Report,
                                     reason: Reason) {
    ScoredBy(calls, rules, seen, report) && report.passed &&
    match calls.certifier(ScoredView(seen), report)
    case Threw => reason == Reason.CertificationException
    case Returned(c) => CertifierAtFault(seen.spec, c, reason)
  }

  predicate Approved(calls: Callbacks, seen: TaskSnapshot, report: Report) {
    && calls.certifier(ScoredView(seen), report).Returned?
    && Certifies(seen.spec, calls.certifier(ScoredView(seen), report).value)
  }

  /** The attempt passed everything: a bounded result with passing tests, the named validator's approval, a passing
      report, and the named, independent certifier's approval at the ceiling. */
  ghost predicate Earned(calls: Callbacks, rules: Rules, seen: TaskSnapshot) {
    exists report :: ScoredBy(calls, rules, seen, report) && report.passed && Approved(calls, seen, report)
  }

  /** Why a failed attempt is tried again; an executor that raised in remediation leaves the reason as it was. */
  function ReasonAgain(seen: TaskSnapshot, how: Failure): Reason {
    match how
    case ExecutorRaised => if seen.state.Active? then ExecutorExceptionRemediate else seen.reason
    case NotValidated => ValidationFailedRemediate
    case NotScored(_) => ScoringFailedRemediate
  }

  function ReasonExhausted(seen: TaskSnapshot, how: Failure): Reason {
    match how
    case ExecutorRaised => if seen.state.Active? then ExecutorExceptionExhausted else RemediationExhausted
    case NotValidated => RemediationBudgetExhausted
    case NotScored(verdict) => ScoringFailed(verdict)
  }

  /** Where a failed attempt leaves the task: in remediation while retries are left, rejected after that. */
  function AfterFailure(seen: TaskSnapshot, how: Failure): TaskSnapshot {
    if seen.attempts <= seen.spec.maxRemediationAttempts then
      seen.(state := Remediating, reason := ReasonAgain(seen, how))
    else seen.(state := Rejected, reason := ReasonExhausted(seen, how))
  }

  /** What the attempt that began with `seen` came to. */
  ghost predicate Outcome(calls: Callbacks, rules: Rules, seen: TaskSnapshot, after: TaskSnapshot) {
    || (exists how :: Fails(calls, rules, seen, how) && after == AfterFailure(seen, how))
    || (Earned(calls, rules, seen) && after == seen.(state := PreparePr, reason := CeilingReached))
    || (Stops(calls, rules, seen, after.state, after.reason)
        && after == seen.(state := after.state, reason := after.reason))
  }

  // ---- What an attempt leaves on the ledger -----------------------------------------------

  function Set(task: TaskSnapshot): Event {
    TaskStateSet(task.state, task.reason)
  }

  /** The events of an attempt whose executor raised: the exception, and how the task moved on, if it did. */
  function AfterRaising(seen: TaskSnapshot, after: TaskSnapshot): seq<Event> {
    [AttemptException(seen.attempts)] +
    if after.state == Rejected then [Set(after)]
    else if seen.state == Active then [TaskStateSet(Verifying, ExecutorExceptionReview), Set(after)]
    else []
  }

  /** The events of a result on its way to the validator. */
  function ToValidator(calls: Callbacks, seen: TaskSnapshot): seq<Event>
    requires Produced(calls, seen)
  {
    [TaskStateSet(Verifying, AttemptReady)] +
    if Validation(calls, seen).Threw? then [ValidationException(seen.attempts)] else []
  }

  /** The events that follow a passing report: it goes to the certifier, who may raise or refuse. */
  function AfterScoring(calls: Callbacks, seen: TaskSnapshot, report: Report, after: TaskSnapshot): seq<Event> {
    [Set(ScoredView(seen))] +
    if calls.certifier(ScoredView(seen), report).Threw? then [CertificationRaised, Set(after)]
    else if Approved(calls, seen, report) then
      [TaskStateSet(Certified, CertificationPassed), ReleaseCandidate, Set(after)]
    else [Set(after)]
  }

  /** The events that follow a validated result: the report, and what comes of it. */
  function AfterReport(calls: Callbacks, seen: TaskSnapshot, report: Report, after: TaskSnapshot): seq<Event> {
    [ScoreRecorded(report)] + if report.passed then AfterScoring(calls, seen, report, after) else [Set(after)]
  }

  /** The attempt that began with `seen` and left the task `after` left these events. */
  ghost predicate Leaves(calls: Callbacks, rules: Rules, seen: TaskSnapshot, after: TaskSnapshot, events: seq<Event>) {
    if calls.executor(seen, seen.attempts).Threw? then events == AfterRaising(seen, after)
    else if !Produced(calls, seen) then events == [Set(after)]
    else if !Validated(calls, seen) then events == ToValidator(calls, seen) + [Set(after)]
    else
      exists report :: ScoredBy(calls, rules, seen, report)
        && events == ToValidator(calls, seen) + AfterReport(calls, seen, report, after)
  }

  // ---- Whole runs, by the answers of the callbacks ----------------------------------------

  /** The task at the start of its first attempt. */
  function FirstView(id: string, spec: TaskSpec): TaskSnapshot {
    TaskSnapshot(id, Active, spec, 1, RunStarted)
  }

  /** An attempt failed with retries left, and the next began. */
  ghost predicate Retried(calls: Callbacks, rules: Rules, seen: TaskSnapshot, next: TaskSnapshot) {
    && seen.attempts <= seen.spec.maxRemediationAttempts
    && exists how :: Fails(calls, rules, seen, how) && next == AfterFailure(seen, how).(attempts := seen.attempts + 1)
  }

  /** The attempts of a run, each but the last a failed one. */
  ghost predicate Tries(calls: Callbacks, rules: Rules, views: seq<TaskSnapshot>) {
    && views != [] && views[0] == FirstView(views[0].taskId, views[0].spec)
    && forall i, j :: 0 <= i && j == i + 1 && j < |views| ==> Retried(calls, rules, views[i], views[j])
  }

  /** The run went through these attempts and ended with `r`. */
  ghost predicate Ran(calls: Callbacks, rules: Rules, views: seq<TaskSnapshot>, r: TaskSnapshot) {
    Tries(calls, rules, views) && Terminal(r.state) && Outcome(calls, rules, views[|views| - 1], r)
  }

  /** An attempt fails in one way at most, and then it neither stops the run nor earns the ceiling. */
  lemma FailsInOneWay(calls: Callbacks, rules: Rules, seen: TaskSnapshot, how: Failure)
    requires Fails(calls, rules, seen, how)
    ensures forall other :: Fails(calls, rules, seen, other) ==> other == how
    ensures !Earned(calls, rules, seen)
    ensures forall state, reason :: !Stops(calls, rules, seen, state, reason)
  {
    if Validated(calls, seen) {
      OneReport(calls, rules, seen);
    }
  }

  lemma OneReport(calls: Callbacks, rules: Rules, seen: TaskSnapshot)
    ensures forall r, r' :: ScoredBy(calls, rules, seen, r) && ScoredBy(calls, rules, seen, r') ==> r == r'
  {
    forall r, r' | ScoredBy(calls, rules, seen, r) && ScoredBy(calls, rules, seen, r') ensures r == r' {
      ReportIsUnique(rules, Answers(calls, Attempted(calls, seen), seen.attempts), r, r');
    }
  }

  lemma OneFaultOfResult(a: AttemptResult, state: TaskState, reason: Reason)
    requires OutOfBounds(a, state, reason)
    ensures !InBounds(a) && forall s, why :: OutOfBounds(a, s, why) ==> s == state && why == reason
  {
  }

  lemma OneFaultOfValidator(spec: TaskSpec, v: ValidationResult, reason: Reason)
    requires ValidatorAtFault(spec, v, reason)
    ensures !ValidatorInOrder(spec, v) && forall why :: ValidatorAtFault(spec, v, why) ==> why == reason
  {
  }

  lemma OneFaultOfCertifier(spec: TaskSpec, c: CertificationResult, reason: Reason)
    requires CertifierAtFault(spec, c, reason)
    ensures !Certifies(spec, c) && forall why :: CertifierAtFault(spec, c, why) ==> why == reason
  {
  }

  lemma ResultDecides(calls: Callbacks, seen: TaskSnapshot, state: TaskState, reason: Reason)
    requires StopsAtResult(calls, seen, state, reason)
    ensures !Produced(calls, seen)
    ensures forall s, why :: StopsAtResult(calls, seen, s, why) ==> s == state && why == reason
  {
    OneFaultOfResult(calls.executor(seen, seen.attempts).value, state, reason);
  }

  lemma ProducedIsInBounds(calls: Callbacks, seen: TaskSnapshot)
    requires Produced(calls, seen)
    ensures forall state, reason :: !StopsAtResult(calls, seen, state, reason)
  {
  }

  lemma ValidatorDecides(calls: Callbacks, seen: TaskSnapshot, reason: Reason)
    requires StopsAtValidator(calls, seen, reason)
    ensures Produced(calls, seen) && !Validated(calls, seen)
    ensures forall why :: StopsAtValidator(calls, seen, why) ==> why == reason
  {
    OneFaultOfValidator(seen.spec, Validation(calls, seen).value, reason);
  }

  lemma ValidatedIsInOrder(calls: Callbacks, seen: TaskSnapshot)
    requires Validated(calls, seen)
    ensures forall reason :: !StopsAtValidator(calls, seen, reason)
  {
  }

  lemma EarnedOrStopped(calls: Callbacks, rules: Rules, seen: TaskSnapshot, state: TaskState, reason: Reason)
    requires Stops(calls, rules, seen, state, reason)
    ensures !Earned(calls, rules, seen)
    ensures forall s, why :: Stops(calls, rules, seen, s, why) ==> s == state && why == reason
  {
    if StopsAtResult(calls, seen, state, reason) {
      ResultDecides(calls, seen, state, reason);
    } else if StopsAtValidator(calls, seen, reason) {
      ValidatorDecides(calls, seen, reason);
      ProducedIsInBounds(calls, seen);
    } else {
      CertifierDecides(calls, rules, seen, reason);
      ProducedIsInBounds(calls, seen);
      ValidatedIsInOrder(calls, seen);
    }
  }

  lemma CertifierDecides(calls: Callbacks, rules: Rules, seen: TaskSnapshot, reason: Reason)
    requires exists report :: CertificationStops(calls, rules, seen, report, reason)
    ensures Validated(calls, seen) && !Earned(calls, rules, seen)
    ensures forall report, why :: CertificationStops(calls, rules, seen, report, why) ==> why == reason
  {
    OneReport(calls, rules, seen);
    var report :| CertificationStops(calls, rules, seen, report, reason);
    var reply := calls.certifier(ScoredView(seen), report);
    if reply.Returned? {
      OneFaultOfCertifier(seen.spec, reply.value, reason);
    }
  }

  /** The answers of the callbacks leave an attempt one outcome. */
  lemma OneOutcome(calls: Callbacks, rules: Rules, seen: TaskSnapshot, a: TaskSnapshot, b: TaskSnapshot)
    requires Outcome(calls, rules, seen, a) && Outcome(calls, rules, seen, b)
    ensures a == b
  {
    if how :| Fails(calls, rules, seen, how) {
      FailsInOneWay(calls, rules, seen, how);
    } else if Stops(calls, rules, seen, a.state, a.reason) {
      EarnedOrStopped(calls, rules, seen, a.state, a.reason);
    } else if Stops(calls, rules, seen, b.state, b.reason) {
      EarnedOrStopped(calls, rules, seen, b.state, b.reason);
    }
  }

  lemma OneNext(calls: Callbacks, rules: Rules, seen: TaskSnapshot, a: TaskSnapshot, b: TaskSnapshot)
    requires Retried(calls, rules, seen, a) && Retried(calls, rules, seen, b)
    ensures a == b
  {
    var how :| Fails(calls, rules, seen, how) && a == AfterFailure(seen, how).(attempts := seen.attempts + 1);
    FailsInOneWay(calls, rules, seen, how);
  }

  /** The attempt that is retried is not the one that ends the run. */
  lemma RetriedIsNotTheEnd(calls: Callbacks, rules: Rules, seen: TaskSnapshot, next: TaskSnapshot, r: TaskSnapshot)
    requires Retried(calls, rules, seen, next) && Outcome(calls, rules, seen, r)
    ensures !Terminal(r.state)
  {
    var how :| Fails(calls, rules, seen, how) && next == AfterFailure(seen, how).(attempts := seen.attempts + 1);
    FailsInOneWay(calls, rules, seen, how);
  }

  lemma {:induction false} SameTries(calls: Callbacks, rules: Rules, a: seq<TaskSnapshot>, b: seq<TaskSnapshot>,
                                     i: nat)
    requires Tries(calls, rules, a) && Tries(calls, rules, b) && a[0] == b[0] && i < |a| && i < |b|
    ensures a[i] == b[i]
  {
    if i == 0 {
    } else {
      SameTries(calls, rules, a, b, i - 1);
      OneNext(calls, rules, a[i - 1], a[i], b[i]);
    }
  }

  /** The answers of the callbacks determine the whole run: which attempts are made, and how it ends. */
  lemma RunIsDetermined(calls: Callbacks, rules: Rules, a: seq<TaskSnapshot>, r: TaskSnapshot, b: seq<TaskSnapshot>,
                        s: TaskSnapshot)
    requires Ran(calls, rules, a, r) && Ran(calls, rules, b, s) && a[0] == b[0]
    ensures a == b && r == s
  {
    forall i | 0 <= i < |a| && i < |b| ensures a[i] == b[i] {
      SameTries(calls, rules, a, b, i);
    }
    if |a| < |b| {
      RetriedIsNotTheEnd(calls, rules, a[|a| - 1], b[|a|], r);
    } else if |b| < |a| {
      RetriedIsNotTheEnd(calls, rules, b[|b| - 1], a[|b|], s);
    } else {
      assert a == b;
      OneOutcome(calls, rules, a[|a| - 1], r, s);
    }
  }

  /** A run ends at PREPARE_PR exactly when its attempts lead to one that earns it; that is then the first that did
      not fail, and the run's last. */
  lemma CeilingExactlyWhenEarned(calls: Callbacks, rules: Rules, views: seq<TaskSnapshot>, r: TaskSnapshot)
    requires Ran(calls, rules, views, r)
    ensures r.state == PreparePr <==> Earned(calls, rules, views[|views| - 1])
    ensures forall tries :: Tries(calls, rules, tries) && tries[0] == views[0] && Earned(calls, rules, Last(tries)) ==>
      tries == views && r.state == PreparePr
  {
    var last := views[|views| - 1];
    forall tries | Tries(calls, rules, tries) && tries[0] == views[0] && Earned(calls, rules, Last(tries))
      ensures tries == views && r.state == PreparePr
    {
      var end := Last(tries).(state := PreparePr, reason := CeilingReached);
      assert Outcome(calls, rules, Last(tries), end);
      RunIsDetermined(calls, rules, views, r, tries, end);
    }
    if Earned(calls, rules, last) {
      assert Last(views) == last;
    }
  }

  function Last(views: seq<TaskSnapshot>): TaskSnapshot
    requires views != []
  {
    views[|views| - 1]
  }

  /** Where the `k`-th attempt left the task. */
  function Left(views: seq<TaskSnapshot>, r: TaskSnapshot, k: nat): TaskSnapshot
    requires k < |views|
  {
    if k == |views| - 1 then r else views[k + 1].(attempts := views[k].attempts)
  }

  /** Each attempt left its part. */
  ghost predicate Parts(calls: Callbacks, rules: Rules, views: seq<TaskSnapshot>, r: TaskSnapshot,
                        parts: seq<seq<Event>>) {
    && |parts| == |views|
    && forall k :: 0 <= k < |views| ==> Leaves(calls, rules, views[k], Left(views, r, k), parts[k])
  }

  /** The parts one after the other, each behind the number of its attempt. */
  function Story(parts: seq<seq<Event>>): seq<Event> {
    if parts == [] then []
    else Story(parts[..|parts| - 1]) + [AttemptStarted(Some(|parts|))] + parts[|parts| - 1]
  }

  /** What a run leaves on the ledger. */
  ghost predicate Tells(calls: Callbacks, rules: Rules, task: TaskSnapshot, views: seq<TaskSnapshot>, r: TaskSnapshot,
                        parts: seq<seq<Event>>, events: seq<Event>) {
    if Runnable(task.spec) then
      Parts(calls, rules, views, r, parts) && events == [TaskStateSet(Active, RunStarted)] + Story(parts)
    else events == [Set(r)]
  }

  /** The events as entries of one task. */
  function Stamp(id: string, events: seq<Event>): seq<Entry> {
    seq(|events|, i requires 0 <= i < |events| => Entry(id, events[i]))
  }

  lemma StampOneMore(log: seq<Entry>, id: string, events: seq<Event>, e: Event)
    ensures log + Stamp(id, events + [e]) == log + Stamp(id, events) + [Entry(id, e)]
  {
    assert Stamp(id, events + [e]) == Stamp(id, events) + [Entry(id, e)];
  }

  /** What becomes of a queued task. */
  ghost predicate RunOf(calls: Callbacks, rules: Rules, task: TaskSnapshot, views: seq<TaskSnapshot>,
                        r: TaskSnapshot) {
    if Runnable(task.spec) then
      && Ran(calls, rules, views, r) && views[0] == FirstView(task.taskId, task.spec)
      && r.attempts == |views| <= task.spec.maxRemediationAttempts + 1
    else
      && StoppedBeforehand(task.spec, r.state, r.reason)
      && r == task.(state := r.state, reason := r.reason)
  }

  // ---- What the methods establish ---------------------------------------------------------

  lemma FailedOutcome(calls: Callbacks, rules: Rules, seen: TaskSnapshot, how: Failure)
    requires Fails(calls, rules, seen, how)
    ensures Outcome(calls, rules, seen, AfterFailure(seen, how))
  {
  }

  lemma HeldByValidator(calls: Callbacks, rules: Rules, seen: TaskSnapshot, reason: Reason)
    requires Produced(calls, seen) && Validation(calls, seen).Returned?
    requires ValidatorAtFault(seen.spec, Validation(calls, seen).value, reason)
    ensures Outcome(calls, rules, seen, seen.(state := OnHold, reason := reason))
  {
  }

  lemma HeldByCertifier(calls: Callbacks, rules: Rules, seen: TaskSnapshot, report: Report, reason: Reason)
    requires CertificationStops(calls, rules, seen, report, reason)
    ensures Outcome(calls, rules, seen, seen.(state := OnHold, reason := reason))
  {
  }

  lemma AtTheCeiling(calls: Callbacks, rules: Rules, seen: TaskSnapshot, report: Report)
    requires ScoredBy(calls, rules, seen, report) && report.passed && Approved(calls, seen, report)
    ensures Outcome(calls, rules, seen, seen.(state := PreparePr, reason := CeilingReached))
  {
  }

  /** The validator's answer, or what stands in for it when the validator raised. */
  predicate Answered(calls: Callbacks, seen: TaskSnapshot, v: ValidationResult)
    requires Produced(calls, seen)
  {
    match Validation(calls, seen)
    case Threw => v == ValidationResult(false, seen.spec.validatorId, EXCEPTION_REF)
    case Returned(given) => v == given
  }

  /** What it comes to. */
  lemma ValidatorReply(calls: Callbacks, rules: Rules, seen: TaskSnapshot, v: ValidationResult)
    requires Produced(calls, seen) && seen.spec.validatorId != seen.spec.builderId
    requires Answered(calls, seen, v)
    ensures ValidationGate(seen.spec, v).Some? ==>
      Outcome(calls, rules, seen, seen.(state := OnHold, reason := ValidationGate(seen.spec, v).value))
    ensures ValidationGate(seen.spec, v).None? ==>
      if Attempted(calls, seen).testsPassed && v.passed then Validated(calls, seen)
      else Fails(calls, rules, seen, NotValidated)
  {
    ExceptionIsInOrder(seen.spec);
    ValidationGateByFields(seen.spec, v);
    if ValidationGate(seen.spec, v).Some? {
      HeldByValidator(calls, rules, seen, ValidationGate(seen.spec, v).value);
    }
  }

  /** What the certifier's reply comes to. */
  lemma CertifierReply(calls: Callbacks, rules: Rules, seen: TaskSnapshot, report: Report)
    requires ScoredBy(calls, rules, seen, report) && report.passed
    ensures
      match calls.certifier(ScoredView(seen), report)
      case Threw => Outcome(calls, rules, seen, seen.(state := OnHold, reason := Reason.CertificationException))
      case Returned(c) =>
        var refused := CertificationGate(seen.spec, c);
        Outcome(calls, rules, seen,
                if refused.Some? then seen.(state := OnHold, reason := refused.value)
                else seen.(state := PreparePr, reason := CeilingReached))
  {
    match calls.certifier(ScoredView(seen), report)
    case Threw => HeldByCertifier(calls, rules, seen, report, Reason.CertificationException);
    case Returned(c) =>
      CertificationGateByFields(seen.spec, c);
      if CertificationGate(seen.spec, c).Some? {
        HeldByCertifier(calls, rules, seen, report, CertificationGate(seen.spec, c).value);
      } else {
        AtTheCeiling(calls, rules, seen, report);
      }
  }

  /** The run as a finished one, or `None` when another attempt is due. */
  function Ended(after: TaskSnapshot): Option<TaskSnapshot> {
    if Terminal(after.state) then Some(after) else None
  }

  /** The task as its next attempt begins. */
  function Next(task: TaskSnapshot): TaskSnapshot {
    task.(attempts := task.attempts + 1)
  }

  /** After the failed attempts `views` the task stands at `now`, and another attempt is due. */
  ghost predicate UnderWay(calls: Callbacks, rules: Rules, id: string, spec: TaskSpec, views: seq<TaskSnapshot>,
                           now: TaskSnapshot) {
    && now.taskId == id && now.spec == spec && now.attempts == |views| <= spec.maxRemediationAttempts
    && (now.state == Active || now.state == Remediating)
    && Tries(calls, rules, views + [Next(now)]) && (views + [Next(now)])[0] == FirstView(id, spec)
  }

  lemma NextTry(calls: Callbacks, rules: Rules, id: string, spec: TaskSpec, views: seq<TaskSnapshot>,
                now: TaskSnapshot, after: TaskSnapshot)
    requires UnderWay(calls, rules, id, spec, views, now) && Outcome(calls, rules, Next(now), after)
    ensures
      if Terminal(after.state) then
        && Ran(calls, rules, views + [Next(now)], after) && after.taskId == id
        && after.attempts == |views| + 1 <= spec.maxRemediationAttempts + 1
      else UnderWay(calls, rules, id, spec, views + [Next(now)], after)
  {
    if !Terminal(after.state) {
      assert Retried(calls, rules, Next(now), Next(after));
      TriesGrow(calls, rules, views + [Next(now)], Next(after));
    }
  }

  lemma TriesGrow(calls: Callbacks, rules: Rules, views: seq<TaskSnapshot>, next: TaskSnapshot)
    requires Tries(calls, rules, views) && Retried(calls, rules, Last(views), next)
    ensures Tries(calls, rules, views + [next]) && (views + [next])[0] == views[0]
  {
  }

  lemma LeavesReport(calls: Callbacks, rules: Rules, seen: TaskSnapshot, report: Report, after: TaskSnapshot,
                     more: seq<Event>)
    requires ScoredBy(calls, rules, seen, report) && more == AfterReport(calls, seen, report, after)
    ensures Leaves(calls, rules, seen, after, ToValidator(calls, seen) + more)
  {
  }

  lemma StoryGrows(events: seq<Event>, parts: seq<seq<Event>>, more: seq<Event>, n: int)
    requires n == |parts| + 1
    ensures events + Story(parts) + [AttemptStarted(Some(n))] + more == events + Story(parts + [more])
  {
    assert (parts + [more])[..|parts|] == parts;
    var told := Story(parts);
    Joined(events, told, [AttemptStarted(Some(n))]);
    Joined(events, told + [AttemptStarted(Some(n))], more);
  }

  /** The failed attempts so far have left their parts. */
  ghost predicate SoFar(calls: Callbacks, rules: Rules, views: seq<TaskSnapshot>, now: TaskSnapshot,
                        parts: seq<seq<Event>>) {
    if views == [] then parts == [] else Parts(calls, rules, views, now, parts)
  }

  /** One more attempt: the run has ended with it, or another is due. */
  lemma Advance(calls: Callbacks, rules: Rules, id: string, spec: TaskSpec, views: seq<TaskSnapshot>,
                now: TaskSnapshot, begun: TaskSnapshot, after: TaskSnapshot, parts: seq<seq<Event>>, more: seq<Event>)
    requires UnderWay(calls, rules, id, spec, views, now) && SoFar(calls, rules, views, now, parts)
    requires begun == Next(now)
    requires Outcome(calls, rules, begun, after) && Leaves(calls, rules, begun, after, more)
    ensures
      if Terminal(after.state) then
        && Ran(calls, rules, views + [begun], after) && after.taskId == id
        && after.attempts == |views| + 1 <= spec.maxRemediationAttempts + 1
      else UnderWay(calls, rules, id, spec, views + [begun], after)
    ensures |parts| == |views| && Parts(calls, rules, views + [begun], after, parts + [more])
    ensures (views + [begun])[0] == FirstView(id, spec)
  {
    NextTry(calls, rules, id, spec, views, now, after);
    if views != [] {
      var all := views + [Next(now)];
      assert Retried(calls, rules, all[|views| - 1], all[|views|]);
    }
    OneMorePart(calls, rules, views, now, after, parts, more);
  }

  lemma OneMorePart(calls: Callbacks, rules: Rules, views: seq<TaskSnapshot>, now: TaskSnapshot, after: TaskSnapshot,
                    parts: seq<seq<Event>>, more: seq<Event>)
    requires SoFar(calls, rules, views, now, parts) && Leaves(calls, rules, Next(now), after, more)
    requires views != [] ==> Last(views).attempts == now.attempts
    ensures Parts(calls, rules, views + [Next(now)], after, parts + [more])
  {
    var all := views + [Next(now)];
    forall k | 0 <= k < |all| ensures Leaves(calls, rules, all[k], Left(all, after, k), (parts + [more])[k]) {
      if k < |views| {
        assert Leaves(calls, rules, views[k], Left(views, now, k), parts[k]);
        LeftAgrees(views, now, after, k);
      }
    }
  }

  lemma LeftAgrees(views: seq<TaskSnapshot>, now: TaskSnapshot, after: TaskSnapshot, k: nat)
    requires k < |views| && (k == |views| - 1 ==> views[k].attempts == now.attempts)
    ensures Left(views + [Next(now)], after, k) == Left(views, now, k)
  {
  }

  lemma Nothing(events: seq<Event>)
    ensures events + [] == events && [] + events == events && events + Story([]) == events
  {
  }

  lemma Two(events: seq<Event>, a: Event, b: Event)
    ensures events + [a] + [b] == events + [a, b] && [a] + [b] == [a, b]
    ensures [a] + [] == [a]
  {
  }

  lemma Three(events: seq<Event>, a: Event, b: Event, c: Event)
    ensures events + [a] + [b] + [c] == events + [a, b, c] && [a] + [b, c] == [a, b, c]
  {
  }

  lemma Behind(events: seq<Event>, a: Event, more: seq<Event>)
    ensures events + [a] + more == events + ([a] + more)
  {
  }

  lemma Joined(events: seq<Event>, a: seq<Event>, b: seq<Event>)
    ensures events + a + b == events + (a + b)
  {
  }

  lemma RunKeepsBudget(calls: Callbacks, rules: Rules, task: TaskSnapshot, views: seq<TaskSnapshot>, r: TaskSnapshot)
    requires RunOf(calls, rules, task, views, r) && task.attempts == 0 && task.spec.maxRemediationAttempts >= 0
    ensures Terminal(r.state) && 0 <= r.attempts <= task.spec.maxRemediationAttempts + 1
  {
  }

  /** `later` differs from `before` in one task only, whose specification is what it was. */
  ghost predicate OnlyTask(before: Tasks, later: Tasks, id: string) {
    && later.Keys == before.Keys && id in before
    && later[id].spec == before[id].spec
    && forall other :: other in before && other != id ==> later[other] == before[other]
  }

  lemma OnlyTaskKeepsBudget(before: Tasks, later: Tasks, id: string)
    requires WithinBudget(before) && OnlyTask(before, later, id)
    requires later[id].taskId == id && !later[id].state.Queued?
    requires 0 <= later[id].attempts <= later[id].spec.maxRemediationAttempts + 1
    ensures WithinBudget(later)
  {
  }

  /** The ledger and the board as a run finds them. */
  datatype Start = Start(log: seq<Entry>, tasks: Tasks)

  class Runtime {
    const board: Board
    const registry: ScorerRegistry
    const clock: int

    constructor (board: Board, registry: ScorerRegistry, clock: int)
      ensures this.board == board && this.registry == registry && this.clock == clock
    {
      this.board, this.registry, this.clock := board, registry, clock;
    }

    /** The run has touched nothing but its own task, which is now `task`, and has left these events. */
    ghost predicate Now(start: Start, events: seq<Event>, task: TaskSnapshot)
      reads board, board.ledger
    {
      && board.Sound() && WellFormedMac(board.ledger.mac)
      && board.ledger.Log() == start.log + Stamp(task.taskId, events)
      && OnlyTask(start.tasks, board.Tasks(), task.taskId) && board.Tasks()[task.taskId] == task
    }

    /** A transition the table allows; it cannot raise. */
    method Move(ghost start: Start, ghost events: seq<Event>, id: string, ghost task: TaskSnapshot, to: TaskState,
                reason: Reason)
      returns (r: TaskSnapshot)
      requires Now(start, events, task) && task.taskId == id && CanMove(task.state, to)
      modifies board, board.ledger
      ensures r == task.(state := to, reason := reason) && Now(start, events + [TaskStateSet(to, reason)], r)
    {
      StampOneMore(start.log, id, events, TaskStateSet(to, reason));
      var moved := board.Transition(id, to, reason, clock);
      assert moved.Ok?;
      r := moved.value;
    }

    /** The next attempt, while the budget lasts; it cannot raise. */
    method Begin(ghost start: Start, ghost events: seq<Event>, id: string, ghost task: TaskSnapshot)
      returns (r: TaskSnapshot)
      requires Now(start, events, task) && task.taskId == id && (task.state == Active || task.state == Remediating)
      requires task.attempts <= task.spec.maxRemediationAttempts
      modifies board, board.ledger
      ensures r == Next(task) && Now(start, events + [AttemptStarted(Some(r.attempts))], r)
    {
      StampOneMore(start.log, id, events, AttemptStarted(Some(task.attempts + 1)));
      var begun := board.StartAttempt(id, clock);
      assert begun.Ok?;
      r := begun.value;
    }

    method Jot(ghost start: Start, ghost events: seq<Event>, id: string, ghost task: TaskSnapshot, e: Event)
      requires Now(start, events, task) && task.taskId == id && IsNote(e)
      modifies board.ledger
      ensures Now(start, events + [e], task)
    {
      StampOneMore(start.log, id, events, e);
      var noted := board.Remark(Entry(id, e), clock);
    }

    method Look(ghost start: Start, ghost events: seq<Event>, id: string, ghost task: TaskSnapshot)
      returns (r: TaskSnapshot)
      requires Now(start, events, task) && task.taskId == id
      modifies board
      ensures r == task && Now(start, events, task)
    {
      var got := board.Get(id);
      assert got.Ok?;
      r := got.value;
    }

    /** The executor raised with retries left: back to remediation. As no callback writes to the board, the third
        branch, a hold because the task is neither active nor in remediation, is never reached. */
    method Remediate(ghost start: Start, ghost events: seq<Event>, id: string, ghost task: TaskSnapshot)
      returns (ghost more: seq<Event>)
      requires Now(start, events, task) && task.taskId == id && (task.state == Active || task.state == Remediating)
      requires task.attempts <= task.spec.maxRemediationAttempts
      modifies board, board.ledger
      ensures Now(start, events + more, AfterFailure(task, ExecutorRaised))
      ensures [AttemptException(task.attempts)] + more == AfterRaising(task, AfterFailure(task, ExecutorRaised))
    {
      var current := Look(start, events, id, task);
      more := [];
      Nothing(events);
      if current.state.Active? {
        var reviewed := Move(start, events, id, task, Verifying, ExecutorExceptionReview);
        var review := TaskStateSet(Verifying, ExecutorExceptionReview);
        var again := Move(start, events + [review], id, reviewed, Remediating, ExecutorExceptionRemediate);
        more := [review, Set(again)];
        Two(events, review, Set(again));
      } else if !current.state.Remediating? {
        assert false;
      }
    }

    /** The executor raised: try again while the budget lasts, otherwise reject. `None` means try again. */
    method AfterException(ghost start: Start, ghost events: seq<Event>, id: string, ghost calls: Callbacks,
                          task: TaskSnapshot, ghost rules: Rules)
      returns (r: Option<TaskSnapshot>, ghost after: TaskSnapshot, ghost more: seq<Event>)
      requires Now(start, events, task) && task.taskId == id && (task.state == Active || task.state == Remediating)
      requires calls.executor(task, task.attempts).Threw?
      modifies board, board.ledger
      ensures Now(start, events + more, after) && r == Ended(after)
      ensures Outcome(calls, rules, task, after) && Leaves(calls, rules, task, after, more)
    {
      after := AfterFailure(task, ExecutorRaised);
      FailedOutcome(calls, rules, task, ExecutorRaised);
      Jot(start, events, id, task, AttemptException(task.attempts));
      ghost var noted := events + [AttemptException(task.attempts)];
      if task.attempts <= task.spec.maxRemediationAttempts {
        ghost var rest := Remediate(start, noted, id, task);
        Behind(events, AttemptException(task.attempts), rest);
        return None, after, [AttemptException(task.attempts)] + rest;
      }
      var current := Look(start, noted, id, task);
      var why := if current.state.Active? then ExecutorExceptionExhausted else RemediationExhausted;
      var rejected := Move(start, noted, id, task, Rejected, why);
      Two(events, AttemptException(task.attempts), Set(rejected));
      return Some(rejected), rejected, [AttemptException(task.attempts), Set(rejected)];
    }

    /** A failed attempt goes to remediation while the budget lasts, and is rejected otherwise. */
    method RetryOrReject(ghost start: Start, ghost events: seq<Event>, id: string, task: TaskSnapshot, n: int,
                         again: Reason, exhausted: Reason, ghost seen: TaskSnapshot, ghost how: Failure)
      returns (r: Option<TaskSnapshot>, ghost after: TaskSnapshot)
      requires Now(start, events, task) && task.taskId == id && task == Judged(seen) && seen.attempts == n
      requires again == ReasonAgain(seen, how) && exhausted == ReasonExhausted(seen, how)
      modifies board, board.ledger
      ensures after == AfterFailure(seen, how) && Now(start, events + [Set(after)], after) && r == Ended(after)
    {
      if n <= task.spec.maxRemediationAttempts {
        var retried := Move(start, events, id, task, Remediating, again);
        return None, retried;
      }
      var rejected := Move(start, events, id, task, Rejected, exhausted);
      return Some(rejected), rejected;
    }

    /** One attempt, once it has begun; `None` means try again. */
    method Attempt(ghost start: Start, ghost events: seq<Event>, id: string, calls: Callbacks, begun: TaskSnapshot,
                   ghost rules: Rules)
      returns (r: Option<TaskSnapshot>, ghost after: TaskSnapshot, ghost more: seq<Event>)
      requires Now(start, events, begun) && begun.taskId == id && (begun.state == Active || begun.state == Remediating)
      requires Runnable(begun.spec) && registry.JudgesBy() == rules && Registered(rules.specs)
      modifies board, board.ledger
      ensures Now(start, events + more, after) && r == Ended(after)
      ensures Outcome(calls, rules, begun, after) && Leaves(calls, rules, begun, after, more)
    {
      var reply := calls.executor(begun, begun.attempts);
      if reply.Threw? {
        r, after, more := AfterException(start, events, id, calls, begun, rules);
      } else {
        r, after, more := AfterExecution(start, events, id, reply.value, calls, begun, rules);
      }
    }

    /** The executor returned: a result out of bounds ends the run, any other is verified. */
    method AfterExecution(ghost start: Start, ghost events: seq<Event>, id: string, a: AttemptResult, calls: Callbacks,
                          begun: TaskSnapshot, ghost rules: Rules)
      returns (r: Option<TaskSnapshot>, ghost after: TaskSnapshot, ghost more: seq<Event>)
      requires Now(start, events, begun) && begun.taskId == id && (begun.state == Active || begun.state == Remediating)
      requires Runnable(begun.spec) && registry.JudgesBy() == rules && Registered(rules.specs)
      requires calls.executor(begun, begun.attempts) == Returned(a)
      modifies board, board.ledger
      ensures Now(start, events + more, after) && r == Ended(after)
      ensures Outcome(calls, rules, begun, after) && Leaves(calls, rules, begun, after, more)
    {
      var gate := AttemptGate(a);
      AttemptGateByFields(a);
      if gate.Some? {
        var stopped := Move(start, events, id, begun, gate.value.0, gate.value.1);
        return Some(stopped), stopped, [Set(stopped)];
      }
      r, after, more := Verify(start, events, id, a, calls, begun.attempts, begun, rules);
    }

    /** A result to be verified: validated, scored, certified; `None` means try again. */
    method Verify(ghost start: Start, ghost events: seq<Event>, id: string, a: AttemptResult, calls: Callbacks, n: int,
                  ghost seen: TaskSnapshot, ghost rules: Rules)
      returns (r: Option<TaskSnapshot>, ghost after: TaskSnapshot, ghost more: seq<Event>)
      requires Now(start, events, seen) && seen.taskId == id && (seen.state == Active || seen.state == Remediating)
      requires seen.attempts == n && Produced(calls, seen) && Attempted(calls, seen) == a
      requires Runnable(seen.spec) && registry.JudgesBy() == rules && Registered(rules.specs)
      modifies board, board.ledger
      ensures Now(start, events + more, after) && r == Ended(after)
      ensures Outcome(calls, rules, seen, after) && Leaves(calls, rules, seen, after, more)
    {
      var task, reply := AskValidator(start, events, id, a, calls, n, seen);
      var validation :=
        if reply.Threw? then ValidationResult(false, task.spec.validatorId, EXCEPTION_REF) else reply.value;
      ghost var to := ToValidator(calls, seen);
      r, after, more := AfterValidation(start, events + to, id, a, calls, n, seen, task, validation, rules);
      Joined(events, to, more);
      more := to + more;
    }

    /** The task goes to the validator, who may raise. */
    method AskValidator(ghost start: Start, ghost events: seq<Event>, id: string, a: AttemptResult, calls: Callbacks,
                        n: int, ghost seen: TaskSnapshot)
      returns (task: TaskSnapshot, reply: Reply<ValidationResult>)
      requires Now(start, events, seen) && seen.taskId == id && (seen.state == Active || seen.state == Remediating)
      requires seen.attempts == n && Produced(calls, seen) && Attempted(calls, seen) == a
      modifies board, board.ledger
      ensures task == Judged(seen) && reply == Validation(calls, seen)
      ensures Now(start, events + ToValidator(calls, seen), task)
    {
      var ready := Move(start, events, id, seen, Verifying, AttemptReady);
      ghost var to := events + [Set(ready)];
      task := Look(start, to, id, Judged(seen));
      reply := calls.validator(task, a);
      if reply.Threw? {
        Jot(start, to, id, task, Event.ValidationException(n));
      }
      Two(events, Set(ready), Event.ValidationException(n));
    }

    /** The validator's answer decides: held, tried again or rejected, or scored. */
    method AfterValidation(ghost start: Start, ghost events: seq<Event>, id: string, a: AttemptResult, calls: Callbacks,
                           n: int, ghost seen: TaskSnapshot, task: TaskSnapshot, validation: ValidationResult,
                           ghost rules: Rules)
      returns (r: Option<TaskSnapshot>, ghost after: TaskSnapshot, ghost more: seq<Event>)
      requires Now(start, events, task) && task == Judged(seen) && task.taskId == id
      requires Produced(calls, seen) && Attempted(calls, seen) == a && seen.attempts == n
      requires Answered(calls, seen, validation) && Runnable(seen.spec)
      requires registry.JudgesBy() == rules && Registered(rules.specs)
      modifies board, board.ledger
      ensures Now(start, events + more, after) && r == Ended(after)
      ensures Outcome(calls, rules, seen, after) && Leaves(calls, rules, seen, after, ToValidator(calls, seen) + more)
    {
      ValidatorReply(calls, rules, seen, validation);
      var refused := ValidationGate(task.spec, validation);
      if refused.Some? {
        var held := Move(start, events, id, task, OnHold, refused.value);
        return Some(held), held, [Set(held)];
      }
      if !a.testsPassed || !validation.passed {
        r, after := RetryOrReject(start, events, id, task, n, ValidationFailedRemediate, RemediationBudgetExhausted,
                                  seen, NotValidated);
        FailedOutcome(calls, rules, seen, NotValidated);
        return r, after, [Set(after)];
      }
      r, after, more := ScoreIt(start, events, id, a, calls, n, seen, task, rules);
    }

    /** A validated result is scored, and certified if it passes; `None` means try again. */
    method ScoreIt(ghost start: Start, ghost events: seq<Event>, id: string, a: AttemptResult, calls: Callbacks, n: int,
                   ghost seen: TaskSnapshot, task: TaskSnapshot, ghost rules: Rules)
      returns (r: Option<TaskSnapshot>, ghost after: TaskSnapshot, ghost more: seq<Event>)
      requires Now(start, events, task) && task == Judged(seen) && task.taskId == id
      requires Validated(calls, seen) && Attempted(calls, seen) == a && seen.attempts == n
      requires registry.JudgesBy() == rules && Registered(rules.specs)
      modifies board, board.ledger
      ensures Now(start, events + more, after) && r == Ended(after)
      ensures Outcome(calls, rules, seen, after) && Leaves(calls, rules, seen, after, ToValidator(calls, seen) + more)
    {
      var report := AskScorers(start, events, id, a, calls, n, seen, task, rules);
      if !report.passed {
        r, after, more := LowScore(start, events, id, calls, n, seen, task, report, rules);
      } else {
        var final;
        final, more := Certify(start, events + [ScoreRecorded(report)], id, calls, seen, report, rules);
        Behind(events, ScoreRecorded(report), more);
        r, after, more := Some(final), final, [ScoreRecorded(report)] + more;
      }
      LeavesReport(calls, rules, seen, report, after, more);
    }

    /** A report that did not pass fails the attempt. */
    method LowScore(ghost start: Start, ghost events: seq<Event>, id: string, ghost calls: Callbacks, n: int,
                    ghost seen: TaskSnapshot, task: TaskSnapshot, report: Report, ghost rules: Rules)
      returns (r: Option<TaskSnapshot>, ghost after: TaskSnapshot, ghost more: seq<Event>)
      requires Now(start, events + [ScoreRecorded(report)], task) && task == Judged(seen) && task.taskId == id
      requires seen.attempts == n && ScoredBy(calls, rules, seen, report) && !report.passed
      modifies board, board.ledger
      ensures Now(start, events + more, after) && r == Ended(after)
      ensures Outcome(calls, rules, seen, after) && more == AfterReport(calls, seen, report, after)
    {
      ghost var how := NotScored(report.verdict);
      r, after := RetryOrReject(start, events + [ScoreRecorded(report)], id, task, n, ScoringFailedRemediate,
                                ScoringFailed(report.verdict), seen, how);
      FailedOutcome(calls, rules, seen, how);
      Two(events, ScoreRecorded(report), Set(after));
      more := [ScoreRecorded(report), Set(after)];
    }

    /** The scorers' report, on record. */
    method AskScorers(ghost start: Start, ghost events: seq<Event>, id: string, a: AttemptResult, calls: Callbacks,
                      n: int, ghost seen: TaskSnapshot, ghost task: TaskSnapshot, ghost rules: Rules)
      returns (report: Report)
      requires Now(start, events, task) && task.taskId == id
      requires Validated(calls, seen) && Attempted(calls, seen) == a && seen.attempts == n
      requires registry.JudgesBy() == rules && Registered(rules.specs)
      modifies board.ledger
      ensures ScoredBy(calls, rules, seen, report) && Now(start, events + [ScoreRecorded(report)], task)
    {
      report := registry.Evaluate(Answers(calls, a, n));
      Jot(start, events, id, task, ScoreRecorded(report));
    }

    /** A scored task meets its certifier: PREPARE_PR, or held. */
    method Certify(ghost start: Start, ghost events: seq<Event>, id: string, calls: Callbacks,
                   ghost seen: TaskSnapshot, report: Report, ghost rules: Rules)
      returns (r: TaskSnapshot, ghost more: seq<Event>)
      requires Now(start, events, Judged(seen)) && seen.taskId == id
      requires ScoredBy(calls, rules, seen, report) && report.passed
      modifies board, board.ledger
      ensures Now(start, events + more, r) && Terminal(r.state)
      ensures Outcome(calls, rules, seen, r)
      ensures more == AfterScoring(calls, seen, report, r)
    {
      var passed := Move(start, events, id, Judged(seen), Scored, Reason.ScoringPassed);
      ghost var scored := events + [Set(passed)];
      var task := Look(start, scored, id, ScoredView(seen));
      var reply := calls.certifier(task, report);
      CertifierReply(calls, rules, seen, report);
      if reply.Threw? {
        Jot(start, scored, id, task, CertificationRaised);
        r := Move(start, scored + [CertificationRaised], id, task, OnHold, Reason.CertificationException);
        more := [Set(passed), CertificationRaised, Set(r)];
        Three(events, Set(passed), CertificationRaised, Set(r));
        return;
      }
      var refused := CertificationGate(task.spec, reply.value);
      CertificationGateByFields(task.spec, reply.value);
      if refused.Some? {
        r := Move(start, scored, id, task, OnHold, refused.value);
        more := [Set(passed), Set(r)];
        Two(events, Set(passed), Set(r));
        return;
      }
      r, more := Promote(start, scored, id, task);
      Behind(events, Set(passed), more);
      more := [Set(passed)] + more;
    }

    /** A certified task becomes a release candidate, at the ceiling. */
    method Promote(ghost start: Start, ghost events: seq<Event>, id: string, ghost task: TaskSnapshot)
      returns (r: TaskSnapshot, ghost more: seq<Event>)
      requires Now(start, events, task) && task.taskId == id && task.state == Scored
      modifies board, board.ledger
      ensures r == task.(state := PreparePr, reason := CeilingReached) && Now(start, events + more, r)
      ensures more == [TaskStateSet(Certified, CertificationPassed), ReleaseCandidate, Set(r)]
    {
      var certified := Move(start, events, id, task, Certified, CertificationPassed);
      ghost var named := events + [Set(certified)];
      Jot(start, named, id, certified, ReleaseCandidate);
      r := Move(start, named + [ReleaseCandidate], id, certified, PreparePr, CeilingReached);
      more := [Set(certified), ReleaseCandidate, Set(r)];
      Three(events, Set(certified), ReleaseCandidate, Set(r));
    }

    /** Attempts until one ends the task; the budget bounds their number. */
    method Attempts(ghost start: Start, ghost events: seq<Event>, id: string, calls: Callbacks,
                    ghost task: TaskSnapshot, ghost rules: Rules)
      returns (r: TaskSnapshot, ghost views: seq<TaskSnapshot>, ghost parts: seq<seq<Event>>)
      requires Now(start, events, task) && task == TaskSnapshot(id, Active, task.spec, 0, RunStarted)
      requires task.spec.maxRemediationAttempts >= 0 && Runnable(task.spec)
      requires registry.JudgesBy() == rules && Registered(rules.specs)
      modifies board, board.ledger
      ensures Now(start, events + Story(parts), r) && r.taskId == id
      ensures Ran(calls, rules, views, r) && views[0] == FirstView(id, task.spec)
      ensures r.attempts == |views| <= task.spec.maxRemediationAttempts + 1
      ensures Parts(calls, rules, views, r, parts)
    {
      ghost var now := task;
      views, parts := [], [];
      Nothing(events);
      while true
        invariant Now(start, events + Story(parts), now)
        invariant UnderWay(calls, rules, id, task.spec, views, now) && SoFar(calls, rules, views, now, parts)
        decreases task.spec.maxRemediationAttempts - |views|
      {
        var ended: Option<TaskSnapshot>;
        ghost var after: TaskSnapshot, more: seq<Event>;
        var begun := Begin(start, events + Story(parts), id, now);
        ghost var so := events + Story(parts) + [AttemptStarted(Some(begun.attempts))];
        ended, after, more := Attempt(start, so, id, calls, begun, rules);
        Advance(calls, rules, id, task.spec, views, now, begun, after, parts, more);
        StoryGrows(events, parts, more, begun.attempts);
        views, now, parts := views + [begun], after, parts + [more];
        if ended.Some? {
          return ended.value, views, parts;
        }
      }
    }

    /** A queued task is started, unless it is stopped before its first attempt. */
    method RunQueued(ghost start: Start, task: TaskSnapshot, calls: Callbacks, ghost rules: Rules)
      returns (r: TaskSnapshot, ghost views: seq<TaskSnapshot>, ghost parts: seq<seq<Event>>, ghost events: seq<Event>)
      requires Now(start, [], task) && task.state == Queued && task.attempts == 0
      requires task.spec.maxRemediationAttempts >= 0 && registry.JudgesBy() == rules && Registered(rules.specs)
      modifies board, board.ledger
      ensures Now(start, events, r) && r.taskId == task.taskId && RunOf(calls, rules, task, views, r)
      ensures Tells(calls, rules, task, views, r, parts, events)
    {
      var stop := Preflight(task.spec);
      PreflightByFields(task.spec);
      views, parts := [], [];
      if stop.Some? {
        r := Move(start, [], task.taskId, task, stop.value.0, stop.value.1);
        Nothing([Set(r)]);
        events := [Set(r)];
      } else {
        var started := Move(start, [], task.taskId, task, Active, RunStarted);
        Nothing([Set(started)]);
        r, views, parts := Attempts(start, [Set(started)], task.taskId, calls, started, rules);
        events := [Set(started)] + Story(parts);
      }
    }

    /** Runs a queued task to its end. Whatever the callbacks do, no board call inside raises and nothing else on the
        board changes. A task that may not be run is stopped at once. Otherwise it goes through its attempts: one
        that fails is followed by another exactly while retries are left and rejected after them, one that earns it
        ends at PREPARE_PR, and any other stops with its fault. The ledger tells all of it, step by step. */
    method Run(id: string, calls: Callbacks)
      returns (r: Result<TaskSnapshot, BoardError>, ghost views: seq<TaskSnapshot>, ghost parts: seq<seq<Event>>,
               ghost events: seq<Event>)
      requires WellFormedMac(board.ledger.mac)
      requires board.Sound() && WithinBudget(board.Tasks()) && Registered(registry.specs)
      modifies board, board.ledger
      ensures r.Ok? <==> id in old(board.Tasks()) && old(board.Tasks())[id].state == Queued
      ensures board.Sound() && WithinBudget(board.Tasks())
      ensures r.Err? ==> board.ledger.Log() == old(board.ledger.Log())
      ensures r.Ok? ==> board.ledger.Log() == old(board.ledger.Log()) + Stamp(id, events)
      ensures r.Ok? ==> OnlyTask(old(board.Tasks()), board.Tasks(), id) && r.value == board.Tasks()[id]
      ensures r.Ok? ==> RunOf(calls, registry.JudgesBy(), old(board.Tasks())[id], views, r.value)
      ensures r.Ok? ==> Tells(calls, registry.JudgesBy(), old(board.Tasks())[id], views, r.value, parts, events)
    {
      ghost var start := Start(board.ledger.Log(), board.Tasks());
      views, parts, events := [], [], [];
      var first := board.Get(id);
      if first.Err? {
        return Err(first.error), views, parts, events;
      }
      if !first.value.state.Queued? {
        return Err(RunRequiresQueuedTask), views, parts, events;
      }
      assert start.log + Stamp(id, []) == start.log;
      var ended: TaskSnapshot;
      ended, views, parts, events := RunQueued(start, first.value, calls, registry.JudgesBy());
      RunKeepsBudget(calls, registry.JudgesBy(), first.value, views, ended);
      OnlyTaskKeepsBudget(start.tasks, board.Tasks(), id);
      r := Ok(ended);
    }
  }
}
