/** The stages of the P0 engine on a task object, and what any run of them keeps. */
module ImprovementStages {
  import opened Prelude
  import opened ImprovementEngine
  import RunLedger

  /** A stage call with what it is handed; times are those of its evidence checks. */
  datatype Stage =
    | Qualify(now: int, later: int) | Plan | EnterSandbox(isolated: bool) | RecordTest(passed: bool)
    | Score(scoring: Scoring) | Certify(certification: CertificationEvidence, now: int) | Prepare

  predicate Ready(stage: Stage, s: State) {
    match stage
    case Qualify(_, _) => s == Discovered
    case Plan => s == Qualified
    case EnterSandbox(_) => s == Planned
    case RecordTest(_) => s == Sandbox || s == Remediated
    case Score(_) => s == Tested
    case Certify(_, _) => s == Scored
    case Prepare => s == Certified
  }

  function NotReady(stage: Stage): Reason {
    match stage
    case Qualify(_, _) => QualifyRequiresDiscovered
    case Plan => PlanRequiresQualified
    case EnterSandbox(_) => SandboxRequiresPlanned
    case RecordTest(_) => TestRequiresSandboxOrRemediated
    case Score(_) => ScoringRequiresTested
    case Certify(_, _) => CertificationRequiresScored
    case Prepare => PreparePrRequiresCertified
  }

  ghost predicate LedgerValid(w: World, p: Policy, v: Progress) {
    Chained(w, p, v.ledger) && v.state == LastState(v.ledger)
  }

  /** A walk through the transition table that ends in certification. */
  ghost predicate SuccessHistory(history: seq<State>) {
    IsWalk(history) && history[|history| - 1] == Certified
  }

  /** What the token kept for the task says about it. */
  function TokenVerdict(w: World, p: Policy, tail: string, token: Option<string>): (r: Verdict)
    ensures r == (PreparePr, AutonomousCeilingReached) <==>
      token == Some(w.mac(TokenText(p.id, tail, p.certifier))) && token != Some("")
    ensures r == (Hold, CertificationTokenRequired) <==> token == None || token == Some("")
    ensures r.0 == Hold && r.1 != CertificationTokenRequired ==> r.1 == CertificationTokenInvalid
    ensures r.0 == PreparePr || r.0 == Hold
  {
    if token.None? || token.value == "" then (Hold, CertificationTokenRequired)
    else if token.value != w.mac(TokenText(p.id, tail, p.certifier)) then (Hold, CertificationTokenInvalid)
    else (PreparePr, AutonomousCeilingReached)
  }

  /** Preparation: the ledger is looked at first, then the lineage, then the token. */
  ghost function PrepareVerdict(w: World, p: Policy, v: Progress, token: Option<string>): (r: Verdict)
    ensures CanGo(Certified, r.0) && (r.1 == TransitionLedgerInvalid <==> !LedgerValid(w, p, v))
  {
    if !LedgerValid(w, p, v) then (Hold, TransitionLedgerInvalid)
    else if !SuccessHistory(History(v.ledger)) then (Hold, CertificationLineageIncomplete)
    else TokenVerdict(w, p, Tail(v.ledger), token)
  }

  /** The verdict of a stage on a task it is ready for; `TransitionLedgerInvalid` is no move on the ledger. */
  ghost function VerdictOf(w: World, p: Policy, v: Progress, token: Option<string>, stage: Stage): Verdict {
    match stage
    case Qualify(now, later) => QualifyVerdict(w, p, now, later)
    case Plan => (Planned, BoundedPlanReady)
    case EnterSandbox(isolated) =>
      if isolated then (Sandbox, IsolatedExecutionConfirmed) else (Hold, IsolatedExecutionRequired)
    case RecordTest(passed) => TestVerdict(w, passed, v.attempts)
    case Score(scoring) => ScoreVerdict(w, p, scoring)
    case Certify(certification, now) => CertifyVerdict(w, p, certification, Tail(v.ledger), now)
    case Prepare => PrepareVerdict(w, p, v, token)
  }

  /** The task moved on, with the move on its ledger. */
  function Go(w: World, p: Policy, v: Progress, verdict: Verdict): Progress {
    Progress(verdict.0, verdict.1, v.attempts, v.ledger + [NextMove(w, p, v.ledger, v.state, verdict.0, verdict.1)])
  }

  /** A stage's verdict carried out. */
  function Done(w: World, p: Policy, v: Progress, token: Option<string>, stage: Stage, verdict: Verdict)
    : (Progress, Option<string>)
  {
    if verdict.1 == TransitionLedgerInvalid then (v.(state := Hold, reason := TransitionLedgerInvalid), token)
    else if verdict.0 == Remediated then (Go(w, p, v.(attempts := v.attempts + 1), verdict), token)
    else if verdict.0 == Certified && stage.Certify? then
      var after := Go(w, p, v, verdict);
      (after, Some(w.mac(TokenText(p.id, Tail(after.ledger), stage.certification.certifier))))
    else (Go(w, p, v, verdict), token)
  }

  /** One stage call: the task and its certification token afterwards. */
  ghost function Step(w: World, p: Policy, v: Progress, token: Option<string>, stage: Stage)
    : (Progress, Option<string>)
  {
    if Ready(stage, v.state) then Done(w, p, v, token, stage, VerdictOf(w, p, v, token, stage))
    else if Terminal(v.state) then (v, token)
    else (Go(w, p, v, (Hold, NotReady(stage))), token)
  }

  // ---- The verdicts are legal ------------------------------------------------------------

  lemma QualifyLegal(w: World, p: Policy, now: int, later: int)
    ensures CanGo(Discovered, QualifyVerdict(w, p, now, later).0)
    ensures QualifyVerdict(w, p, now, later).1 != TransitionLedgerInvalid
    ensures QualifyVerdict(w, p, now, later).0 == Qualified ==> InBounds(p)
  {
  }

  lemma ScoreLegal(w: World, p: Policy, s: Scoring)
    ensures CanGo(Tested, ScoreVerdict(w, p, s).0) && ScoreVerdict(w, p, s).1 != TransitionLedgerInvalid
  {
    var baseline := BaselineFault(w, p, s);
    FirstFaultLegal(EvaluationFault(w, p, s), UsageFault(w, p, s), WithinBudget(s.usage, p.budget), baseline,
                    if baseline.None? then QualityFault(w, s.evaluation, s.baseline.value) else None);
  }

  lemma FirstFaultLegal(evaluation: Option<Reason>, usage: Option<Reason>, within: bool, baseline: Option<Reason>,
                        quality: Option<Reason>)
    requires evaluation != Some(TransitionLedgerInvalid) && usage != Some(TransitionLedgerInvalid)
    requires baseline != Some(TransitionLedgerInvalid) && quality != Some(TransitionLedgerInvalid)
    ensures
      var v := FirstFault(evaluation, usage, within, baseline, quality);
      CanGo(Tested, v.0) && v.1 != TransitionLedgerInvalid
  {
  }

  lemma CertifyLegal(w: World, p: Policy, c: CertificationEvidence, tail: string, now: int)
    ensures CanGo(Scored, CertifyVerdict(w, p, c, tail, now).0)
    ensures CertifyVerdict(w, p, c, tail, now).1 != TransitionLedgerInvalid
    ensures CertifyVerdict(w, p, c, tail, now).0 == Certified ==>
      && c.certifier == p.certifier != p.builder && c.independent && c.consistent
      && Verifies(w, c.evidence, Certification, SubjectOf(p.id), Some(p.certifier), now)
  {
  }

  lemma VerdictCanGo(w: World, p: Policy, v: Progress, token: Option<string>, stage: Stage)
    requires Ready(stage, v.state)
    ensures CanGo(v.state, VerdictOf(w, p, v, token, stage).0)
    ensures VerdictOf(w, p, v, token, stage).1 == TransitionLedgerInvalid <==> stage.Prepare? && !LedgerValid(w, p, v)
  {
    match stage
    case Qualify(now, later) => QualifyLegal(w, p, now, later);
    case Score(scoring) => ScoreLegal(w, p, scoring);
    case Certify(certification, now) => CertifyLegal(w, p, certification, Tail(v.ledger), now);
    case _ =>
  }

  lemma VerdictMarks(w: World, p: Policy, v: Progress, token: Option<string>, stage: Stage)
    requires Ready(stage, v.state)
    ensures
      var verdict := VerdictOf(w, p, v, token, stage);
      && (verdict.0 == Remediated <==> stage.RecordTest? && !stage.passed && v.attempts < w.maxAttempts)
      && (verdict.0 == Qualified ==> InBounds(p))
      && (verdict.0 == Certified ==> stage.Certify? && stage.certification.certifier == p.certifier)
  {
    match stage
    case Qualify(now, later) => QualifyLegal(w, p, now, later);
    case Score(scoring) => ScoreLegal(w, p, scoring);
    case Certify(certification, now) => CertifyLegal(w, p, certification, Tail(v.ledger), now);
    case _ =>
  }

  /** No stage ever asks for a move the table does not have, whatever the state of the task. */
  lemma VerdictIsLegal(w: World, p: Policy, v: Progress, token: Option<string>, stage: Stage)
    requires Ready(stage, v.state)
    ensures
      var verdict := VerdictOf(w, p, v, token, stage);
      && CanGo(v.state, verdict.0)
      && (verdict.0 == Remediated <==> stage.RecordTest? && !stage.passed && v.attempts < w.maxAttempts)
      && (verdict.0 == Qualified ==> InBounds(p))
      && (verdict.0 == Certified ==> stage.Certify? && stage.certification.certifier == p.certifier)
      && (verdict.1 == TransitionLedgerInvalid <==> stage.Prepare? && !LedgerValid(w, p, v))
  {
    VerdictCanGo(w, p, v, token, stage);
    VerdictMarks(w, p, v, token, stage);
  }

  /** What preparation makes of a certified task. */
  lemma PrepareStep(w: World, p: Policy, v: Progress, token: Option<string>, verdict: Verdict)
    requires v.state == Certified && verdict == PrepareVerdict(w, p, v, token)
    ensures Step(w, p, v, token, Prepare) ==
      (if verdict.1 == TransitionLedgerInvalid then v.(state := Hold, reason := TransitionLedgerInvalid)
       else Go(w, p, v, verdict), token)
    ensures CanGo(v.state, verdict.0)
  {
  }

  /** What qualification makes of a discovered task. */
  lemma QualifyStep(w: World, p: Policy, v: Progress, token: Option<string>, now: int, later: int)
    requires v.state == Discovered
    ensures
      var verdict := QualifyVerdict(w, p, now, later);
      && Step(w, p, v, token, Qualify(now, later)) == (Go(w, p, v, verdict), token)
      && CanGo(Discovered, verdict.0) && (verdict.0 == Qualified <==> GoodQualification(w, p, now, later))
  {
    VerdictIsLegal(w, p, v, token, Qualify(now, later));
    QualifiedExactlyWhen(w, p, now, later);
  }

  lemma HoldIsOpen(s: State)
    requires !Terminal(s)
    ensures CanGo(s, Hold)
  {
  }

  // ---- The objects -----------------------------------------------------------------------

  class Task {
    const policy: Policy
    var state: State
    var reason: Reason
    var attempts: int
    var ledger: seq<Move>

    function Value(): Progress reads this {
      Progress(state, reason, attempts, ledger)
    }

    constructor (policy: Policy)
      ensures this.policy == policy && Value() == New()
    {
      this.policy := policy;
      state, reason, attempts, ledger := Discovered, Created, 0, [];
    }
  }

  datatype EngineError = IllegalStateTransition

  class Engine {
    const w: World
    var tokens: map<Task, string>

    constructor (w: World)
      ensures this.w == w && tokens == map[]
    {
      this.w := w;
      tokens := map[];
    }

    function Token(task: Task): Option<string> reads this {
      if task in tokens then Some(tokens[task]) else None
    }

    method Transition(task: Task, verdict: Verdict) returns (r: Result<State, EngineError>)
      modifies task
      ensures r.Err? <==> !Terminal(old(task.state)) && !CanGo(old(task.state), verdict.0)
      ensures task.Value() ==
        if r.Err? || Terminal(old(task.state)) then old(task.Value())
        else Go(w, task.policy, old(task.Value()), verdict)
      ensures r.Ok? ==> r.value == task.state
    {
      if Terminal(task.state) {
        return Ok(task.state);
      }
      if !CanGo(task.state, verdict.0) {
        return Err(IllegalStateTransition);
      }
      task.ledger := task.ledger + [NextMove(w, task.policy, task.ledger, task.state, verdict.0, verdict.1)];
      task.state, task.reason := verdict.0, verdict.1;
      r := Ok(task.state);
    }

    /** A transition that cannot be illegal. */
    method MoveOn(task: Task, verdict: Verdict)
      requires !Terminal(task.state) && CanGo(task.state, verdict.0)
      modifies task
      ensures task.Value() == Go(w, task.policy, old(task.Value()), verdict)
    {
      var r := Transition(task, verdict);
      assert r.Ok?;
    }

    method FailClosed(task: Task, reason: Reason)
      modifies task
      ensures task.Value() ==
        if Terminal(old(task.state)) then old(task.Value()) else Go(w, task.policy, old(task.Value()), (Hold, reason))
    {
      if !Terminal(task.state) {
        HoldIsOpen(task.state);
        MoveOn(task, (Hold, reason));
      }
    }

    method LedgerIsValid(task: Task) returns (ok: bool)
      ensures ok <==> LedgerValid(w, task.policy, task.Value())
    {
      var previousState, previousDigest := Discovered, RunLedger.ZERO;
      for i := 0 to |task.ledger|
        invariant Chained(w, task.policy, task.ledger[..i])
        invariant previousState == LastState(task.ledger[..i]) && previousDigest == Tail(task.ledger[..i])
      {
        var m := task.ledger[i];
        assert task.ledger[..i + 1][..i] == task.ledger[..i];
        if !Continues(w, task.policy, i + 1, previousState, previousDigest, m) {
          if Chained(w, task.policy, task.ledger) {
            ChainedPrefix(w, task.policy, task.ledger, i + 1);
          }
          return false;
        }
        previousState, previousDigest := m.to, m.digest;
      }
      assert task.ledger[..|task.ledger|] == task.ledger;
      ok := task.state == previousState;
    }

    /** What every stage promises: exactly the step, and no other task's token touched. */
    twostate predicate Stepped(task: Task, stage: Stage)
      reads this, task
    {
      && (task.Value(), Token(task)) == Step(w, task.policy, old(task.Value()), old(Token(task)), stage)
      && tokens - {task} == old(tokens) - {task}
    }

    method DoQualify(task: Task, now: int, later: int)
      modifies this, task
      ensures Stepped(task, Qualify(now, later))
      ensures old(task.state) == Discovered ==>
        (task.state == Qualified <==> GoodQualification(w, task.policy, now, later))
    {
      if task.state != Discovered {
        FailClosed(task, QualifyRequiresDiscovered);
        return;
      }
      QualifyStep(w, task.policy, task.Value(), Token(task), now, later);
      MoveOn(task, QualifyVerdict(w, task.policy, now, later));
    }

    method DoPlan(task: Task)
      modifies this, task
      ensures Stepped(task, Plan)
    {
      if task.state != Qualified {
        FailClosed(task, PlanRequiresQualified);
        return;
      }
      MoveOn(task, (Planned, BoundedPlanReady));
    }

    method DoEnterSandbox(task: Task, isolated: bool)
      modifies this, task
      ensures Stepped(task, EnterSandbox(isolated))
    {
      if task.state != Planned {
        FailClosed(task, SandboxRequiresPlanned);
      } else if !isolated {
        MoveOn(task, (Hold, IsolatedExecutionRequired));
      } else {
        MoveOn(task, (Sandbox, IsolatedExecutionConfirmed));
      }
    }

    method DoRecordTest(task: Task, passed: bool)
      modifies this, task
      ensures Stepped(task, RecordTest(passed))
    {
      if task.state != Sandbox && task.state != Remediated {
        FailClosed(task, TestRequiresSandboxOrRemediated);
        return;
      }
      var verdict := TestVerdict(w, passed, task.attempts);
      VerdictIsLegal(w, task.policy, task.Value(), Token(task), RecordTest(passed));
      Conclude(task, RecordTest(passed), verdict);
    }

    method DoScore(task: Task, scoring: Scoring)
      modifies this, task
      ensures Stepped(task, Score(scoring))
      ensures old(task.state) == Tested ==> (task.state == Scored <==> GoodScoring(w, task.policy, scoring))
    {
      if task.state != Tested {
        FailClosed(task, ScoringRequiresTested);
        return;
      }
      VerdictIsLegal(w, task.policy, task.Value(), Token(task), Score(scoring));
      ScoredExactlyWhen(w, task.policy, scoring);
      MoveOn(task, ScoreVerdict(w, task.policy, scoring));
    }

    method DoCertify(task: Task, certification: CertificationEvidence, now: int)
      modifies this, task
      ensures Stepped(task, Certify(certification, now))
      ensures old(task.state) == Scored ==>
        (task.state == Certified <==> GoodCertification(w, task.policy, certification, Tail(old(task.ledger)), now))
    {
      if task.state != Scored {
        FailClosed(task, CertificationRequiresScored);
        return;
      }
      var verdict := CertifyVerdict(w, task.policy, certification, Tail(task.ledger), now);
      VerdictIsLegal(w, task.policy, task.Value(), Token(task), Certify(certification, now));
      CertifiedExactlyWhen(w, task.policy, certification, Tail(task.ledger), now);
      Conclude(task, Certify(certification, now), verdict);
    }

    /** A verdict is carried out: remediation costs an attempt, and a certified task gets its token. */
    method Conclude(task: Task, stage: Stage, verdict: Verdict)
      requires verdict.1 != TransitionLedgerInvalid && (verdict.0 == Certified ==> stage.Certify?)
      requires !Terminal(task.state) && CanGo(task.state, verdict.0)
      modifies this, task
      ensures (task.Value(), Token(task)) == Done(w, task.policy, old(task.Value()), old(Token(task)), stage, verdict)
      ensures tokens - {task} == old(tokens) - {task}
    {
      if verdict.0 == Remediated {
        task.attempts := task.attempts + 1;
      }
      MoveOn(task, verdict);
      if verdict.0 == Certified {
        tokens := tokens[task := w.mac(TokenText(task.policy.id, Tail(task.ledger), stage.certification.certifier))];
      }
    }

    method DecidePreparation(task: Task) returns (verdict: Verdict)
      requires task.state == Certified
      ensures verdict == PrepareVerdict(w, task.policy, task.Value(), Token(task))
    {
      var valid := LedgerIsValid(task);
      if !valid {
        return (Hold, TransitionLedgerInvalid);
      }
      var success := ValidSuccessHistory(History(task.ledger));
      if !success {
        return (Hold, CertificationLineageIncomplete);
      }
      verdict := TokenVerdict(w, task.policy, Tail(task.ledger), Token(task));
    }

    method DoPrepare(task: Task)
      modifies this, task
      ensures Stepped(task, Prepare)
    {
      if task.state != Certified {
        FailClosed(task, PreparePrRequiresCertified);
        return;
      }
      var verdict := DecidePreparation(task);
      PrepareStep(w, task.policy, task.Value(), Token(task), verdict);
      if verdict.1 == TransitionLedgerInvalid {
        task.state, task.reason := Hold, TransitionLedgerInvalid;
      } else {
        MoveOn(task, verdict);
      }
    }
  }

  // ---- Whole runs ------------------------------------------------------------------------

  function New(): Progress {
    Progress(Discovered, Created, 0, [])
  }

  ghost function Run(w: World, p: Policy, stages: seq<Stage>): (Progress, Option<string>) {
    if stages == [] then (New(), None)
    else
      var before := Run(w, p, stages[..|stages| - 1]);
      Step(w, p, before.0, before.1, stages[|stages| - 1])
  }

  lemma RunNext(w: World, p: Policy, stages: seq<Stage>, stage: Stage)
    ensures Run(w, p, stages + [stage]) == Step(w, p, Run(w, p, stages).0, Run(w, p, stages).1, stage)
  {
    assert (stages + [stage])[..|stages|] == stages;
  }

  function Remediations(ledger: seq<Move>): nat {
    if ledger == [] then 0
    else Remediations(ledger[..|ledger| - 1]) + if ledger[|ledger| - 1].to == Remediated then 1 else 0
  }

  /** The HMAC never gives an empty text. */
  ghost predicate WellFormed(w: World) {
    forall s :: |w.mac(s)| == 64
  }

  ghost predicate Invariant(w: World, p: Policy, v: Progress, token: Option<string>) {
    && LedgerValid(w, p, v)
    && v.attempts == Remediations(v.ledger) && (v.attempts == 0 || v.attempts <= w.maxAttempts)
    && (v.state == Certified ==> token == Some(w.mac(TokenText(p.id, Tail(v.ledger), p.certifier))))
  }

  lemma GoKeeps(w: World, p: Policy, v: Progress, verdict: Verdict)
    requires LedgerValid(w, p, v) && CanGo(v.state, verdict.0)
    ensures LedgerValid(w, p, Go(w, p, v, verdict))
    ensures Remediations(Go(w, p, v, verdict).ledger) ==
      Remediations(v.ledger) + if verdict.0 == Remediated then 1 else 0
  {
    var after := Go(w, p, v, verdict).ledger;
    assert after[..|v.ledger|] == v.ledger;
  }

  /** What a legal verdict, carried out, keeps. */
  lemma VerdictKeepsInvariant(w: World, p: Policy, v: Progress, token: Option<string>, verdict: Verdict,
                              certifier: string)
    requires Invariant(w, p, v, token) && CanGo(v.state, verdict.0)
    requires verdict.0 == Remediated ==> v.attempts < w.maxAttempts
    requires verdict.0 == Certified ==> certifier == p.certifier
    ensures
      var from := if verdict.0 == Remediated then v.(attempts := v.attempts + 1) else v;
      var after := Go(w, p, from, verdict);
      var issued := Some(w.mac(TokenText(p.id, Tail(after.ledger), certifier)));
      Invariant(w, p, after, if verdict.0 == Certified then issued else token)
  {
    GoKeeps(w, p, v, verdict);
    GoKeeps(w, p, v.(attempts := v.attempts + 1), verdict);
  }

  lemma DoneKeepsInvariant(w: World, p: Policy, v: Progress, token: Option<string>, stage: Stage, verdict: Verdict)
    requires Invariant(w, p, v, token) && CanGo(v.state, verdict.0) && verdict.1 != TransitionLedgerInvalid
    requires verdict.0 == Remediated ==> v.attempts < w.maxAttempts
    requires verdict.0 == Certified ==> stage.Certify? && stage.certification.certifier == p.certifier
    ensures Invariant(w, p, Done(w, p, v, token, stage, verdict).0, Done(w, p, v, token, stage, verdict).1)
  {
    VerdictKeepsInvariant(w, p, v, token, verdict, if stage.Certify? then stage.certification.certifier else []);
  }

  lemma StepKeepsInvariant(w: World, p: Policy, v: Progress, token: Option<string>, stage: Stage)
    requires Invariant(w, p, v, token)
    ensures Invariant(w, p, Step(w, p, v, token, stage).0, Step(w, p, v, token, stage).1)
  {
    if Ready(stage, v.state) {
      VerdictIsLegal(w, p, v, token, stage);
      DoneKeepsInvariant(w, p, v, token, stage, VerdictOf(w, p, v, token, stage));
    } else if !Terminal(v.state) {
      HoldIsOpen(v.state);
      VerdictKeepsInvariant(w, p, v, token, (Hold, NotReady(stage)), []);
    }
  }

  /** After any run of stage calls the ledger verifies, the remediations it shows are counted and within the
      limit, and a certified task has its token. */
  lemma {:induction false} RunKeepsInvariant(w: World, p: Policy, stages: seq<Stage>)
    ensures Invariant(w, p, Run(w, p, stages).0, Run(w, p, stages).1)
  {
    if stages == [] {
    } else {
      var k := |stages| - 1;
      RunKeepsInvariant(w, p, stages[..k]);
      StepKeepsInvariant(w, p, Run(w, p, stages[..k]).0, Run(w, p, stages[..k]).1, stages[k]);
    }
  }

  lemma PrepareCertified(w: World, p: Policy, v: Progress, token: Option<string>)
    requires WellFormed(w) && Invariant(w, p, v, token) && v.state == Certified
    ensures Step(w, p, v, token, Prepare).0.state == PreparePr
  {
    ChainedIsWalk(w, p, v.ledger);
    TokenIsNotEmpty(w, TokenText(p.id, Tail(v.ledger), p.certifier), token);
    PrepareStep(w, p, v, token, PrepareVerdict(w, p, v, token));
  }

  lemma TokenIsNotEmpty(w: World, text: Sealed, token: Option<string>)
    requires WellFormed(w) && token == Some(w.mac(text))
    ensures token.value != ""
  {
    assert |w.mac(text)| == 64;
  }

  predicate PastQualification(s: State) {
    s != Discovered && (!Terminal(s) || s == PreparePr)
  }

  lemma StepStaysInBounds(w: World, p: Policy, v: Progress, token: Option<string>, stage: Stage)
    requires PastQualification(v.state) ==> InBounds(p)
    ensures PastQualification(Step(w, p, v, token, stage).0.state) ==> InBounds(p)
  {
    if Ready(stage, v.state) {
      VerdictIsLegal(w, p, v, token, stage);
    }
  }

  /** Whatever gets past qualification is within bounds. */
  lemma {:induction false} RunStaysInBounds(w: World, p: Policy, stages: seq<Stage>)
    ensures PastQualification(Run(w, p, stages).0.state) ==> InBounds(p)
  {
    if stages == [] {
    } else {
      var k := |stages| - 1;
      RunStaysInBounds(w, p, stages[..k]);
      StepStaysInBounds(w, p, Run(w, p, stages[..k]).0, Run(w, p, stages[..k]).1, stages[k]);
    }
  }

  /** A task the engine has certified reaches the ceiling at its next preparation, after any run that led there. */
  lemma CertifiedReachesCeiling(w: World, p: Policy, stages: seq<Stage>)
    requires WellFormed(w) && Run(w, p, stages).0.state == Certified
    ensures Run(w, p, stages + [Prepare]).0.state == PreparePr
  {
    RunNext(w, p, stages, Prepare);
    RunKeepsInvariant(w, p, stages);
    PrepareCertified(w, p, Run(w, p, stages).0, Run(w, p, stages).1);
  }

  // ---- What a run that got far has behind it ---------------------------------------------

  /** The `k`-th stage call of the run qualified the task. */
  ghost predicate QualifiesAt(w: World, p: Policy, stages: seq<Stage>, k: nat) {
    && k < |stages| && Run(w, p, stages[..k]).0.state == Discovered
    && stages[k].Qualify? && GoodQualification(w, p, stages[k].now, stages[k].later)
  }

  ghost predicate ScoresAt(w: World, p: Policy, stages: seq<Stage>, k: nat) {
    && k < |stages| && Run(w, p, stages[..k]).0.state == Tested
    && stages[k].Score? && GoodScoring(w, p, stages[k].scoring)
  }

  ghost predicate CertifiesAt(w: World, p: Policy, stages: seq<Stage>, k: nat) {
    && k < |stages| && Run(w, p, stages[..k]).0.state == Scored
    && stages[k].Certify?
    && GoodCertification(w, p, stages[k].certification, Tail(Run(w, p, stages[..k]).0.ledger), stages[k].now)
  }

  predicate PastScoring(s: State) {
    s == Scored || s == Certified || s == PreparePr
  }

  predicate PastCertification(s: State) {
    s == Certified || s == PreparePr
  }

  /** A sequence that is past a door in the end and was not at first passes it at some point. */
  lemma {:induction false} DoorPassed(states: seq<State>, past: State -> bool) returns (k: nat)
    requires states != [] && !past(states[0]) && past(states[|states| - 1])
    ensures k + 1 < |states| && !past(states[k]) && past(states[k + 1])
  {
    k := |states| - 2;
    if past(states[k]) {
      k := DoorPassed(states[..k + 1], past);
    }
  }

  /** The states of a run, from the first to the last. */
  ghost function StatesOf(w: World, p: Policy, stages: seq<Stage>): seq<State> {
    seq(|stages| + 1, i requires 0 <= i <= |stages| => Run(w, p, stages[..i]).0.state)
  }

  lemma StateAfter(w: World, p: Policy, stages: seq<Stage>, k: nat)
    requires k < |stages|
    ensures Run(w, p, stages[..k + 1]) == Step(w, p, Run(w, p, stages[..k]).0, Run(w, p, stages[..k]).1, stages[k])
  {
    assert stages[..k + 1] == stages[..k] + [stages[k]];
    RunNext(w, p, stages[..k], stages[k]);
  }

  lemma RunPassedAt(w: World, p: Policy, stages: seq<Stage>, past: State -> bool, states: seq<State>) returns (k: nat)
    requires states == StatesOf(w, p, stages) && !past(states[0]) && past(states[|stages|])
    ensures k < |stages| && !past(Run(w, p, stages[..k]).0.state) && past(Run(w, p, stages[..k + 1]).0.state)
  {
    k := DoorPassed(states, past);
  }

  /** A run that is past a door passed it by one of its stage calls. */
  lemma RunPassed(w: World, p: Policy, stages: seq<Stage>, past: State -> bool) returns (k: nat)
    requires !past(Discovered) && past(Run(w, p, stages).0.state)
    ensures k < |stages| && !past(Run(w, p, stages[..k]).0.state)
    ensures past(Step(w, p, Run(w, p, stages[..k]).0, Run(w, p, stages[..k]).1, stages[k]).0.state)
  {
    assert stages[..|stages|] == stages;
    k := RunPassedAt(w, p, stages, past, StatesOf(w, p, stages));
    StateAfter(w, p, stages, k);
  }

  /** Where a stage call takes the state. */
  lemma StepState(w: World, p: Policy, v: Progress, token: Option<string>, stage: Stage)
    ensures Step(w, p, v, token, stage).0.state ==
      if Ready(stage, v.state) then VerdictOf(w, p, v, token, stage).0 else if Terminal(v.state) then v.state else Hold
  {
    if Ready(stage, v.state) {
      VerdictIsLegal(w, p, v, token, stage);
    }
  }

  /** The three doors: which move passes each, and which stage makes it. */
  lemma DoorMoves(s: State, s': State, stage: Stage)
    requires CanGo(s, s') && Ready(stage, s)
    ensures PastQualification(s') && !PastQualification(s) ==> s == Discovered && stage.Qualify? && s' == Qualified
    ensures PastScoring(s') && !PastScoring(s) ==> s == Tested && stage.Score? && s' == Scored
    ensures PastCertification(s') && !PastCertification(s) ==> s == Scored && stage.Certify? && s' == Certified
  {
  }

  /** A stage call that takes the task past a door is a move of the table, made by a ready stage. */
  lemma PassedByVerdict(w: World, p: Policy, v: Progress, token: Option<string>, stage: Stage)
    requires !Terminal(Step(w, p, v, token, stage).0.state) || Step(w, p, v, token, stage).0.state == PreparePr
    requires Step(w, p, v, token, stage).0.state != v.state
    ensures Ready(stage, v.state) && CanGo(v.state, VerdictOf(w, p, v, token, stage).0)
    ensures Step(w, p, v, token, stage).0.state == VerdictOf(w, p, v, token, stage).0
  {
    StepState(w, p, v, token, stage);
    if Ready(stage, v.state) {
      VerdictIsLegal(w, p, v, token, stage);
    }
  }

  lemma QualificationWasPassed(w: World, p: Policy, stages: seq<Stage>) returns (k: nat)
    requires PastQualification(Run(w, p, stages).0.state)
    ensures QualifiesAt(w, p, stages, k)
  {
    k := RunPassed(w, p, stages, PastQualification);
    var v, token := Run(w, p, stages[..k]).0, Run(w, p, stages[..k]).1;
    PassedByVerdict(w, p, v, token, stages[k]);
    DoorMoves(v.state, VerdictOf(w, p, v, token, stages[k]).0, stages[k]);
    QualifiedExactlyWhen(w, p, stages[k].now, stages[k].later);
  }

  lemma ScoringWasPassed(w: World, p: Policy, stages: seq<Stage>) returns (k: nat)
    requires PastScoring(Run(w, p, stages).0.state)
    ensures ScoresAt(w, p, stages, k)
  {
    k := RunPassed(w, p, stages, PastScoring);
    var v, token := Run(w, p, stages[..k]).0, Run(w, p, stages[..k]).1;
    PassedByVerdict(w, p, v, token, stages[k]);
    DoorMoves(v.state, VerdictOf(w, p, v, token, stages[k]).0, stages[k]);
    ScoredExactlyWhen(w, p, stages[k].scoring);
  }

  lemma CertificationWasPassed(w: World, p: Policy, stages: seq<Stage>) returns (k: nat)
    requires PastCertification(Run(w, p, stages).0.state)
    ensures CertifiesAt(w, p, stages, k)
  {
    k := RunPassed(w, p, stages, PastCertification);
    var v, token := Run(w, p, stages[..k]).0, Run(w, p, stages[..k]).1;
    PassedByVerdict(w, p, v, token, stages[k]);
    DoorMoves(v.state, VerdictOf(w, p, v, token, stages[k]).0, stages[k]);
    CertifiedExactlyWhen(w, p, stages[k].certification, Tail(v.ledger), stages[k].now);
  }

  /** Whoever stands at the ceiling is within bounds and went through every stage: the history up to it is a
      success history. */
  lemma CeilingIsEarned(w: World, p: Policy, stages: seq<Stage>, v: Progress)
    requires v == Run(w, p, stages).0 && v.state == PreparePr
    ensures
      var history := History(v.ledger);
      && InBounds(p) && |history| >= 8 && SuccessHistory(history[..|history| - 1])
      && history[1] == Qualified && history[2] == Planned && history[3] == Sandbox
  {
    RunKeepsInvariant(w, p, stages);
    RunStaysInBounds(w, p, stages);
    CeilingHistory(w, p, v);
  }

  lemma ScoresInPrefix(w: World, p: Policy, stages: seq<Stage>, k: nat, j: nat)
    requires k <= |stages| && ScoresAt(w, p, stages[..k], j)
    ensures j < k && ScoresAt(w, p, stages, j)
  {
    assert stages[..k][..j] == stages[..j];
  }

  lemma QualifiesInPrefix(w: World, p: Policy, stages: seq<Stage>, k: nat, i: nat)
    requires k <= |stages| && QualifiesAt(w, p, stages[..k], i)
    ensures i < k && QualifiesAt(w, p, stages, i)
  {
    assert stages[..k][..i] == stages[..i];
  }

  /** A task that is certified at some point was scored before. */
  lemma ScoredBefore(w: World, p: Policy, stages: seq<Stage>, k: nat) returns (j: nat)
    requires CertifiesAt(w, p, stages, k)
    ensures j < k && ScoresAt(w, p, stages, j)
  {
    j := ScoringWasPassed(w, p, stages[..k]);
    ScoresInPrefix(w, p, stages, k, j);
  }

  /** And a task that is scored was qualified before. */
  lemma QualifiedBefore(w: World, p: Policy, stages: seq<Stage>, j: nat) returns (i: nat)
    requires ScoresAt(w, p, stages, j)
    ensures i < j && QualifiesAt(w, p, stages, i)
  {
    i := QualificationWasPassed(w, p, stages[..j]);
    QualifiesInPrefix(w, p, stages, j, i);
  }

  /** So its run holds, in this order, three stage calls that had the evidence asked for: one qualified the task,
      one scored it, and one certified it. */
  lemma CeilingHasEvidence(w: World, p: Policy, stages: seq<Stage>) returns (i: nat, j: nat, k: nat)
    requires PastCertification(Run(w, p, stages).0.state)
    ensures i < j < k
    ensures QualifiesAt(w, p, stages, i) && ScoresAt(w, p, stages, j) && CertifiesAt(w, p, stages, k)
  {
    k := CertificationWasPassed(w, p, stages);
    j := ScoredBefore(w, p, stages, k);
    i := QualifiedBefore(w, p, stages, j);
  }

  lemma CeilingHistory(w: World, p: Policy, v: Progress)
    requires LedgerValid(w, p, v) && v.state == PreparePr
    ensures
      var history := History(v.ledger);
      && |history| >= 8 && SuccessHistory(history[..|history| - 1])
      && history[1] == Qualified && history[2] == Planned && history[3] == Sandbox
  {
    var history := History(v.ledger);
    ChainedIsWalk(w, p, v.ledger);
    var k := |v.ledger|;
    assert k > 0 && CanGo(history[k - 1], history[k]);
    SetsOut(history[..k]);
  }

  lemma StepStaysValid(w: World, p: Policy, v: Progress, token: Option<string>, stage: Stage)
    requires Invariant(w, p, v, token) && v.reason != TransitionLedgerInvalid
    ensures Step(w, p, v, token, stage).0.reason != TransitionLedgerInvalid
  {
    if Ready(stage, v.state) {
      VerdictIsLegal(w, p, v, token, stage);
    }
  }

  /** No run ever meets an invalid ledger. */
  lemma {:induction false} LedgerStaysValid(w: World, p: Policy, stages: seq<Stage>)
    ensures Run(w, p, stages).0.reason != TransitionLedgerInvalid
  {
    if stages == [] {
    } else {
      var k := |stages| - 1;
      RunKeepsInvariant(w, p, stages[..k]);
      LedgerStaysValid(w, p, stages[..k]);
      StepStaysValid(w, p, Run(w, p, stages[..k]).0, Run(w, p, stages[..k]).1, stages[k]);
    }
  }
}
