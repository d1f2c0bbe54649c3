/** The economic task engine: a task's life from draft to closed payment, guarded event by event. */
module TaskEngine {
  import opened Prelude

  datatype Status =
    | Draft | Funded | Ready | Assigned | InProgress | Submitted | QaCheck | RevisionRequired | Escalated | Rejected
    | Pass | Payable | PayoutProcessing | Paid | Reconciled | Closed | Cancelled | PaymentHeld | Disputed
    | SecurityReview

  datatype Event =
    | FundConfirmed | MarkReady | AssignWorker | StartTask | SubmitWork | StartQa
    | QaPass | QaRevision | QaEscalate | QaReject | StartRevision
    | EscalationApprove | EscalationRevision | EscalationReject
    | CreatePayable | ProcessPayout | ConfirmPaid | Reconcile | CloseTask
    | SecurityFlag | HoldPayment | OpenDispute | OtherEvent(text: string)

  datatype Actor = System | Finance | WorkerActor | QaService | Reviewer | PaymentAdapter | OtherActor(text: string)

  datatype Code =
    | MaterialFactChanged | PriceOrOfferInvented | FakeTestimonial | FabricatedResult | SeriousPolicyViolation
    | OtherCode(text: string)

  datatype Funding = Funding(id: string, approved: int, reserved: int, spent: int, currency: string)

  datatype Worker = Worker(id: string, active: bool, integrityClear: bool)

  datatype Qa = Qa(id: string, parts: seq<int>, confidence: real, codes: seq<Code>)

  datatype Verdict = VerdictPass | VerdictRevision | VerdictEscalate | VerdictReject

  datatype DenyReason =
    | UnauthorizedActorEvent | DisputeStateInvalid | PaymentHoldStateInvalid | TransitionNotAllowed
    | FundingInvalidOrUnreserved | ReadyRequiresValidFunding | WorkerNotEligible | WorkerOwnershipRequired
    | RevisionNotRequested | QaEvidenceRequired | QaDecisionMismatch | RevisionLimitReached | PassRequiresQaEvidence
    | PaymentRiskHold | PayableRequiresReservedFunding | PayableRequiresQaPassEvidence | ProviderPaymentNotVerified
    | ReconciliationFailed

  datatype Decision = Allow | Deny(reason: DenyReason)

  /** A task without its audit trail. */
  datatype TaskState = TaskState(id: string, fundingId: Option<string>, worker: Option<string>, status: Status,
                                 fee: int,
                                 revisions: int, qaResult: Option<string>, securityHold: bool, disputeOpen: bool)

  /** An event with everything that comes along. */
  datatype Input = Input(event: Event, actor: Actor, funding: Option<Funding>, worker: Option<Worker>, qa: Option<Qa>,
                         providerSuccess: bool, reconciliationOk: bool)

  datatype AuditRow = AuditRow(taskId: string, event: Event, actor: Actor, decision: Decision, previous: Status,
                               next: Status, revisions: int)

  /** Where an event of the table leads from, and to; every such event has one source. */
  function Edge(e: Event): Option<(Status, Status)> {
    match e
    case FundConfirmed => Some((Draft, Funded))
    case MarkReady => Some((Funded, Ready))
    case AssignWorker => Some((Ready, Assigned))
    case StartTask => Some((Assigned, InProgress))
    case SubmitWork => Some((InProgress, Submitted))
    case StartQa => Some((Submitted, QaCheck))
    case QaPass => Some((QaCheck, Pass))
    case QaRevision => Some((QaCheck, RevisionRequired))
    case QaEscalate => Some((QaCheck, Escalated))
    case QaReject => Some((QaCheck, Rejected))
    case StartRevision => Some((RevisionRequired, InProgress))
    case EscalationApprove => Some((Escalated, Pass))
    case EscalationRevision => Some((Escalated, RevisionRequired))
    case EscalationReject => Some((Escalated, Rejected))
    case CreatePayable => Some((Pass, Payable))
    case ProcessPayout => Some((Payable, PayoutProcessing))
    case ConfirmPaid => Some((PayoutProcessing, Paid))
    case Reconcile => Some((Paid, Reconciled))
    case CloseTask => Some((Reconciled, Closed))
    case _ => None
  }

  function Table(s: Status, e: Event): Option<Status> {
    if Edge(e).Some? && Edge(e).value.0 == s then Some(Edge(e).value.1) else None
  }

  predicate MaySend(a: Actor, e: Event) {
    match a
    case System => e == MarkReady || e == AssignWorker || e == CloseTask || e == SecurityFlag
    case Finance => e == FundConfirmed || e == CreatePayable || e == ProcessPayout || e == Reconcile || e == HoldPayment
    case WorkerActor => e == StartTask || e == SubmitWork || e == StartRevision
    case QaService => e == StartQa || e == QaPass || e == QaRevision || e == QaEscalate || e == QaReject
    case Reviewer => e == EscalationApprove || e == EscalationRevision || e == EscalationReject || e == OpenDispute
    case PaymentAdapter => e == ConfirmPaid
    case OtherActor(_) => false
  }

  /** The funding covers a positive amount: it is reserved, the reservation is approved, and not yet spent. */
  predicate ValidFor(f: Funding, amount: int)
    ensures ValidFor(f, amount) <==>
      0 < amount && amount <= f.reserved && f.reserved <= f.approved && amount <= f.approved - f.spent
  {
    amount > 0 && f.approved >= f.reserved >= amount && f.spent + amount <= f.approved
  }

  function Sum(parts: seq<int>): int {
    if parts == [] then 0 else Sum(parts[..|parts| - 1]) + parts[|parts| - 1]
  }

  predicate IsHardFail(c: Code) {
    !c.OtherCode?
  }

  /** A serious code rejects whatever the rest says; then too little confidence escalates; then the points decide. */
  function QaDecision(q: Qa): (v: Verdict)
    ensures v == VerdictPass <==> NoHardFail(q) && q.confidence >= 0.80 && Sum(q.parts) >= 85
    ensures v == VerdictRevision <==> NoHardFail(q) && q.confidence >= 0.80 && 70 <= Sum(q.parts) < 85
    ensures v == VerdictReject <==> !NoHardFail(q) || (q.confidence >= 0.80 && Sum(q.parts) < 50)
  {
    if exists c :: c in q.codes && IsHardFail(c) then VerdictReject
    else if q.confidence < 0.8 then VerdictEscalate
    else if Sum(q.parts) >= 85 then VerdictPass
    else if Sum(q.parts) >= 70 then VerdictRevision
    else if Sum(q.parts) < 50 then VerdictReject
    else VerdictEscalate
  }

  predicate NoHardFail(q: Qa) {
    forall c :: c in q.codes ==> c.OtherCode?
  }

  function Expected(e: Event): Option<Verdict> {
    match e
    case QaPass => Some(VerdictPass)
    case QaRevision => Some(VerdictRevision)
    case QaEscalate => Some(VerdictEscalate)
    case QaReject => Some(VerdictReject)
    case _ => None
  }

  // ---- One event -------------------------------------------------------------------------

  /** What forbids an event the table allows, looked at before anything is changed. */
  function Forbidden(t: TaskState, i: Input): Option<DenyReason> {
    match i.event
    case FundConfirmed =>
      if i.funding.None? || t.fundingId != Some(i.funding.value.id) || !ValidFor(i.funding.value, t.fee)
      then Some(FundingInvalidOrUnreserved) else None
    case MarkReady =>
      if i.funding.None? || !ValidFor(i.funding.value, t.fee) then Some(ReadyRequiresValidFunding) else None
    case AssignWorker =>
      if i.worker.None? || !i.worker.value.active || !i.worker.value.integrityClear
      then Some(WorkerNotEligible) else None
    case StartTask => if NotOwner(t, i) then Some(WorkerOwnershipRequired) else None
    case SubmitWork => if NotOwner(t, i) then Some(WorkerOwnershipRequired) else None
    case StartRevision =>
      if NotOwner(t, i) then Some(WorkerOwnershipRequired)
      else if t.revisions == 0 then Some(RevisionNotRequested) else None
    case EscalationRevision => if t.revisions >= 2 then Some(RevisionLimitReached) else None
    case EscalationApprove => if Stated(t.qaResult) || i.qa.Some? then None else Some(PassRequiresQaEvidence)
    case CreatePayable =>
      if t.securityHold || t.disputeOpen then Some(PaymentRiskHold)
      else if i.funding.None? || !ValidFor(i.funding.value, t.fee) then Some(PayableRequiresReservedFunding)
      else if !Stated(t.qaResult) then Some(PayableRequiresQaPassEvidence) else None
    case ConfirmPaid => if i.providerSuccess then None else Some(ProviderPaymentNotVerified)
    case Reconcile => if i.reconciliationOk then None else Some(ReconciliationFailed)
    case _ =>
      if Expected(i.event).None? then None
      else if i.qa.None? then Some(QaEvidenceRequired)
      else if QaDecision(i.qa.value) != Expected(i.event).value then Some(QaDecisionMismatch)
      else None
  }

  predicate NotOwner(t: TaskState, i: Input) {
    i.worker.None? || t.worker != Some(i.worker.value.id) || !i.worker.value.active
  }

  predicate Stated(s: Option<string>) {
    s.Some? && s.value != ""
  }

  /** One event: the task after it, and the answer. */
  function Step(t: TaskState, i: Input): (TaskState, Decision) {
    if !MaySend(i.actor, i.event) then (t, Deny(UnauthorizedActorEvent))
    else if IsSpecial(i.event) then Special(t, i.event)
    else Regular(t, i, Forbidden(t, i))
  }

  predicate IsSpecial(e: Event) {
    e == SecurityFlag || e == OpenDispute || e == HoldPayment
  }

  /** The events outside the table: a security flag always holds, the other two need a payment under way. */
  function Special(t: TaskState, e: Event): (TaskState, Decision)
    requires IsSpecial(e)
  {
    if e == SecurityFlag then (t.(status := SecurityReview, securityHold := true), Allow)
    else if e == OpenDispute then
      if t.status == Payable || t.status == PayoutProcessing || t.status == Paid || t.status == Reconciled
      then (t.(status := Disputed, disputeOpen := true), Allow)
      else (t, Deny(DisputeStateInvalid))
    else
      if t.status == Payable || t.status == PayoutProcessing then (t.(status := PaymentHeld), Allow)
      else (t, Deny(PaymentHoldStateInvalid))
  }

  function Regular(t: TaskState, i: Input, forbidden: Option<DenyReason>): (TaskState, Decision) {
    var next := Table(t.status, i.event);
    if next.None? then (t, Deny(TransitionNotAllowed))
    else if forbidden.Some? then (t, Deny(forbidden.value))
    else Proceed(t, i, next.value)
  }

  /** What an event does that the table allows and nothing forbids. A revision beyond the limit is still refused,
      but only after the quality result has been recorded. */
  function Proceed(t: TaskState, i: Input, next: Status): (TaskState, Decision) {
    if i.event == AssignWorker then (t.(status := next, worker := WorkerId(i)), Allow)
    else if i.event == EscalationRevision then (t.(status := next, revisions := t.revisions + 1), Allow)
    else if Expected(i.event).Some? then
      var judged := t.(qaResult := QaId(i));
      if i.event != QaRevision then (judged.(status := next), Allow)
      else if t.revisions >= 2 then (judged, Deny(RevisionLimitReached))
      else (judged.(status := next, revisions := t.revisions + 1), Allow)
    else (t.(status := next), Allow)
  }

  function WorkerId(i: Input): Option<string> {
    if i.worker.Some? then Some(i.worker.value.id) else None
  }

  function QaId(i: Input): Option<string> {
    if i.qa.Some? then Some(i.qa.value.id) else None
  }

  function Row(t: TaskState, i: Input): AuditRow {
    AuditRow(t.id, i.event, i.actor, Step(t, i).1, t.status, Step(t, i).0.status, Step(t, i).0.revisions)
  }

  /** The task object. Every event, allowed or denied, leaves one row in the audit trail. */
  class Task {
    const id: string
    const fundingId: Option<string>
    const fee: int
    var worker: Option<string>
    var status: Status
    var revisions: int
    var qaResult: Option<string>
    var securityHold: bool
    var disputeOpen: bool
    var audit: seq<AuditRow>

    function State(): TaskState reads this {
      TaskState(id, fundingId, worker, status, fee, revisions, qaResult, securityHold, disputeOpen)
    }

    constructor (id: string, fundingId: Option<string>, fee: int)
      ensures State() == New(id, fundingId, fee) && audit == []
    {
      this.id, this.fundingId, this.fee := id, fundingId, fee;
      worker, status, revisions, qaResult := None, Draft, 0, None;
      securityHold, disputeOpen, audit := false, false, [];
    }

    method Note(i: Input, decision: Decision, previous: Status)
      modifies this`audit
      ensures audit == old(audit) + [AuditRow(id, i.event, i.actor, decision, previous, status, revisions)]
    {
      audit := audit + [AuditRow(id, i.event, i.actor, decision, previous, status, revisions)];
    }

    method Transition(i: Input) returns (decision: Decision)
      modifies this
      ensures (State(), decision) == Step(old(State()), i)
      ensures audit == old(audit) + [Row(old(State()), i)]
      ensures decision.Allow? <==> exists next :: Accepts(old(State()), i, next)
      ensures decision.Allow? ==> Accepts(old(State()), i, status) && Leaves(old(State()), i, State())
      ensures decision.Deny? ==> RefusedFor(old(State()), i, decision.reason)
    {
      AcceptedExactlyWhen(State(), i);
      var previous := status;
      decision := Decide(i);
      Note(i, decision, previous);
    }

    method DecideSpecial(e: Event) returns (decision: Decision)
      requires IsSpecial(e)
      modifies this
      ensures (State(), decision) == Special(old(State()), e) && audit == old(audit)
    {
      if e == SecurityFlag {
        status, securityHold := SecurityReview, true;
        return Allow;
      }
      if e == OpenDispute {
        if !(status == Payable || status == PayoutProcessing || status == Paid || status == Reconciled) {
          return Deny(DisputeStateInvalid);
        }
        status, disputeOpen := Disputed, true;
        return Allow;
      }
      if !(status == Payable || status == PayoutProcessing) {
        return Deny(PaymentHoldStateInvalid);
      }
      status := PaymentHeld;
      decision := Allow;
    }

    method DecideRegular(i: Input, forbidden: Option<DenyReason>) returns (decision: Decision)
      modifies this
      ensures (State(), decision) == Regular(old(State()), i, forbidden) && audit == old(audit)
    {
      var next := Table(status, i.event);
      if next.None? {
        return Deny(TransitionNotAllowed);
      }
      if forbidden.Some? {
        return Deny(forbidden.value);
      }
      if i.event == AssignWorker {
        worker := WorkerId(i);
      }
      if Expected(i.event).Some? {
        qaResult := QaId(i);
        if i.event == QaRevision {
          if revisions >= 2 {
            return Deny(RevisionLimitReached);
          }
          revisions := revisions + 1;
        }
      }
      if i.event == EscalationRevision {
        revisions := revisions + 1;
      }
      status := next.value;
      decision := Allow;
    }

    method Decide(i: Input) returns (decision: Decision)
      modifies this
      ensures (State(), decision) == Step(old(State()), i) && audit == old(audit)
    {
      if !MaySend(i.actor, i.event) {
        return Deny(UnauthorizedActorEvent);
      }
      if IsSpecial(i.event) {
        decision := DecideSpecial(i.event);
        return;
      }
      decision := DecideRegular(i, Forbidden(State(), i));
    }
  }

  // ---- What is accepted, event by event --------------------------------------------------

  predicate HasFunding(t: TaskState, i: Input) {
    i.funding.Some? && ValidFor(i.funding.value, t.fee)
  }

  /** The task's own worker, who is active, sends the event. */
  predicate ByOwner(t: TaskState, i: Input) {
    i.worker.Some? && t.worker == Some(i.worker.value.id) && i.worker.value.active
  }

  predicate JudgedAs(i: Input, v: Verdict) {
    i.qa.Some? && QaDecision(i.qa.value) == v
  }

  /** The event is accepted and takes the task to `next`: who may send it, from which status, and with what. */
  predicate Accepts(t: TaskState, i: Input, next: Status) {
    match i.event
    case FundConfirmed =>
      && i.actor == Finance && t.status == Draft && next == Funded
      && HasFunding(t, i) && t.fundingId == Some(i.funding.value.id)
    case MarkReady => i.actor == System && t.status == Funded && next == Ready && HasFunding(t, i)
    case AssignWorker =>
      && i.actor == System && t.status == Ready && next == Assigned
      && i.worker.Some? && i.worker.value.active && i.worker.value.integrityClear
    case StartTask => i.actor == WorkerActor && t.status == Assigned && next == InProgress && ByOwner(t, i)
    case SubmitWork => i.actor == WorkerActor && t.status == InProgress && next == Submitted && ByOwner(t, i)
    case StartQa => i.actor == QaService && t.status == Submitted && next == QaCheck
    case QaPass => i.actor == QaService && t.status == QaCheck && next == Pass && JudgedAs(i, VerdictPass)
    case QaRevision =>
      && i.actor == QaService && t.status == QaCheck && next == RevisionRequired
      && JudgedAs(i, VerdictRevision) && t.revisions < 2
    case QaEscalate => i.actor == QaService && t.status == QaCheck && next == Escalated && JudgedAs(i, VerdictEscalate)
    case QaReject => i.actor == QaService && t.status == QaCheck && next == Rejected && JudgedAs(i, VerdictReject)
    case StartRevision =>
      && i.actor == WorkerActor && t.status == RevisionRequired && next == InProgress
      && ByOwner(t, i) && t.revisions != 0
    case EscalationApprove =>
      && i.actor == Reviewer && t.status == Escalated && next == Pass
      && (i.qa.Some? || (t.qaResult.Some? && t.qaResult.value != ""))
    case EscalationRevision =>
      i.actor == Reviewer && t.status == Escalated && next == RevisionRequired && t.revisions < 2
    case EscalationReject => i.actor == Reviewer && t.status == Escalated && next == Rejected
    case CreatePayable =>
      && i.actor == Finance && t.status == Pass && next == Payable && !t.securityHold && !t.disputeOpen
      && HasFunding(t, i) && t.qaResult.Some? && t.qaResult.value != ""
    case ProcessPayout => i.actor == Finance && t.status == Payable && next == PayoutProcessing
    case ConfirmPaid =>
      i.actor == PaymentAdapter && t.status == PayoutProcessing && next == Paid && i.providerSuccess
    case Reconcile => i.actor == Finance && t.status == Paid && next == Reconciled && i.reconciliationOk
    case CloseTask => i.actor == System && t.status == Reconciled && next == Closed
    case SecurityFlag => i.actor == System && next == SecurityReview
    case HoldPayment =>
      i.actor == Finance && (t.status == Payable || t.status == PayoutProcessing) && next == PaymentHeld
    case OpenDispute =>
      && i.actor == Reviewer && next == Disputed
      && (t.status == Payable || t.status == PayoutProcessing || t.status == Paid || t.status == Reconciled)
    case OtherEvent(_) => false
  }

  /** What an accepted event leaves behind besides the status. */
  predicate Leaves(t: TaskState, i: Input, after: TaskState) {
    && after.id == t.id && after.fundingId == t.fundingId && after.fee == t.fee
    && after.worker == (if i.event == AssignWorker && i.worker.Some? then Some(i.worker.value.id) else t.worker)
    && after.revisions == t.revisions + (if i.event == QaRevision || i.event == EscalationRevision then 1 else 0)
    && after.qaResult == (if IsQa(i.event) && i.qa.Some? then Some(i.qa.value.id) else t.qaResult)
    && after.securityHold == (t.securityHold || i.event == SecurityFlag)
    && after.disputeOpen == (t.disputeOpen || i.event == OpenDispute)
  }

  predicate IsQa(e: Event) {
    e == QaPass || e == QaRevision || e == QaEscalate || e == QaReject
  }

  /** Some status lets this actor send the event. */
  predicate Sends(a: Actor, e: Event) {
    match e
    case MarkReady | AssignWorker | CloseTask | SecurityFlag => a == System
    case FundConfirmed | CreatePayable | ProcessPayout | Reconcile | HoldPayment => a == Finance
    case StartTask | SubmitWork | StartRevision => a == WorkerActor
    case StartQa | QaPass | QaRevision | QaEscalate | QaReject => a == QaService
    case EscalationApprove | EscalationRevision | EscalationReject | OpenDispute => a == Reviewer
    case ConfirmPaid => a == PaymentAdapter
    case OtherEvent(_) => false
  }

  /** What each refusal is about. */
  predicate RefusedFor(t: TaskState, i: Input, reason: DenyReason) {
    match reason
    case UnauthorizedActorEvent => !Sends(i.actor, i.event)
    case TransitionNotAllowed => Sends(i.actor, i.event) && !IsSpecial(i.event)
    case DisputeStateInvalid => i.event == OpenDispute
    case PaymentHoldStateInvalid => i.event == HoldPayment
    case FundingInvalidOrUnreserved =>
      i.event == FundConfirmed && !(HasFunding(t, i) && t.fundingId == Some(i.funding.value.id))
    case ReadyRequiresValidFunding => i.event == MarkReady && !HasFunding(t, i)
    case WorkerNotEligible =>
      i.event == AssignWorker && !(i.worker.Some? && i.worker.value.active && i.worker.value.integrityClear)
    case WorkerOwnershipRequired =>
      (i.event == StartTask || i.event == SubmitWork || i.event == StartRevision) && !ByOwner(t, i)
    case RevisionNotRequested => i.event == StartRevision && ByOwner(t, i) && t.revisions == 0
    case QaEvidenceRequired => IsQa(i.event) && i.qa.None?
    case QaDecisionMismatch =>
      && i.qa.Some?
      && ((i.event == QaPass && !JudgedAs(i, VerdictPass)) || (i.event == QaRevision && !JudgedAs(i, VerdictRevision))
          || (i.event == QaEscalate && !JudgedAs(i, VerdictEscalate))
          || (i.event == QaReject && !JudgedAs(i, VerdictReject)))
    case RevisionLimitReached =>
      t.revisions >= 2 && (i.event == EscalationRevision || (i.event == QaRevision && JudgedAs(i, VerdictRevision)))
    case PassRequiresQaEvidence => i.event == EscalationApprove && i.qa.None? && !Stated(t.qaResult)
    case PaymentRiskHold => i.event == CreatePayable && (t.securityHold || t.disputeOpen)
    case PayableRequiresReservedFunding =>
      i.event == CreatePayable && !t.securityHold && !t.disputeOpen && !HasFunding(t, i)
    case PayableRequiresQaPassEvidence =>
      i.event == CreatePayable && !t.securityHold && !t.disputeOpen && HasFunding(t, i) && !Stated(t.qaResult)
    case ProviderPaymentNotVerified => i.event == ConfirmPaid && !i.providerSuccess
    case ReconciliationFailed => i.event == Reconcile && !i.reconciliationOk
  }

  lemma SendsIsMaySend(a: Actor, e: Event)
    ensures MaySend(a, e) <==> Sends(a, e)
  {
  }

  /** The guards of an event on its way along the table, seen as what it must bring. */
  lemma ForbiddenByFields(t: TaskState, i: Input)
    requires MaySend(i.actor, i.event) && !IsSpecial(i.event) && Table(t.status, i.event).Some?
    ensures Forbidden(t, i).None? && !(i.event == QaRevision && t.revisions >= 2) <==>
      Accepts(t, i, Table(t.status, i.event).value)
  {
    SendsIsMaySend(i.actor, i.event);
  }

  lemma ForbiddenNamesFault(t: TaskState, i: Input)
    ensures Forbidden(t, i).Some? ==> RefusedFor(t, i, Forbidden(t, i).value)
    ensures Forbidden(t, i).None? && i.event == QaRevision ==> JudgedAs(i, VerdictRevision)
  {
  }

  lemma SpecialByFields(t: TaskState, i: Input)
    requires MaySend(i.actor, i.event) && IsSpecial(i.event)
    ensures
      var (after, d) := Special(t, i.event);
      && (d.Allow? ==> Accepts(t, i, after.status) && Leaves(t, i, after))
      && (d.Deny? ==> after == t && RefusedFor(t, i, d.reason) && forall next :: !Accepts(t, i, next))
  {
  }

  lemma ProceedByFields(t: TaskState, i: Input, next: Status)
    requires !IsSpecial(i.event) && Accepts(t, i, next)
    ensures Proceed(t, i, next).1 == Allow && Proceed(t, i, next).0.status == next
    ensures Leaves(t, i, Proceed(t, i, next).0)
  {
    AcceptedBrings(t, i, next);
    ProceedLeaves(t, i, next);
  }

  lemma ProceedLeaves(t: TaskState, i: Input, next: Status)
    requires !IsSpecial(i.event)
    requires (i.event == AssignWorker ==> i.worker.Some?) && (IsQa(i.event) ==> i.qa.Some?)
    requires i.event == QaRevision ==> t.revisions < 2
    ensures Proceed(t, i, next).1 == Allow && Proceed(t, i, next).0.status == next
    ensures Leaves(t, i, Proceed(t, i, next).0)
  {
  }

  lemma AcceptedBrings(t: TaskState, i: Input, next: Status)
    requires Accepts(t, i, next)
    ensures i.event == AssignWorker ==> i.worker.Some?
    ensures IsQa(i.event) ==> i.qa.Some?
    ensures i.event == QaRevision ==> t.revisions < 2
  {
  }

  lemma OneNext(t: TaskState, i: Input)
    requires !IsSpecial(i.event)
    ensures forall next :: Accepts(t, i, next) ==> Sends(i.actor, i.event) && Table(t.status, i.event) == Some(next)
  {
  }

  /** An event is accepted exactly when its sender, the task's status and what it brings are in order, and then it
      does this much and no more; otherwise its own shortcoming is named. */
  lemma AcceptedExactlyWhen(t: TaskState, i: Input)
    ensures
      var (after, d) := Step(t, i);
      && (d.Allow? <==> exists next :: Accepts(t, i, next))
      && (d.Allow? ==> Accepts(t, i, after.status) && Leaves(t, i, after))
      && (d.Deny? ==> RefusedFor(t, i, d.reason))
  {
    SendsIsMaySend(i.actor, i.event);
    if MaySend(i.actor, i.event) {
      if IsSpecial(i.event) {
        SpecialByFields(t, i);
      } else {
        RegularByFields(t, i);
      }
    } else {
      NobodyElse(t, i);
    }
  }

  lemma NobodyElse(t: TaskState, i: Input)
    requires !Sends(i.actor, i.event)
    ensures forall next :: !Accepts(t, i, next)
  {
  }

  lemma RegularByFields(t: TaskState, i: Input)
    requires MaySend(i.actor, i.event) && !IsSpecial(i.event)
    ensures
      var (after, d) := Regular(t, i, Forbidden(t, i));
      && (d.Allow? <==> exists next :: Accepts(t, i, next))
      && (d.Allow? ==> Accepts(t, i, after.status) && Leaves(t, i, after))
      && (d.Deny? ==> RefusedFor(t, i, d.reason))
  {
    SendsIsMaySend(i.actor, i.event);
    OneNext(t, i);
    if Table(t.status, i.event).Some? {
      var next := Table(t.status, i.event).value;
      ForbiddenByFields(t, i);
      ForbiddenNamesFault(t, i);
      if Accepts(t, i, next) {
        ProceedByFields(t, i, next);
      }
    }
  }

  // ---- Nothing is paid that the provider did not confirm ---------------------------------

  predicate PaidOut(s: Status) {
    s == Paid || s == Reconciled || s == Closed
  }

  predicate Confirmed(i: Input) {
    i.event == ConfirmPaid && i.actor == PaymentAdapter && i.providerSuccess
  }

  lemma PaidByConfirmation(t: TaskState, i: Input)
    requires PaidOut(Step(t, i).0.status) && !PaidOut(t.status)
    ensures Step(t, i).1 == Allow && Confirmed(i)
  {
    AcceptedExactlyWhen(t, i);
    StepChanges(t, i);
  }

  /** A task that is paid, reconciled or closed was confirmed by the payment adapter, with the provider's success, at
      some point of its run. */
  lemma {:induction false} PaidIsConfirmed(t: TaskState, inputs: seq<Input>) returns (k: nat)
    requires !PaidOut(t.status) && PaidOut(Run(t, inputs).status)
    ensures k < |inputs| && Confirmed(inputs[k]) && Step(Run(t, inputs[..k]), inputs[k]).1 == Allow
  {
    var last := |inputs| - 1;
    if PaidOut(Run(t, inputs[..last]).status) {
      k := PaidIsConfirmed(t, inputs[..last]);
      assert inputs[..last][..k] == inputs[..k];
    } else {
      k := last;
      PaidByConfirmation(Run(t, inputs[..last]), inputs[last]);
    }
  }

  // ---- What holds in every reachable state -----------------------------------------------

  function New(id: string, fundingId: Option<string>, fee: int): TaskState {
    TaskState(id, fundingId, None, Draft, fee, 0, None, false, false)
  }

  predicate IsPayment(s: Status) {
    s == Payable || s == PayoutProcessing || s == Paid || s == Reconciled || s == Closed || s == PaymentHeld
      || s == Disputed
  }

  predicate BeforeWork(s: Status) {
    s == Draft || s == Funded || s == Ready
  }

  ghost predicate Invariant(t: TaskState) {
    Numbers(t) && Papers(t) && Holds(t)
  }

  predicate Numbers(t: TaskState) {
    && 0 <= t.revisions <= 2
    && (BeforeWork(t.status) || t.status == Assigned ==> t.revisions == 0)
    && (t.status == RevisionRequired ==> t.revisions > 0)
  }

  predicate Papers(t: TaskState) {
    HasWorker(t) && HasQa(t)
  }

  predicate HasWorker(t: TaskState) {
    !BeforeWork(t.status) && t.status != SecurityReview ==> t.worker.Some?
  }

  predicate HasQa(t: TaskState) {
    && (IsPayment(t.status) ==> Stated(t.qaResult))
    && (t.status == Escalated || t.status == Pass ==> t.qaResult.Some?)
  }

  predicate Holds(t: TaskState) {
    && (t.securityHold <==> t.status == SecurityReview)
    && (t.status == Disputed ==> t.disputeOpen)
    && (t.disputeOpen ==> t.status == Disputed || t.status == SecurityReview)
    && t.status != Cancelled
  }

  // ---- What one event does, seen from outside --------------------------------------------

  predicate Revises(e: Event) {
    e == EscalationRevision || e == QaRevision
  }

  /** What an event that nothing forbids brings along. */
  predicate Backed(t: TaskState, i: Input) {
    && (i.event == AssignWorker ==> i.worker.Some?)
    && (Expected(i.event).Some? ==> i.qa.Some?)
    && (i.event == EscalationRevision ==> t.revisions < 2)
    && (i.event == CreatePayable ==> Stated(t.qaResult) && i.funding.Some? && ValidFor(i.funding.value, t.fee))
  }

  lemma ForbiddenGuards(t: TaskState, i: Input)
    ensures Forbidden(t, i).None? ==> Backed(t, i)
    ensures i.event == QaRevision ==> Forbidden(t, i) != Some(RevisionLimitReached)
  {
  }

  /** What proceeding does to status and revisions. */
  ghost predicate MovedCounts(t: TaskState, e: Event, next: Status, after: TaskState, decision: Decision) {
    if decision.Allow? then
      && after.status == next && after.revisions == (if Revises(e) then t.revisions + 1 else t.revisions)
      && (Revises(e) ==> t.revisions < 2)
    else
      && after.status == t.status && after.revisions == t.revisions
      && e == QaRevision && decision.reason == RevisionLimitReached
  }

  /** What it does to the other fields. */
  ghost predicate MovedPapers(t: TaskState, i: Input, after: TaskState) {
    && (if i.event == AssignWorker then after.worker.Some? else after.worker == t.worker)
    && (if Expected(i.event).Some? then i.qa.Some? && after.qaResult == Some(i.qa.value.id)
        else after.qaResult == t.qaResult)
    && after.securityHold == t.securityHold && after.disputeOpen == t.disputeOpen
    && after.fee == t.fee && after.id == t.id && after.fundingId == t.fundingId
  }

  ghost predicate Moved(t: TaskState, i: Input, next: Status, after: TaskState, decision: Decision) {
    MovedCounts(t, i.event, next, after, decision) && MovedPapers(t, i, after)
  }

  lemma ProceedMovesCounts(t: TaskState, i: Input, next: Status)
    requires i.event == EscalationRevision ==> t.revisions < 2
    ensures MovedCounts(t, i.event, next, Proceed(t, i, next).0, Proceed(t, i, next).1)
  {
  }

  lemma ProceedMovesPapers(t: TaskState, i: Input, next: Status)
    requires (i.event == AssignWorker ==> i.worker.Some?) && (Expected(i.event).Some? ==> i.qa.Some?)
    ensures MovedPapers(t, i, Proceed(t, i, next).0)
  {
  }

  lemma ProceedMoves(t: TaskState, i: Input, next: Status)
    requires Backed(t, i)
    ensures Moved(t, i, next, Proceed(t, i, next).0, Proceed(t, i, next).1)
  {
    ProceedMovesCounts(t, i, next);
    ProceedMovesPapers(t, i, next);
  }

  /** An event changes nothing, or is special, or moves the task along the table. */
  ghost predicate Changed(t: TaskState, i: Input, after: TaskState, decision: Decision) {
    || (after == t && decision.Deny? && !(i.event == QaRevision && decision.reason == RevisionLimitReached))
    || (MaySend(i.actor, i.event) && IsSpecial(i.event) && (after, decision) == Special(t, i.event))
    || (MaySend(i.actor, i.event) && !IsSpecial(i.event) && Table(t.status, i.event).Some? && Backed(t, i)
        && Moved(t, i, Table(t.status, i.event).value, after, decision))
  }

  lemma StepChanges(t: TaskState, i: Input)
    ensures Changed(t, i, Step(t, i).0, Step(t, i).1)
  {
    ForbiddenGuards(t, i);
    RegularChanges(t, i, Forbidden(t, i));
  }

  lemma RegularChanges(t: TaskState, i: Input, forbidden: Option<DenyReason>)
    requires forbidden.None? ==> Backed(t, i)
    requires i.event == QaRevision ==> forbidden != Some(RevisionLimitReached)
    ensures MaySend(i.actor, i.event) && !IsSpecial(i.event) ==>
      Changed(t, i, Regular(t, i, forbidden).0, Regular(t, i, forbidden).1)
  {
    var next := Table(t.status, i.event);
    if next.Some? && forbidden.None? {
      ProceedMoves(t, i, next.value);
    }
  }

  lemma MovedKeepsNumbers(t: TaskState, i: Input, next: Status, after: TaskState, decision: Decision)
    requires Numbers(t) && Table(t.status, i.event) == Some(next) && Moved(t, i, next, after, decision)
    ensures Numbers(after)
  {
  }

  lemma MovedKeepsWorker(t: TaskState, i: Input, next: Status, after: TaskState, decision: Decision)
    requires HasWorker(t) && Table(t.status, i.event) == Some(next) && Moved(t, i, next, after, decision)
    ensures HasWorker(after)
  {
  }

  lemma MovedKeepsQa(t: TaskState, i: Input, next: Status, after: TaskState, decision: Decision)
    requires HasQa(t) && Table(t.status, i.event) == Some(next) && Moved(t, i, next, after, decision)
    requires i.event == CreatePayable ==> Stated(t.qaResult)
    ensures HasQa(after)
  {
  }

  lemma MovedKeepsHolds(t: TaskState, i: Input, next: Status, after: TaskState, decision: Decision)
    requires Holds(t) && Table(t.status, i.event) == Some(next) && Moved(t, i, next, after, decision)
    ensures Holds(after)
  {
  }

  lemma SpecialKeepsInvariant(t: TaskState, e: Event)
    requires Invariant(t) && IsSpecial(e)
    ensures Invariant(Special(t, e).0)
  {
  }

  lemma ChangedKeepsInvariant(t: TaskState, i: Input, after: TaskState, decision: Decision)
    requires Invariant(t) && Changed(t, i, after, decision)
    ensures Invariant(after)
  {
    if IsSpecial(i.event) {
      SpecialKeepsInvariant(t, i.event);
    } else if after != t {
      var next := Table(t.status, i.event).value;
      MovedKeepsNumbers(t, i, next, after, decision);
      MovedKeepsWorker(t, i, next, after, decision);
      MovedKeepsQa(t, i, next, after, decision);
      MovedKeepsHolds(t, i, next, after, decision);
    }
  }

  lemma StepKeepsInvariant(t: TaskState, i: Input)
    requires Invariant(t)
    ensures Invariant(Step(t, i).0)
  {
    StepChanges(t, i);
    ChangedKeepsInvariant(t, i, Step(t, i).0, Step(t, i).1);
  }

  function Run(t: TaskState, inputs: seq<Input>): TaskState {
    if inputs == [] then t else Step(Run(t, inputs[..|inputs| - 1]), inputs[|inputs| - 1]).0
  }

  function Trail(t: TaskState, inputs: seq<Input>): seq<AuditRow> {
    if inputs == [] then []
    else Trail(t, inputs[..|inputs| - 1]) + [Row(Run(t, inputs[..|inputs| - 1]), inputs[|inputs| - 1])]
  }

  /** In every state a new task can reach, the invariant holds. */
  lemma {:induction false} RunKeepsInvariant(t: TaskState, inputs: seq<Input>)
    requires Invariant(t)
    ensures Invariant(Run(t, inputs))
  {
    if inputs == [] {
    } else {
      RunKeepsInvariant(t, inputs[..|inputs| - 1]);
      StepKeepsInvariant(Run(t, inputs[..|inputs| - 1]), inputs[|inputs| - 1]);
    }
  }

  /** The exact condition under which a denied event still changes the task: the quality service asks, with a result
      that calls for a revision, when the revisions are used up. Then the new result has replaced the old one. */
  lemma DenialChangesExactlyWhen(t: TaskState, i: Input)
    ensures (Step(t, i).1.Deny? && Step(t, i).0 != t) <==>
      RevisionPastLimit(t, i) && t.qaResult != Some(i.qa.value.id)
    ensures RevisionPastLimit(t, i) ==>
      Step(t, i) == (t.(qaResult := Some(i.qa.value.id)), Deny(RevisionLimitReached))
  {
    StepChanges(t, i);
  }

  predicate RevisionPastLimit(t: TaskState, i: Input) {
    && i.actor == QaService && i.event == QaRevision && t.status == QaCheck && t.revisions >= 2
    && i.qa.Some? && QaDecision(i.qa.value) == VerdictRevision
  }

  lemma ForbiddenNever(t: TaskState, i: Input)
    requires Invariant(t) && Table(t.status, i.event).Some?
    ensures Forbidden(t, i) != Some(RevisionNotRequested) && Forbidden(t, i) != Some(PaymentRiskHold)
  {
  }

  lemma DenialIs(t: TaskState, i: Input, reason: DenyReason)
    requires Step(t, i).1 == Deny(reason) && (reason == RevisionNotRequested || reason == PaymentRiskHold)
    ensures Table(t.status, i.event).Some? && Forbidden(t, i) == Some(reason)
  {
    RegularDenialIs(t, i, Forbidden(t, i), reason);
  }

  lemma RegularDenialIs(t: TaskState, i: Input, forbidden: Option<DenyReason>, reason: DenyReason)
    requires reason == RevisionNotRequested || reason == PaymentRiskHold
    ensures Regular(t, i, forbidden).1 == Deny(reason) ==> Table(t.status, i.event).Some? && forbidden == Some(reason)
  {
  }

  /** Two refusals never happen to a new task: a revision nobody requested, and a payment under a risk hold. */
  lemma DeadRefusals(id: string, fundingId: Option<string>, fee: int, inputs: seq<Input>, i: Input)
    ensures
      var d := Step(Run(New(id, fundingId, fee), inputs), i).1;
      d != Deny(RevisionNotRequested) && d != Deny(PaymentRiskHold)
  {
    var t := Run(New(id, fundingId, fee), inputs);
    RunKeepsInvariant(New(id, fundingId, fee), inputs);
    var d := Step(t, i).1;
    if d == Deny(RevisionNotRequested) || d == Deny(PaymentRiskHold) {
      DenialIs(t, i, d.reason);
      ForbiddenNever(t, i);
    }
  }

  // ---- How long a task can live ----------------------------------------------------------

  /** How many more events other than security flags a task can accept, by its status and revisions so far. */
  function Life(s: Status, revisions: int): int {
    var cycles := 5 * (2 - revisions);
    match s
    case Draft => 13 + cycles
    case Funded => 12 + cycles
    case Ready => 11 + cycles
    case Assigned => 10 + cycles
    case RevisionRequired => 10 + cycles
    case InProgress => 9 + cycles
    case Submitted => 8 + cycles
    case QaCheck => 7 + cycles
    case Escalated => 6 + cycles
    case Pass => 5
    case Payable => 4
    case PayoutProcessing => 3
    case Paid => 2
    case Reconciled => 1
    case _ => 0
  }

  function Left(t: TaskState): int {
    Life(t.status, t.revisions)
  }

  lemma LifeShortens(s: Status, e: Event, next: Status, revisions: int)
    requires Table(s, e) == Some(next) && 0 <= revisions <= 2 && (Revises(e) ==> revisions < 2)
    ensures 0 <= Life(next, if Revises(e) then revisions + 1 else revisions) < Life(s, revisions)
  {
  }

  /** The event is accepted, and is no security flag. */
  predicate Counts(t: TaskState, i: Input) {
    Step(t, i).1.Allow? && i.event != SecurityFlag
  }

  lemma ChangedCostsOne(t: TaskState, i: Input, after: TaskState, decision: Decision)
    requires Invariant(t) && Changed(t, i, after, decision)
    ensures 0 <= Left(after) <= Left(t)
    ensures decision.Allow? && i.event != SecurityFlag ==> Left(after) < Left(t)
  {
    StepCostsNothing(t);
    if !IsSpecial(i.event) && decision.Allow? {
      LifeShortens(t.status, i.event, Table(t.status, i.event).value, t.revisions);
    }
  }

  lemma StepCostsOne(t: TaskState, i: Input)
    requires Invariant(t)
    ensures 0 <= Left(Step(t, i).0) <= Left(t)
    ensures Counts(t, i) ==> Left(Step(t, i).0) < Left(t)
  {
    StepChanges(t, i);
    ChangedCostsOne(t, i, Step(t, i).0, Step(t, i).1);
  }

  /** How many events other than security flags a run accepts. */
  function Accepted(t: TaskState, inputs: seq<Input>): nat
    decreases |inputs|
  {
    if inputs == [] then 0 else (if Counts(t, inputs[0]) then 1 else 0) + Accepted(Step(t, inputs[0]).0, inputs[1..])
  }

  lemma {:induction false} AcceptedIsBounded(t: TaskState, inputs: seq<Input>)
    requires Invariant(t)
    ensures Accepted(t, inputs) <= Left(t)
    decreases |inputs|
  {
    StepCostsNothing(t);
    if inputs != [] {
      StepCostsOne(t, inputs[0]);
      StepKeepsInvariant(t, inputs[0]);
      AcceptedIsBounded(Step(t, inputs[0]).0, inputs[1..]);
    }
  }

  lemma StepCostsNothing(t: TaskState)
    requires Invariant(t)
    ensures Left(t) >= 0
  {
  }

  /** No run of a new task accepts more than 23 events other than security flags. */
  lemma AtMostTwentyThree(id: string, fundingId: Option<string>, fee: int, inputs: seq<Input>)
    ensures Accepted(New(id, fundingId, fee), inputs) <= 23
  {
    AcceptedIsBounded(New(id, fundingId, fee), inputs);
  }

  // ---- The bound is reached --------------------------------------------------------------

  /** Nothing but the caller's inputs stands in the task's way. */
  ghost predicate Promising(t: TaskState) {
    && Invariant(t) && t.fee > 0 && t.fundingId.Some?
    && (t.status == Escalated || t.status == Pass ==> Stated(t.qaResult))
  }

  /** The event, and who may send it, that keep the longest life ahead. */
  function OnwardEvent(s: Status, revisions: int): (Event, Actor) {
    match s
    case Draft => (FundConfirmed, Finance)
    case Funded => (MarkReady, System)
    case Ready => (AssignWorker, System)
    case Assigned => (StartTask, WorkerActor)
    case RevisionRequired => (StartRevision, WorkerActor)
    case InProgress => (SubmitWork, WorkerActor)
    case Submitted => (StartQa, QaService)
    case QaCheck => (QaEscalate, QaService)
    case Escalated => if revisions < 2 then (EscalationRevision, Reviewer) else (EscalationApprove, Reviewer)
    case Pass => (CreatePayable, Finance)
    case Payable => (ProcessPayout, Finance)
    case PayoutProcessing => (ConfirmPaid, PaymentAdapter)
    case Paid => (Reconcile, Finance)
    case _ => (CloseTask, System)
  }

  function Onward(t: TaskState): Input {
    var funding := Funding(if t.fundingId.Some? then t.fundingId.value else [], t.fee, t.fee, 0, "MYR");
    var worker := Worker(if t.worker.Some? then t.worker.value else [], true, true);
    var (event, actor) := OnwardEvent(t.status, t.revisions);
    Input(event, actor, Some(funding), Some(worker), Some(Qa("q", [], 0.0, [])), true, true)
  }

  lemma OnwardLife(s: Status, revisions: int)
    requires 0 <= revisions <= 2 && Life(s, revisions) > 0
    ensures
      var (event, actor) := OnwardEvent(s, revisions);
      && MaySend(actor, event) && event != SecurityFlag && event != OpenDispute && event != HoldPayment
      && event != QaRevision && (event == EscalationRevision ==> revisions < 2)
      && Table(s, event).Some?
      && Life(Table(s, event).value, if Revises(event) then revisions + 1 else revisions) == Life(s, revisions) - 1
  {
  }

  lemma OnwardIsNotForbidden(t: TaskState)
    requires Promising(t) && Left(t) > 0
    ensures Forbidden(t, Onward(t)).None?
  {
  }

  lemma OnwardLosesOne(t: TaskState)
    requires Promising(t) && Left(t) > 0
    ensures Counts(t, Onward(t)) && Promising(Step(t, Onward(t)).0) && Left(Step(t, Onward(t)).0) == Left(t) - 1
  {
    var i := Onward(t);
    OnwardLife(t.status, t.revisions);
    OnwardIsNotForbidden(t);
    ForbiddenGuards(t, i);
    ProceedMoves(t, i, Table(t.status, i.event).value);
    StepKeepsInvariant(t, i);
  }

  /** From a promising task, exactly as many events as the measure allows can be accepted. */
  lemma {:induction false} MeasureIsReached(t: TaskState)
    requires Promising(t)
    ensures exists inputs :: Accepted(t, inputs) == Left(t)
    decreases Left(t)
  {
    if Left(t) <= 0 {
      StepCostsNothing(t);
      assert Accepted(t, []) == Left(t);
    } else {
      var i := Onward(t);
      OnwardLosesOne(t);
      MeasureIsReached(Step(t, i).0);
      var rest :| Accepted(Step(t, i).0, rest) == Left(Step(t, i).0);
      assert ([i] + rest)[1..] == rest;
      assert Accepted(t, [i] + rest) == Left(t);
    }
  }

  /** A new task with a fee and a funding can live through all 23. */
  lemma TwentyThreeIsReached(id: string, funding: string, fee: int)
    requires fee > 0
    ensures exists inputs :: Accepted(New(id, Some(funding), fee), inputs) == 23
  {
    MeasureIsReached(New(id, Some(funding), fee));
  }

  // ---- A denial that changes a task a run can reach --------------------------------------

  /** A promising task can be led on until any given number of events is left. */
  lemma {:induction false} LeadOn(t: TaskState, left: nat) returns (inputs: seq<Input>)
    requires Promising(t) && left <= Left(t)
    ensures Promising(Run(t, inputs)) && Left(Run(t, inputs)) == left
    decreases Left(t) - left
  {
    if Left(t) == left {
      inputs := [];
    } else {
      var before := LeadOn(t, left + 1);
      var i := Onward(Run(t, before));
      OnwardLosesOne(Run(t, before));
      inputs := before + [i];
      assert inputs[..|before|] == before;
    }
  }

  lemma SevenLeft(s: Status, revisions: int)
    requires 0 <= revisions <= 2 && Life(s, revisions) == 7
    ensures s == QaCheck && revisions == 2
  {
  }

  /** Parts that add up to a result good enough to be revised. */
  function Middling(): Qa {
    Qa("z", [75], 1.0, [])
  }

  /** A new task reaches a state in which a denied event changes it. */
  lemma DenialChangesReachableTask(id: string, funding: string, fee: int) returns (inputs: seq<Input>, i: Input)
    requires fee > 0
    ensures
      var t := Run(New(id, Some(funding), fee), inputs);
      Step(t, i).1 == Deny(RevisionLimitReached) && Step(t, i).0 != t
  {
    inputs := LeadOn(New(id, Some(funding), fee), 7);
    var t := Run(New(id, Some(funding), fee), inputs);
    SevenLeft(t.status, t.revisions);
    i := Input(QaRevision, QaService, None, None, Some(Middling()), false, false);
    assert Sum([75]) == 75 by {
      assert [75][..0] == [];
    }
    if t.qaResult == Some("z") {
      i := i.(qa := Some(Middling().(id := "y")));
      assert "y"[0] != "z"[0];
    }
    assert RevisionPastLimit(t, i);
    DenialChangesExactlyWhen(t, i);
  }

  // ---- The audit trail -------------------------------------------------------------------

  /** The rows link up: the first starts where the task started, each next starts where the last one ended, and
      the last ends at the task's status; denied rows change no status. */
  ghost predicate Linked(start: Status, rows: seq<AuditRow>, end: Status) {
    && (if rows == [] then start == end else rows[0].previous == start && rows[|rows| - 1].next == end)
    && (forall i, j :: 0 <= i && j == i + 1 && j < |rows| ==> rows[i].next == rows[j].previous)
    && (forall i :: 0 <= i < |rows| && rows[i].decision.Deny? ==> rows[i].next == rows[i].previous)
  }

  lemma {:induction false} TrailIsLinked(t: TaskState, inputs: seq<Input>)
    ensures Linked(t.status, Trail(t, inputs), Run(t, inputs).status) && |Trail(t, inputs)| == |inputs|
  {
    if inputs == [] {
    } else {
      var k := |inputs| - 1;
      TrailIsLinked(t, inputs[..k]);
      RowIsHonest(Run(t, inputs[..k]), inputs[k]);
    }
  }

  lemma RowIsHonest(t: TaskState, i: Input)
    ensures Row(t, i).decision.Deny? ==> Row(t, i).next == t.status
    ensures Row(t, i).decision.Allow? ==>
      Table(t.status, i.event) == Some(Row(t, i).next) || i.event == SecurityFlag || i.event == OpenDispute
      || i.event == HoldPayment
  {
    StepChanges(t, i);
  }

  predicate Approves(r: AuditRow) {
    r.decision == Allow && ((r.event == QaPass && r.actor == QaService)
                            || (r.event == EscalationApprove && r.actor == Reviewer))
  }

  predicate Funds(r: AuditRow) {
    r.decision == Allow && r.event == CreatePayable && r.actor == Finance
  }

  lemma StepToPass(t: TaskState, i: Input)
    ensures Row(t, i).next == Pass || IsPayment(Row(t, i).next) ==>
      t.status == Pass || IsPayment(t.status) || Approves(Row(t, i))
    ensures IsPayment(Row(t, i).next) && !IsPayment(t.status) ==>
      Funds(Row(t, i)) && i.funding.Some? && ValidFor(i.funding.value, t.fee)
  {
    StepChanges(t, i);
    ChangedToPass(t, i, Step(t, i).0, Step(t, i).1);
  }

  lemma ChangedToPass(t: TaskState, i: Input, after: TaskState, decision: Decision)
    requires Changed(t, i, after, decision)
    ensures after.status == Pass || IsPayment(after.status) ==>
      || t.status == Pass || IsPayment(t.status)
      || (decision == Allow
          && ((i.event == QaPass && i.actor == QaService) || (i.event == EscalationApprove && i.actor == Reviewer)))
    ensures IsPayment(after.status) && !IsPayment(t.status) ==>
      decision == Allow && i.event == CreatePayable && i.actor == Finance && Backed(t, i)
  {
    if !IsSpecial(i.event) && decision.Allow? {
      TableToPass(t.status, i.event, Table(t.status, i.event).value, i.actor);
    }
  }

  lemma TableToPass(s: Status, e: Event, next: Status, a: Actor)
    requires Table(s, e) == Some(next)
    ensures MaySend(a, e) && (next == Pass || IsPayment(next)) ==>
      s == Pass || IsPayment(s) || (e == QaPass && a == QaService) || (e == EscalationApprove && a == Reviewer)
    ensures MaySend(a, e) && IsPayment(next) ==> IsPayment(s) || (e == CreatePayable && a == Finance)
  {
  }

  /** The rows show an approval before the task is passed or paid, and who made it payable before it is paid. */
  ghost predicate EarnedBy(s: Status, rows: seq<AuditRow>) {
    && (s == Pass || IsPayment(s) ==> exists k :: 0 <= k < |rows| && Approves(rows[k]))
    && (IsPayment(s) ==> exists k :: 0 <= k < |rows| && Funds(rows[k]))
  }

  lemma EarnedNext(s: Status, rows: seq<AuditRow>, row: AuditRow, s': Status)
    requires EarnedBy(s, rows)
    requires s' == Pass || IsPayment(s') ==> s == Pass || IsPayment(s) || Approves(row)
    requires IsPayment(s') ==> IsPayment(s) || Funds(row)
    ensures EarnedBy(s', rows + [row])
  {
    var more := rows + [row];
    assert more[|rows|] == row;
    if s == Pass || IsPayment(s) {
      var k :| 0 <= k < |rows| && Approves(rows[k]);
      assert Approves(more[k]);
    }
    if IsPayment(s) {
      var k :| 0 <= k < |rows| && Funds(rows[k]);
      assert Funds(more[k]);
    }
  }

  /** Nothing is passed or paid that the quality service did not pass or a reviewer did not approve, and nothing
      is paid that finance did not make payable: the trail says when. */
  lemma {:induction false} PaymentIsEarned(t: TaskState, inputs: seq<Input>)
    requires t.status == Draft
    ensures EarnedBy(Run(t, inputs).status, Trail(t, inputs))
  {
    if inputs == [] {
    } else {
      var k := |inputs| - 1;
      var before := Run(t, inputs[..k]);
      PaymentIsEarned(t, inputs[..k]);
      StepToPass(before, inputs[k]);
      EarnedNext(before.status, Trail(t, inputs[..k]), Row(before, inputs[k]), Run(t, inputs).status);
    }
  }

  // ---- Entitlement -----------------------------------------------------------------------

  datatype EntitlementError = TaskNotPayable | WorkerRequired | QaEvidenceMissing | FundingInvalid

  datatype Earnings = Earnings(key: string, taskId: string, worker: string, amount: int, currency: string,
                               fundingId: string)

  function Entitle(t: TaskState, f: Funding, digest: (string, string, string) -> string)
    : (r: Result<Earnings, EntitlementError>)
    ensures r.Ok? <==> t.status == Payable && Stated(t.worker) && Stated(t.qaResult) && ValidFor(f, t.fee)
    ensures r.Ok? ==>
      && r.value.taskId == t.id && Some(r.value.worker) == t.worker && r.value.amount == t.fee
      && r.value.currency == f.currency && r.value.fundingId == f.id
      && r.value.key == digest(t.id, r.value.worker, f.id)
    ensures r == Err(TaskNotPayable) <==> t.status != Payable
    ensures r == Err(WorkerRequired) <==> t.status == Payable && !Stated(t.worker)
    ensures r == Err(QaEvidenceMissing) <==> t.status == Payable && Stated(t.worker) && !Stated(t.qaResult)
  {
    if t.status != Payable then Err(TaskNotPayable)
    else if !Stated(t.worker) then Err(WorkerRequired)
    else if !Stated(t.qaResult) then Err(QaEvidenceMissing)
    else if !ValidFor(f, t.fee) then Err(FundingInvalid)
    else Ok(Earnings(digest(t.id, t.worker.value, f.id), t.id, t.worker.value, t.fee, f.currency, f.id))
  }

  /** A payable task never lacks its evidence: entitlement fails only for a nameless worker or invalid funding. */
  lemma PayableIsEntitled(id: string, fundingId: Option<string>, fee: int, inputs: seq<Input>, f: Funding,
                          digest: (string, string, string) -> string)
    ensures
      var t := Run(New(id, fundingId, fee), inputs);
      t.status == Payable ==> (Entitle(t, f, digest).Ok? <==> t.worker != Some("") && ValidFor(f, fee))
  {
    RunKeepsInvariant(New(id, fundingId, fee), inputs);
    FeeStays(New(id, fundingId, fee), inputs);
  }

  lemma StepKeepsFee(t: TaskState, i: Input)
    ensures Step(t, i).0.fee == t.fee && Step(t, i).0.id == t.id
  {
    StepChanges(t, i);
  }

  lemma {:induction false} FeeStays(t: TaskState, inputs: seq<Input>)
    ensures Run(t, inputs).fee == t.fee && Run(t, inputs).id == t.id
  {
    if inputs == [] {
    } else {
      FeeStays(t, inputs[..|inputs| - 1]);
      StepKeepsFee(Run(t, inputs[..|inputs| - 1]), inputs[|inputs| - 1]);
    }
  }
}
