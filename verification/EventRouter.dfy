/** Event intake: idempotent, and safe against a stop between creating a task and acknowledging it. */
module EventRouter {
  import opened Prelude
  import opened RunLedger
  import opened TaskBoard

  datatype EventType = Manual | Schedule | Incident | CiFailure | ObservabilityAlert | OtherType(text: string)

  datatype ImprovementEvent = ImprovementEvent(
    eventId: string, eventType: EventType, objective: string, target: Target, risk: Risk,
    reversible: bool, production: bool, evidenceRef: string)

  /** Who would work on the event, and how often it may be retried. */
  datatype Roles = Roles(builderId: string, validatorId: string, certifierId: string, maxRemediationAttempts: int)

  /** What the answer to a duplicate says of the entry that spoke of the event first. */
  datatype PriorReason = EventAlreadySeen | BoundedNonProductionEvent | RejectedFor(why: Rejection)

  datatype Decision =
    | EventIdRequired
    | Duplicate(prior: PriorReason, known: Option<string>)
    | TurnedAway(escalate: bool, why: Rejection)
    | Accepted(taskId: string)

  predicate Separated(roles: Roles) {
    && roles.builderId != roles.validatorId && roles.builderId != roles.certifierId
    && roles.validatorId != roles.certifierId
  }

  predicate Named(roles: Roles) {
    !Blank(roles.builderId) && !Blank(roles.validatorId) && !Blank(roles.certifierId)
  }

  /** An event that becomes a task: of a known type, with objective and evidence, on an allowed target outside
      production, of low or medium risk, reversible, and for three named, different people with a budget. */
  predicate Welcome(e: ImprovementEvent, roles: Roles) {
    && !e.eventType.OtherType? && !Blank(e.objective) && ValidRef(e.evidenceRef)
    && e.target.Allowed? && !e.production && (e.risk == Low || e.risk == Medium) && e.reversible
    && Named(roles) && Separated(roles) && 0 <= roles.maxRemediationAttempts
  }

  /** What each rejection is about. */
  predicate Unwelcome(e: ImprovementEvent, roles: Roles, why: Rejection) {
    match why
    case UnknownEventType => e.eventType.OtherType?
    case ObjectiveRequired => Blank(e.objective)
    case EvidenceReferenceRequired => !ValidRef(e.evidenceRef)
    case HumanOnlyEvent => e.target.HumanOnly?
    case UnknownEventTarget => e.target.OtherTarget?
    case EventProductionBoundary => e.production
    case UnknownRisk => e.risk.OtherRisk?
    case HighRisk => e.risk == High
    case EventNotReversible => !e.reversible
    case RoleIdentityRequired => !Named(roles)
    case RolesNotSeparate => !Separated(roles)
    case InvalidRemediationBudget => roles.maxRemediationAttempts < 0
  }

  /** The order in which an event is looked at. */
  function Turn(why: Rejection): nat {
    match why
    case UnknownEventType => 0
    case ObjectiveRequired => 1
    case EvidenceReferenceRequired => 2
    case HumanOnlyEvent => 3
    case UnknownEventTarget => 4
    case EventProductionBoundary => 5
    case UnknownRisk => 6
    case HighRisk => 7
    case EventNotReversible => 8
    case RoleIdentityRequired => 9
    case RolesNotSeparate => 10
    case InvalidRemediationBudget => 11
  }

  /** The first rejection, and whether it goes to a human: three of them do. */
  ghost predicate FirstRejection(e: ImprovementEvent, roles: Roles, escalate: bool, why: Rejection) {
    && Unwelcome(e, roles, why) && (forall other :: Unwelcome(e, roles, other) ==> Turn(why) <= Turn(other))
    && (escalate <==> why.HumanOnlyEvent? || why.EventProductionBoundary? || why.HighRisk?)
  }

  /** Why an event is turned away, and whether a human must look at it. */
  function Judge(e: ImprovementEvent, roles: Roles): (verdict: Option<(bool, Rejection)>)
    ensures verdict.None? <==> Welcome(e, roles)
    ensures verdict.Some? ==> FirstRejection(e, roles, verdict.value.0, verdict.value.1)
  {
    if e.eventType.OtherType? then Some((false, UnknownEventType))
    else if Blank(e.objective) then Some((false, ObjectiveRequired))
    else if !ValidRef(e.evidenceRef) then Some((false, EvidenceReferenceRequired))
    else if e.target.HumanOnly? then Some((true, HumanOnlyEvent))
    else if e.target.OtherTarget? then Some((false, UnknownEventTarget))
    else if e.production then Some((true, EventProductionBoundary))
    else if e.risk.OtherRisk? then Some((false, UnknownRisk))
    else if e.risk.High? then Some((true, HighRisk))
    else if !e.reversible then Some((false, EventNotReversible))
    else if Blank(roles.builderId) || Blank(roles.validatorId) || Blank(roles.certifierId) then
      Some((false, RoleIdentityRequired))
    else if roles.builderId == roles.validatorId || roles.builderId == roles.certifierId
            || roles.validatorId == roles.certifierId then
      Some((false, RolesNotSeparate))
    else if roles.maxRemediationAttempts < 0 then Some((false, Rejection.InvalidRemediationBudget))
    else None
  }

  function SpecOf(e: ImprovementEvent, roles: Roles): TaskSpec {
    TaskSpec(e.objective, e.target, e.risk, e.reversible, e.production, roles.builderId, roles.validatorId,
             roles.certifierId, roles.maxRemediationAttempts, e.eventId)
  }

  /** The task id: a fixed prefix and a shortened hash, which two events may share. */
  function TaskIdOf(shortHash: string -> string, eventId: string): string {
    "caie-" + shortHash(eventId)
  }

  /** The entry speaks of this external event. */
  predicate Mentions(e: Entry, eventId: string)
    ensures Mentions(e, eventId) <==>
      || e.event == EventAccepted(eventId)
      || (e.event.EventRejected? && e.event.rejectedId == eventId)
      || (e.event.TaskCreated? && e.event.spec.sourceEventId == eventId)
  {
    match e.event
    case EventAccepted(id) => id == eventId
    case EventRejected(id, _) => id == eventId
    case TaskCreated(spec) => spec.sourceEventId == eventId
    case _ => false
  }

  /** The first entry that speaks of the event. */
  function FindExternal(log: seq<Entry>, eventId: string): Option<Entry> {
    if log == [] then None
    else if Mentions(log[0], eventId) then Some(log[0])
    else FindExternal(log[1..], eventId)
  }

  /** The entry at `k` is the first to speak of the event. */
  ghost predicate FirstMention(log: seq<Entry>, k: nat, eventId: string) {
    k < |log| && Mentions(log[k], eventId) && forall i :: 0 <= i < k ==> !Mentions(log[i], eventId)
  }

  lemma {:induction false} FindExternalSpec(log: seq<Entry>, eventId: string)
    ensures FindExternal(log, eventId).Some? <==> exists i :: 0 <= i < |log| && Mentions(log[i], eventId)
    ensures FindExternal(log, eventId).Some? ==>
      exists k: nat :: FirstMention(log, k, eventId) && log[k] == FindExternal(log, eventId).value
  {
    if log == [] {
    } else {
      FindExternalSpec(log[1..], eventId);
      if i :| 0 <= i < |log| && Mentions(log[i], eventId) {
        assert i > 0 ==> log[1..][i - 1] == log[i];
      }
      if Mentions(log[0], eventId) {
        assert FirstMention(log, 0, eventId);
      } else if FindExternal(log[1..], eventId).Some? {
        var k: nat :| FirstMention(log[1..], k, eventId) && log[1..][k] == FindExternal(log[1..], eventId).value;
        assert FirstMention(log, k + 1, eventId);
      }
    }
  }

  /** The first entry to speak of an event stays the first, whatever is appended. */
  lemma {:induction false} FindExternalStable(log: seq<Entry>, more: seq<Entry>, eventId: string)
    ensures FindExternal(log + more, eventId) ==
      if FindExternal(log, eventId).Some? then FindExternal(log, eventId) else FindExternal(more, eventId)
  {
    if log == [] {
      assert log + more == more;
    } else {
      assert (log + more)[1..] == log[1..] + more;
      FindExternalStable(log[1..], more, eventId);
    }
  }

  function KnownTask(e: Entry): Option<string> {
    if e.taskId == [] then None else Some(e.taskId)
  }

  /** The reason on the payload of the entry; the creation of a task carries none. */
  function ReasonOf(e: Entry): PriorReason {
    match e.event
    case EventAccepted(_) => BoundedNonProductionEvent
    case EventRejected(_, why) => RejectedFor(why)
    case _ => EventAlreadySeen
  }

  /** A duplicate names the task, if there is one, and what was recorded: how the event was received, or that it was
      seen. */
  function DuplicateOf(e: Entry): (d: Decision)
    ensures d.Duplicate? && d.known == (if e.taskId == "" then None else Some(e.taskId))
    ensures d.prior ==
      if e.event.EventAccepted? then BoundedNonProductionEvent
      else if e.event.EventRejected? then RejectedFor(e.event.rejection)
      else EventAlreadySeen
  {
    Duplicate(ReasonOf(e), KnownTask(e))
  }

  /** What the intake of a judged event appends and decides; `cut` stops it after the task is created. */
  function Take(log: seq<Entry>, id: string, spec: TaskSpec, verdict: Option<(bool, Rejection)>, cut: bool)
    : Result<(seq<Entry>, Decision), BoardError>
    requires Replay(log).Ok?
  {
    var eventId := spec.sourceEventId;
    if Blank(eventId) then Ok(([], EventIdRequired))
    else if FindExternal(log, eventId).Some? then Ok(([], DuplicateOf(FindExternal(log, eventId).value)))
    else if verdict.Some? then
      Ok(([Entry("", EventRejected(eventId, verdict.value.1))], TurnedAway(verdict.value.0, verdict.value.1)))
    else if id in Replay(log).value then Err(TaskAlreadyExists)
    else if spec.maxRemediationAttempts < 0 then Err(BoardError.InvalidRemediationBudget)
    else Ok(([Entry(id, TaskCreated(spec))] + if cut then [] else [Entry(id, EventAccepted(eventId))], Accepted(id)))
  }

  /** What one intake appends and decides. */
  function Intake(log: seq<Entry>, shortHash: string -> string, e: ImprovementEvent, roles: Roles, cut: bool)
    : Result<(seq<Entry>, Decision), BoardError>
    requires Replay(log).Ok?
  {
    Take(log, TaskIdOf(shortHash, e.eventId), SpecOf(e, roles), Judge(e, roles), cut)
  }

  /** The specification of an event's task takes everything from the event and the roles. */
  predicate Specifies(spec: TaskSpec, e: ImprovementEvent, roles: Roles) {
    && spec.objective == e.objective && spec.target == e.target && spec.risk == e.risk
    && spec.reversible == e.reversible && spec.production == e.production && spec.sourceEventId == e.eventId
    && spec.builderId == roles.builderId && spec.validatorId == roles.validatorId
    && spec.certifierId == roles.certifierId && spec.maxRemediationAttempts == roles.maxRemediationAttempts
  }

  /** What an intake comes to: an event without id, or one the ledger speaks of, leaves nothing; an unwelcome one is
      recorded with its first rejection; a welcome one becomes a task, acknowledged unless cut short, or fails on a
      task of that id. */
  lemma IntakeByFields(log: seq<Entry>, shortHash: string -> string, e: ImprovementEvent, roles: Roles, cut: bool)
    requires Replay(log).Ok?
    ensures
      var r, seen := Intake(log, shortHash, e, roles, cut), FindExternal(log, e.eventId);
      var id := "caie-" + shortHash(e.eventId);
      if Blank(e.eventId) then r == Ok(([], EventIdRequired))
      else if seen.Some? then r == Ok(([], DuplicateOf(seen.value)))
      else if !Welcome(e, roles) then
        && r.Ok? && r.value.1.TurnedAway? && FirstRejection(e, roles, r.value.1.escalate, r.value.1.why)
        && r.value.0 == [Entry("", EventRejected(e.eventId, r.value.1.why))]
      else if id in Replay(log).value then r == Err(TaskAlreadyExists)
      else
        && r.Ok? && r.value.1 == Accepted(id) && |r.value.0| == (if cut then 1 else 2)
        && r.value.0[0].taskId == id && r.value.0[0].event.TaskCreated?
        && Specifies(r.value.0[0].event.spec, e, roles)
        && (!cut ==> r.value.0[1] == Entry(id, EventAccepted(e.eventId)))
  {
  }

  // ---- Over whole runs -------------------------------------------------------------------

  /** What may happen to the ledger while events come in: intakes, whole or cut short by a stop, work on
      the board, and notes that do not speak of external events. */
  datatype RouterAction =
    | Ingest(e: ImprovementEvent, roles: Roles, cut: bool)
    | Work(op: BoardOp)
    | Jot(entry: Entry)

  /** A task was created for the event. */
  ghost predicate HasTask(log: seq<Entry>, eventId: string) {
    exists i :: 0 <= i < |log| && log[i].event.TaskCreated? && log[i].event.spec.sourceEventId == eventId
  }

  /** The board itself takes any source event; whoever creates a task there must name one that has none yet. */
  ghost predicate Permitted(log: seq<Entry>, a: RouterAction) {
    match a
    case Ingest(_, _, _) => true
    case Work(op) => op.Create? ==> !HasTask(log, op.spec.sourceEventId)
    case Jot(e) => IsNote(e.event) && !e.event.EventAccepted? && !e.event.EventRejected?
  }

  function Step(log: seq<Entry>, shortHash: string -> string, a: RouterAction): seq<Entry> {
    if Replay(log).Err? then log else
    match a
    case Ingest(e, roles, cut) =>
      var r := Intake(log, shortHash, e, roles, cut);
      if r.Ok? then log + r.value.0 else log
    case Work(op) => if Effect(Replay(log).value, op).Ok? then log + [Effect(Replay(log).value, op).value] else log
    case Jot(entry) => log + [entry]
  }

  /** Each external event has created at most one task. */
  ghost predicate OneTaskPerEvent(log: seq<Entry>) {
    forall i, j :: 0 <= i < j < |log| && log[i].event.TaskCreated? && log[j].event.TaskCreated? ==>
      log[i].event.spec.sourceEventId != log[j].event.spec.sourceEventId
  }

  lemma CreationReplays(log: seq<Entry>, created: Entry, acknowledged: Entry)
    requires Replay(log).Ok? && created.event.TaskCreated? && created.taskId !in Replay(log).value
    requires IsNote(acknowledged.event)
    ensures Replay(log + [created]).Ok? && Replay(log + [created, acknowledged]).Ok?
  {
    ReplayAppend(log, created);
    NoteReplays(log + [created], acknowledged);
    assert log + [created, acknowledged] == (log + [created]) + [acknowledged];
  }

  /** An intake keeps the ledger replayable: it appends nothing, a rejection, or a new task. */
  lemma TakeReplays(log: seq<Entry>, id: string, spec: TaskSpec, verdict: Option<(bool, Rejection)>, cut: bool)
    requires Replay(log).Ok? && Take(log, id, spec, verdict, cut).Ok?
    ensures Replay(log + Take(log, id, spec, verdict, cut).value.0).Ok?
  {
    var (more, decision) := Take(log, id, spec, verdict, cut).value;
    match decision
    case TurnedAway(_, _) => NoteReplays(log, more[0]);
    case Accepted(_) =>
      var created, acknowledged := Entry(id, TaskCreated(spec)), Entry(id, EventAccepted(spec.sourceEventId));
      CreationReplays(log, created, acknowledged);
      assert more == if cut then [created] else [created, acknowledged];
    case _ => assert log + more == log;
  }

  lemma OneTaskAppend(log: seq<Entry>, e: Entry)
    requires OneTaskPerEvent(log)
    ensures OneTaskPerEvent(log + [e]) <==> e.event.TaskCreated? ==> !HasTask(log, e.event.spec.sourceEventId)
  {
    var more := log + [e];
    assert forall i :: 0 <= i < |log| ==> more[i] == log[i];
    if e.event.TaskCreated? && HasTask(log, e.event.spec.sourceEventId) {
      var i :| 0 <= i < |log| && log[i].event.TaskCreated?
        && log[i].event.spec.sourceEventId == e.event.spec.sourceEventId;
      assert more[i].event.spec.sourceEventId == more[|log|].event.spec.sourceEventId;
    }
  }

  /** A task created on the board past the router spoils the rule exactly when its event already has one. */
  lemma DirectCreationKeepsExactlyWhen(log: seq<Entry>, shortHash: string -> string, id: string, spec: TaskSpec)
    requires Replay(log).Ok? && OneTaskPerEvent(log) && Effect(Replay(log).value, Create(id, spec)).Ok?
    ensures OneTaskPerEvent(Step(log, shortHash, Work(Create(id, spec)))) <==> !HasTask(log, spec.sourceEventId)
  {
    OneTaskAppend(log, Entry(id, TaskCreated(spec)));
  }

  lemma TaskIsSeen(log: seq<Entry>, eventId: string)
    requires HasTask(log, eventId)
    ensures FindExternal(log, eventId).Some?
  {
    FindExternalSpec(log, eventId);
    var i :| 0 <= i < |log| && log[i].event.TaskCreated? && log[i].event.spec.sourceEventId == eventId;
    assert Mentions(log[i], eventId);
  }

  lemma IntakeKeepsOneTask(log: seq<Entry>, shortHash: string -> string, e: ImprovementEvent, roles: Roles, cut: bool)
    requires Replay(log).Ok? && Intake(log, shortHash, e, roles, cut).Ok? && OneTaskPerEvent(log)
    ensures OneTaskPerEvent(log + Intake(log, shortHash, e, roles, cut).value.0)
  {
    var more := Intake(log, shortHash, e, roles, cut).value.0;
    if |more| == 0 {
      assert log + more == log;
    } else {
      if HasTask(log, e.eventId) {
        TaskIsSeen(log, e.eventId);
      }
      OneTaskAppend(log, more[0]);
      if |more| == 1 {
        assert log + more == log + [more[0]];
      } else {
        OneTaskAppend(log + [more[0]], more[1]);
        assert log + more == (log + [more[0]]) + [more[1]];
      }
    }
  }

  lemma StepKeeps(log: seq<Entry>, shortHash: string -> string, a: RouterAction)
    requires Replay(log).Ok? && OneTaskPerEvent(log) && Permitted(log, a)
    ensures log <= Step(log, shortHash, a)
    ensures Replay(Step(log, shortHash, a)).Ok? && OneTaskPerEvent(Step(log, shortHash, a))
  {
    match a
    case Ingest(e, roles, cut) =>
      if Intake(log, shortHash, e, roles, cut).Ok? {
        TakeReplays(log, TaskIdOf(shortHash, e.eventId), SpecOf(e, roles), Judge(e, roles), cut);
        IntakeKeepsOneTask(log, shortHash, e, roles, cut);
      }
    case Work(op) =>
      WorkKeeps(log, op);
    case Jot(entry) =>
      ReplayAppend(log, entry);
      OneTaskAppend(log, entry);
  }

  lemma WorkKeeps(log: seq<Entry>, op: BoardOp)
    requires Replay(log).Ok? && OneTaskPerEvent(log)
    requires op.Create? ==> !HasTask(log, op.spec.sourceEventId)
    ensures Effect(Replay(log).value, op).Ok? ==>
      var entry := Effect(Replay(log).value, op).value;
      Replay(log + [entry]).Ok? && OneTaskPerEvent(log + [entry])
  {
    if Effect(Replay(log).value, op).Ok? {
      EffectReplays(log, op);
      OneTaskAppend(log, Effect(Replay(log).value, op).value);
    }
  }

  /** A run of permitted actions, as the ledgers after each of them. */
  ghost predicate RouterRun(logs: seq<seq<Entry>>, shortHash: string -> string, actions: seq<RouterAction>) {
    && |logs| == |actions| + 1 && logs[0] == []
    && forall i :: 0 <= i < |actions| ==>
         Permitted(logs[i], actions[i]) && logs[i + 1] == Step(logs[i], shortHash, actions[i])
  }

  /** However intakes, stops and work interleave, no external event ever creates two tasks. */
  lemma {:induction false} EventsCreateOneTask(logs: seq<seq<Entry>>, shortHash: string -> string,
                                               actions: seq<RouterAction>, k: nat)
    requires RouterRun(logs, shortHash, actions) && k < |logs|
    ensures Replay(logs[k]).Ok? && OneTaskPerEvent(logs[k])
  {
    if k == 0 {
    } else {
      EventsCreateOneTask(logs, shortHash, actions, k - 1);
      StepKeeps(logs[k - 1], shortHash, actions[k - 1]);
    }
  }

  lemma {:induction false} LogsGrow(logs: seq<seq<Entry>>, shortHash: string -> string, actions: seq<RouterAction>,
                                    i: nat, j: nat)
    requires RouterRun(logs, shortHash, actions) && i <= j < |logs|
    ensures logs[i] <= logs[j]
    decreases j - i
  {
    if i == j {
    } else {
      LogsGrow(logs, shortHash, actions, i, j - 1);
      EventsCreateOneTask(logs, shortHash, actions, j - 1);
      StepKeeps(logs[j - 1], shortHash, actions[j - 1]);
    }
  }

  /** Once an intake has left its mark, even one cut short before the acknowledgement, every later
      intake of that event id, whatever its content, appends nothing and answers DUPLICATE with the
      task created then, or with no task and the reason it was turned away for. */
  lemma SeenEventIsDuplicate(logs: seq<seq<Entry>>, shortHash: string -> string, actions: seq<RouterAction>,
                             i: nat, j: nat, again: ImprovementEvent, roles: Roles, cut: bool)
    requires RouterRun(logs, shortHash, actions) && i < j < |logs|
    requires actions[i].Ingest? && again.eventId == actions[i].e.eventId
    requires Replay(logs[i]).Ok?
    requires var first := Intake(logs[i], shortHash, actions[i].e, actions[i].roles, actions[i].cut);
      first.Ok? && first.value.0 != []
    ensures Replay(logs[j]).Ok?
    ensures var first := Intake(logs[i], shortHash, actions[i].e, actions[i].roles, actions[i].cut).value.1;
      first.TurnedAway? || first.Accepted?
    ensures var first := Intake(logs[i], shortHash, actions[i].e, actions[i].roles, actions[i].cut).value.1;
      Intake(logs[j], shortHash, again, roles, cut) ==
        Ok(([], if first.TurnedAway? then Duplicate(RejectedFor(first.why), None)
                else Duplicate(EventAlreadySeen, Some(first.taskId))))
  {
    var e := actions[i].e;
    var more := Intake(logs[i], shortHash, e, actions[i].roles, actions[i].cut).value.0;
    EventsCreateOneTask(logs, shortHash, actions, i);
    EventsCreateOneTask(logs, shortHash, actions, j);
    LogsGrow(logs, shortHash, actions, i + 1, j);
    assert logs[i + 1] == logs[i] + more;
    assert logs[j] == logs[i + 1] + logs[j][|logs[i + 1]|..];
    FindExternalStable(logs[i], more, e.eventId);
    FindExternalStable(logs[i + 1], logs[j][|logs[i + 1]|..], e.eventId);
    assert Mentions(more[0], e.eventId);
    assert FindExternal(logs[j], e.eventId) == Some(more[0]);
  }

  // ---- The router object -----------------------------------------------------------------

  class Router {
    const board: Board
    const shortHash: string -> string

    constructor (board: Board, shortHash: string -> string)
      ensures this.board == board && this.shortHash == shortHash
    {
      this.board := board;
      this.shortHash := shortHash;
    }

    /** Scans the records for the first that speaks of the event. */
    method Find(eventId: string) returns (r: Result<Option<Entry>, LedgerError>)
      requires WellFormedMac(board.ledger.mac)
      ensures r.Ok? <==> board.ledger.Intact()
      ensures r.Ok? ==> r.value == FindExternal(board.ledger.Log(), eventId)
    {
      var records := board.ledger.Records();
      if records.Err? {
        return Err(records.error);
      }
      ghost var log := board.ledger.Log();
      for i := 0 to |records.value|
        invariant log == Entries(records.value)
        invariant FindExternal(log, eventId) == FindExternal(log[i..], eventId)
      {
        assert log[i..][0] == records.value[i].body.entry && log[i..][1..] == log[i + 1..];
        if Mentions(records.value[i].body.entry, eventId) {
          return Ok(Some(records.value[i].body.entry));
        }
      }
      r := Ok(None);
    }

    method Ingest(e: ImprovementEvent, roles: Roles, occurredAt: int) returns (r: Result<Decision, BoardError>)
      requires WellFormedMac(board.ledger.mac)
      modifies board, board.ledger
      ensures old(board.Sound()) ==>
        var intake := Intake(old(board.ledger.Log()), shortHash, e, roles, false);
        && (r.Ok? <==> intake.Ok?)
        && (r.Ok? ==> r.value == intake.value.1 && board.Sound())
        && (r.Ok? ==> board.ledger.Log() == old(board.ledger.Log()) + intake.value.0)
      ensures r.Err? ==> board.ledger.lines == old(board.ledger.lines) && board.ledger.head == old(board.ledger.head)
    {
      r := TakeIn(TaskIdOf(shortHash, e.eventId), SpecOf(e, roles), Judge(e, roles), occurredAt);
    }

    /** The intake proper: known events are duplicates, unfit ones are recorded as turned away, and
        for the others a task is created first and acknowledged after. */
    method TakeIn(id: string, spec: TaskSpec, verdict: Option<(bool, Rejection)>, occurredAt: int)
      returns (r: Result<Decision, BoardError>)
      requires WellFormedMac(board.ledger.mac)
      modifies board, board.ledger
      ensures old(board.Sound()) ==>
        var intake := Take(old(board.ledger.Log()), id, spec, verdict, false);
        && (r.Ok? <==> intake.Ok?)
        && (r.Ok? ==> r.value == intake.value.1 && board.Sound())
        && (r.Ok? ==> board.ledger.Log() == old(board.ledger.Log()) + intake.value.0)
      ensures r.Err? ==> board.ledger.lines == old(board.ledger.lines) && board.ledger.head == old(board.ledger.head)
    {
      if Blank(spec.sourceEventId) {
        return Ok(EventIdRequired);
      }
      var prior := Find(spec.sourceEventId);
      if prior.Err? {
        return Err(Ledger(prior.error));
      }
      if prior.value.Some? {
        return Ok(DuplicateOf(prior.value.value));
      }
      if verdict.Some? {
        var noted := board.Remark(Entry("", EventRejected(spec.sourceEventId, verdict.value.1)), occurredAt);
        return Ok(TurnedAway(verdict.value.0, verdict.value.1));
      }
      r := Admit(id, spec, occurredAt);
    }

    /** Creates the task, then acknowledges the event. */
    method Admit(id: string, spec: TaskSpec, occurredAt: int) returns (r: Result<Decision, BoardError>)
      requires WellFormedMac(board.ledger.mac)
      modifies board, board.ledger
      ensures r.Ok? ==> r.value == Accepted(id)
      ensures old(board.Sound()) ==> (r.Ok? <==> id !in old(board.Tasks()) && spec.maxRemediationAttempts >= 0)
      ensures old(board.Sound()) && r.Ok? ==>
        && board.Sound()
        && board.ledger.Log() == old(board.ledger.Log()) +
             [Entry(id, TaskCreated(spec)), Entry(id, EventAccepted(spec.sourceEventId))]
      ensures r.Err? ==> board.ledger.lines == old(board.ledger.lines) && board.ledger.head == old(board.ledger.head)
    {
      var created := board.Create(id, spec, occurredAt);
      if created.Err? {
        return Err(created.error);
      }
      var noted := board.Remark(Entry(id, EventAccepted(spec.sourceEventId)), occurredAt);
      r := Ok(Accepted(id));
    }
  }
}
