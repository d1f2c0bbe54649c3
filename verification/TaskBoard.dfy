/** The task board: nothing but what replaying the ledger says. */
module TaskBoard {
  import opened Prelude
  import opened RunLedger

  datatype TaskSnapshot = TaskSnapshot(
    taskId: string, state: TaskState, spec: TaskSpec, attempts: int, reason: Reason)

  type Tasks = map<string, TaskSnapshot>

  datatype BoardError =
    | Ledger(error: LedgerError)
    | DuplicateTaskCreated | TaskCreatedSchemaMismatch | StateForUnknownTask | IllegalPersistedTransition
    | AttemptForUnknownTask | AttemptSequenceInvalid
    | NoSuchTask | TaskAlreadyExists | InvalidRemediationBudget
    | TaskAlreadyTerminal | IllegalTaskTransition | AttemptRequiresActiveOrRemediating | AttemptBudgetExhausted
    | RunRequiresQueuedTask

  predicate Terminal(s: TaskState) {
    s.PreparePr? || s.OnHold? || s.Rejected? || s.Escalated?
  }

  /** The table of moves a task may make. */
  predicate CanMove(from: TaskState, to: TaskState) {
    match from
    case Queued => to.Active? || to.OnHold? || to.Escalated?
    case Active => to.Verifying? || to.OnHold? || to.Rejected? || to.Escalated?
    case Verifying => to.Remediating? || to.Scored? || to.OnHold? || to.Rejected? || to.Escalated?
    case Remediating => to.Verifying? || to.OnHold? || to.Rejected? || to.Escalated?
    case Scored => to.Certified? || to.Remediating? || to.OnHold? || to.Rejected?
    case Certified => to.PreparePr? || to.OnHold?
    case _ => false
  }

  /** Why an entry does not apply. */
  predicate Misfits(tasks: Tasks, e: Entry, error: BoardError) {
    match error
    case DuplicateTaskCreated => (e.event.TaskCreated? || e.event.TaskCreatedMalformed?) && e.taskId in tasks
    case TaskCreatedSchemaMismatch => e.event.TaskCreatedMalformed? && e.taskId !in tasks
    case StateForUnknownTask => e.event.TaskStateSet? && e.taskId !in tasks
    case IllegalPersistedTransition =>
      e.event.TaskStateSet? && e.taskId in tasks && !CanMove(tasks[e.taskId].state, e.event.state)
    case AttemptForUnknownTask => e.event.AttemptStarted? && e.taskId !in tasks
    case AttemptSequenceInvalid =>
      && e.event.AttemptStarted? && e.taskId in tasks
      && !(e.event.attempt.Some? && e.event.attempt.value - tasks[e.taskId].attempts == 1)
    case _ => false
  }

  /** What one ledger entry does to the board. Entries of other kinds leave it alone. */
  function Apply(tasks: Tasks, e: Entry): (r: Result<Tasks, BoardError>)
    ensures r.Err? ==> Misfits(tasks, e, r.error)
    ensures r.Ok? ==> forall error :: !Misfits(tasks, e, error)
  {
    match e.event
    case TaskCreated(spec) =>
      if e.taskId in tasks then Err(DuplicateTaskCreated)
      else Ok(tasks[e.taskId := TaskSnapshot(e.taskId, Queued, spec, 0, Created)])
    case TaskCreatedMalformed =>
      if e.taskId in tasks then Err(DuplicateTaskCreated) else Err(TaskCreatedSchemaMismatch)
    case TaskStateSet(state, reason) =>
      if e.taskId !in tasks then Err(StateForUnknownTask)
      else if !CanMove(tasks[e.taskId].state, state) then Err(IllegalPersistedTransition)
      else Ok(tasks[e.taskId := tasks[e.taskId].(state := state, reason := reason)])
    case AttemptStarted(attempt) =>
      if e.taskId !in tasks then Err(AttemptForUnknownTask)
      else if attempt != Some(tasks[e.taskId].attempts + 1) then Err(AttemptSequenceInvalid)
      else Ok(tasks[e.taskId := tasks[e.taskId].(attempts := attempt.value)])
    case _ => Ok(tasks)
  }

  function Replay(log: seq<Entry>): Result<Tasks, BoardError> {
    if log == [] then Ok(map[])
    else
      var before := Replay(log[..|log| - 1]);
      if before.Err? then before else Apply(before.value, log[|log| - 1])
  }

  lemma ReplayAppend(log: seq<Entry>, e: Entry)
    ensures Replay(log + [e]) == if Replay(log).Err? then Replay(log) else Apply(Replay(log).value, e)
  {
    assert (log + [e])[..|log|] == log;
  }

  /** Entries the board ignores when it replays. */
  predicate IsNote(e: Event) {
    !e.TaskCreated? && !e.TaskCreatedMalformed? && !e.TaskStateSet? && !e.AttemptStarted?
  }

  lemma NoteReplays(log: seq<Entry>, e: Entry)
    requires IsNote(e.event)
    ensures Replay(log + [e]) == Replay(log)
  {
    ReplayAppend(log, e);
  }

  // ---- What a log that replays says ------------------------------------------------------

  /** The states a task went through, oldest first. */
  function History(log: seq<Entry>, id: string): seq<TaskState> {
    if log == [] then []
    else
      var e := log[|log| - 1];
      History(log[..|log| - 1], id) +
      if e.taskId == id && e.event.TaskCreated? then [Queued]
      else if e.taskId == id && e.event.TaskStateSet? then [e.event.state]
      else []
  }

  ghost predicate Walk(states: seq<TaskState>) {
    && states != [] && states[0] == Queued
    && forall i, j :: 0 <= i && j == i + 1 && j < |states| ==> CanMove(states[i], states[j])
  }

  /** In a log that replays, a task's states form a walk through the transition table from QUEUED to
      its present state; a task the board does not know has no states. */
  lemma {:induction false} HistoryIsWalk(log: seq<Entry>, id: string)
    requires Replay(log).Ok?
    ensures id in Replay(log).value <==> History(log, id) != []
    ensures id in Replay(log).value ==>
      Walk(History(log, id)) && History(log, id)[|History(log, id)| - 1] == Replay(log).value[id].state
  {
    if log == [] {
    } else {
      HistoryIsWalk(log[..|log| - 1], id);
    }
  }

  /** PREPARE_PR is only ever reached through VERIFYING, SCORED and CERTIFIED, in that order and with
      nothing in between. */
  lemma PreparePrIsEarned(log: seq<Entry>, id: string)
    requires Replay(log).Ok? && id in Replay(log).value && Replay(log).value[id].state == PreparePr
    ensures var h := History(log, id);
      |h| >= 5 && h[|h| - 4..] == [Verifying, Scored, Certified, PreparePr]
  {
    HistoryIsWalk(log, id);
    var h := History(log, id);
    LastSteps(h);
  }

  lemma LastSteps(h: seq<TaskState>)
    requires Walk(h) && h[|h| - 1] == PreparePr
    ensures |h| >= 5 && h[|h| - 4..] == [Verifying, Scored, Certified, PreparePr]
  {
    var n := |h|;
    assert n > 1 && CanMove(h[n - 2], h[n - 1]);
    assert n > 2 && CanMove(h[n - 3], h[n - 2]);
    assert n > 3 && CanMove(h[n - 4], h[n - 3]);
    assert n > 4 by {
      if n == 4 {
        assert h[0] == Queued;
      }
    }
  }

  // ---- The board's own operations --------------------------------------------------------

  datatype BoardOp =
    | Create(createId: string, spec: TaskSpec)
    | Transition(moveId: string, newState: TaskState, reason: Reason)
    | StartAttempt(attemptId: string)

  /** The entry an operation appends, or the complaint it raises. */
  function Effect(tasks: Tasks, op: BoardOp): Result<Entry, BoardError> {
    match op
    case Create(id, spec) =>
      if id in tasks then Err(TaskAlreadyExists)
      else if spec.maxRemediationAttempts < 0 then Err(BoardError.InvalidRemediationBudget)
      else Ok(Entry(id, TaskCreated(spec)))
    case Transition(id, newState, reason) =>
      if id !in tasks then Err(NoSuchTask)
      else if Terminal(tasks[id].state) then Err(TaskAlreadyTerminal)
      else if !CanMove(tasks[id].state, newState) then Err(IllegalTaskTransition)
      else Ok(Entry(id, TaskStateSet(newState, reason)))
    case StartAttempt(id) =>
      if id !in tasks then Err(NoSuchTask)
      else if !tasks[id].state.Active? && !tasks[id].state.Remediating? then Err(AttemptRequiresActiveOrRemediating)
      else if tasks[id].attempts + 1 > tasks[id].spec.maxRemediationAttempts + 1 then Err(AttemptBudgetExhausted)
      else Ok(Entry(id, AttemptStarted(Some(tasks[id].attempts + 1))))
  }

  /** The task as the operation leaves it. */
  function Updated(tasks: Tasks, op: BoardOp): TaskSnapshot
    requires Effect(tasks, op).Ok?
  {
    match op
    case Create(id, spec) => TaskSnapshot(id, Queued, spec, 0, Created)
    case Transition(id, newState, reason) => tasks[id].(state := newState, reason := reason)
    case StartAttempt(id) => tasks[id].(attempts := tasks[id].attempts + 1)
  }

  /** Replaying after an accepted operation never raises, and gives the old board with one task updated. */
  lemma EffectReplays(log: seq<Entry>, op: BoardOp)
    requires Replay(log).Ok? && Effect(Replay(log).value, op).Ok?
    ensures var e := Effect(Replay(log).value, op).value;
      Replay(log + [e]) == Ok(Replay(log).value[e.taskId := Updated(Replay(log).value, op)])
  {
    ReplayAppend(log, Effect(Replay(log).value, op).value);
  }

  /** Anything a client may do: a board operation, accepted or refused, or a note of any other kind. */
  datatype Action = Operate(op: BoardOp) | Note(entry: Entry)

  function Act(log: seq<Entry>, a: Action): seq<Entry>
  {
    match a
    case Operate(op) =>
      if Replay(log).Ok? && Effect(Replay(log).value, op).Ok? then log + [Effect(Replay(log).value, op).value] else log
    case Note(e) => if IsNote(e.event) then log + [e] else log
  }

  function Run(log: seq<Entry>, actions: seq<Action>): seq<Entry> {
    if actions == [] then log else Act(Run(log, actions[..|actions| - 1]), actions[|actions| - 1])
  }

  /** The budget: a task not yet started has made no attempt, and attempts never exceed the retries
      allowed plus one. */
  ghost predicate WithinBudget(tasks: Tasks) {
    forall id :: id in tasks ==>
      && tasks[id].taskId == id && tasks[id].spec.maxRemediationAttempts >= 0
      && 0 <= tasks[id].attempts <= tasks[id].spec.maxRemediationAttempts + 1
      && (tasks[id].state.Queued? ==> tasks[id].attempts == 0)
  }

  /** `later` continues `tasks`: no task vanishes or changes what it is, attempts only grow, and a
      finished task does not change at all. */
  ghost predicate Continues(tasks: Tasks, later: Tasks) {
    forall id :: id in tasks ==>
      && id in later && later[id].spec == tasks[id].spec && later[id].attempts >= tasks[id].attempts
      && (Terminal(tasks[id].state) ==> later[id] == tasks[id])
  }

  /** An accepted operation stays within budget and only carries its own task on. */
  lemma UpdateKeeps(tasks: Tasks, op: BoardOp)
    requires WithinBudget(tasks) && Effect(tasks, op).Ok?
    ensures WithinBudget(tasks[Effect(tasks, op).value.taskId := Updated(tasks, op)])
    ensures Continues(tasks, tasks[Effect(tasks, op).value.taskId := Updated(tasks, op)])
  {
  }

  lemma ActKeeps(log: seq<Entry>, a: Action)
    requires Replay(log).Ok? && WithinBudget(Replay(log).value)
    ensures Replay(Act(log, a)).Ok? && WithinBudget(Replay(Act(log, a)).value)
    ensures Continues(Replay(log).value, Replay(Act(log, a)).value)
  {
    match a
    case Operate(op) =>
      if Effect(Replay(log).value, op).Ok? {
        EffectReplays(log, op);
        UpdateKeeps(Replay(log).value, op);
      }
    case Note(e) =>
      if IsNote(e.event) {
        NoteReplays(log, e);
      }
  }

  /** Whatever is done in whatever order, replaying never raises, attempts stay within budget, and a
      finished task stays exactly as it was. */
  lemma {:induction false} AnyInterleaving(log: seq<Entry>, actions: seq<Action>)
    requires Replay(log).Ok? && WithinBudget(Replay(log).value)
    ensures Replay(Run(log, actions)).Ok? && WithinBudget(Replay(Run(log, actions)).value)
    ensures Continues(Replay(log).value, Replay(Run(log, actions)).value)
  {
    if actions == [] {
    } else {
      var init := actions[..|actions| - 1];
      AnyInterleaving(log, init);
      ActKeeps(Run(log, init), actions[|actions| - 1]);
    }
  }

  // ---- The board object ------------------------------------------------------------------

  class Board {
    const ledger: PersistentRunLedger
    var tasks: Tasks

    /** The ledger is intact and replays. */
    ghost predicate Sound()
      reads this, ledger
    {
      ledger.Intact() && Replay(ledger.Log()).Ok?
    }

    ghost function Tasks(): Tasks
      requires Sound()
      reads this, ledger
    {
      Replay(ledger.Log()).value
    }

    constructor (ledger: PersistentRunLedger)
      ensures this.ledger == ledger && tasks == map[]
    {
      this.ledger := ledger;
      tasks := map[];
    }

    /** Replays the whole ledger, one record at a time. */
    method Rebuild() returns (r: Result<Tasks, BoardError>)
      requires WellFormedMac(ledger.mac)
      modifies this
      ensures r.Ok? <==> Sound()
      ensures r.Ok? ==> r.value == Tasks() && tasks == r.value
      ensures r.Err? ==> tasks == old(tasks)
      ensures r.Err? ==>
        if ledger.Intact() then Replay(ledger.Log()) == Err(r.error) else r.error.Ledger?
    {
      var records := ledger.Records();
      if records.Err? {
        return Err(Ledger(records.error));
      }
      var log := Entries(records.value);
      var replayed: Tasks := map[];
      for i := 0 to |records.value|
        invariant log == Entries(records.value) && |log| == |records.value|
        invariant Replay(log[..i]) == Ok(replayed)
      {
        assert log[..i + 1][..i] == log[..i];
        var next := Apply(replayed, records.value[i].body.entry);
        assert Replay(log[..i + 1]) == next;
        if next.Err? {
          ReplayStops(log, i + 1);
          return Err(next.error);
        }
        replayed := next.value;
      }
      assert log[..|log|] == log;
      tasks := replayed;
      r := Ok(replayed);
    }

    method Get(id: string) returns (r: Result<TaskSnapshot, BoardError>)
      requires WellFormedMac(ledger.mac)
      modifies this
      ensures r.Ok? <==> Sound() && id in Tasks()
      ensures r.Ok? ==> r.value == Tasks()[id]
      ensures r.Err? && Sound() ==> r.error == NoSuchTask
    {
      var board := Rebuild();
      if board.Err? {
        return Err(board.error);
      }
      if id !in board.value {
        return Err(NoSuchTask);
      }
      r := Ok(board.value[id]);
    }

    /** `op` was accepted exactly when it applies to the old board; then one entry was appended and one
        task updated, and otherwise nothing was written. */
    twostate predicate Did(op: BoardOp, new r: Result<TaskSnapshot, BoardError>)
      reads this, ledger
    {
      && (r.Ok? <==> old(Sound()) && Effect(old(Tasks()), op).Ok?)
      && (r.Ok? ==>
          && Sound() && ledger.Log() == old(ledger.Log()) + [Effect(old(Tasks()), op).value]
          && r.value == Updated(old(Tasks()), op)
          && Tasks() == old(Tasks())[Effect(old(Tasks()), op).value.taskId := r.value])
      && (r.Err? ==> ledger.lines == old(ledger.lines) && ledger.head == old(ledger.head))
      && (r.Err? && old(Sound()) ==> r.error == Effect(old(Tasks()), op).error)
    }

    /** Appends the entry of an accepted operation and replays. */
    method Commit(ghost op: BoardOp, entry: Entry, occurredAt: int) returns (r: Result<TaskSnapshot, BoardError>)
      requires WellFormedMac(ledger.mac) && Sound() && Effect(Tasks(), op) == Ok(entry)
      modifies this, ledger
      ensures r.Ok? && Did(op, r)
    {
      EffectReplays(ledger.Log(), op);
      var appended := ledger.Append(entry, occurredAt);
      r := Get(entry.taskId);
    }

    method Create(id: string, spec: TaskSpec, occurredAt: int) returns (r: Result<TaskSnapshot, BoardError>)
      requires WellFormedMac(ledger.mac)
      modifies this, ledger
      ensures Did(BoardOp.Create(id, spec), r)
    {
      var board := Rebuild();
      if board.Err? {
        return Err(board.error);
      }
      if id in board.value {
        return Err(TaskAlreadyExists);
      }
      if spec.maxRemediationAttempts < 0 {
        return Err(BoardError.InvalidRemediationBudget);
      }
      r := Commit(BoardOp.Create(id, spec), Entry(id, TaskCreated(spec)), occurredAt);
    }

    method Transition(id: string, newState: TaskState, reason: Reason, occurredAt: int)
      returns (r: Result<TaskSnapshot, BoardError>)
      requires WellFormedMac(ledger.mac)
      modifies this, ledger
      ensures Did(BoardOp.Transition(id, newState, reason), r)
    {
      var task := Get(id);
      if task.Err? {
        return task;
      }
      if Terminal(task.value.state) {
        return Err(TaskAlreadyTerminal);
      }
      if !CanMove(task.value.state, newState) {
        return Err(IllegalTaskTransition);
      }
      r := Commit(BoardOp.Transition(id, newState, reason), Entry(id, TaskStateSet(newState, reason)), occurredAt);
    }

    method StartAttempt(id: string, occurredAt: int) returns (r: Result<TaskSnapshot, BoardError>)
      requires WellFormedMac(ledger.mac)
      modifies this, ledger
      ensures Did(BoardOp.StartAttempt(id), r)
    {
      var task := Get(id);
      if task.Err? {
        return task;
      }
      if !task.value.state.Active? && !task.value.state.Remediating? {
        return Err(AttemptRequiresActiveOrRemediating);
      }
      var next := task.value.attempts + 1;
      if next > task.value.spec.maxRemediationAttempts + 1 {
        return Err(AttemptBudgetExhausted);
      }
      r := Commit(BoardOp.StartAttempt(id), Entry(id, AttemptStarted(Some(next))), occurredAt);
    }

    /** A note: the ledger grows and the board stays as it was. */
    method Remark(e: Entry, occurredAt: int) returns (r: Result<Record, LedgerError>)
      requires WellFormedMac(ledger.mac) && IsNote(e.event)
      modifies ledger
      ensures r.Ok? <==> old(ledger.Intact())
      ensures r.Ok? ==> ledger.Intact() && ledger.Log() == old(ledger.Log()) + [e]
      ensures r.Ok? && old(Sound()) ==> Sound() && Tasks() == old(Tasks())
    {
      NoteReplays(ledger.Log(), e);
      r := ledger.Append(e, occurredAt);
    }
  }

  /** A prefix that does not replay condemns the whole log. */
  lemma {:induction false} ReplayStops(log: seq<Entry>, k: nat)
    requires k <= |log| && Replay(log[..k]).Err?
    ensures Replay(log) == Replay(log[..k])
    decreases |log| - k
  {
    if k < |log| {
      assert log[..k + 1][..k] == log[..k];
      ReplayStops(log, k + 1);
    } else {
      assert log[..k] == log;
    }
  }
}
