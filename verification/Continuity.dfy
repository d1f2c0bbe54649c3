/** The continuity store: leases with heartbeats, checkpoints that resume, and an event log. */
module Continuity {
  import opened Prelude

  datatype Lease = Lease(owner: string, heartbeat: int, seconds: int)

  type Leases = map<string, Lease>

  datatype Op =
    | Acquire(objective: string, owner: string, seconds: int, now: int)
    | Heartbeat(objective: string, owner: string, now: int)

  /** What the caller is told; a success says until when the lease now runs. */
  datatype Answer =
    | Granted(until: int) | Extended(until: int)
    | InvalidLease | LeaseHeld(holder: string) | LeaseNotOwned | LeaseExpired

  predicate Succeeds(a: Answer) {
    a.Granted? || a.Extended?
  }

  function Until(l: Lease): int {
    l.heartbeat + l.seconds
  }

  function LeaseStep(leases: Leases, op: Op): (Leases, Answer) {
    match op
    case Acquire(o, owner, seconds, now) =>
      if o == "" || owner == "" || seconds <= 0 then (leases, InvalidLease)
      else if o in leases && now - leases[o].heartbeat <= leases[o].seconds && leases[o].owner != owner then
        (leases, LeaseHeld(leases[o].owner))
      else (leases[o := Lease(owner, now, seconds)], Granted(now + seconds))
    case Heartbeat(o, owner, now) =>
      if o !in leases || leases[o].owner != owner then (leases, LeaseNotOwned)
      else if now - leases[o].heartbeat > leases[o].seconds then (leases, LeaseExpired)
      else (leases[o := leases[o].(heartbeat := now)], Extended(now + leases[o].seconds))
  }

  /** The lease on the objective still runs. */
  predicate Runs(leases: Leases, objective: string, now: int) {
    objective in leases && now <= leases[objective].heartbeat + leases[objective].seconds
  }

  /** A lease is granted exactly when the request is in order and no other owner's lease still runs; a heartbeat
      extends it exactly when it is the owner's and still runs. Nothing else changes the table, and who holds a lease
      that is refused is told. */
  lemma LeaseExactlyWhen(leases: Leases, op: Op)
    ensures
      var (after, answer) := LeaseStep(leases, op);
      match op
      case Acquire(o, owner, seconds, now) =>
        var inOrder := o != "" && owner != "" && seconds > 0;
        && (answer.Granted? <==> inOrder && !(Runs(leases, o, now) && leases[o].owner != owner))
        && (answer.Granted? ==> answer.until == now + seconds && after == leases[o := Lease(owner, now, seconds)])
        && (!answer.Granted? ==> after == leases)
        && (answer.InvalidLease? <==> !inOrder)
        && (inOrder && !answer.Granted? ==> answer == LeaseHeld(leases[o].owner))
      case Heartbeat(o, owner, now) =>
        var own := o in leases && leases[o].owner == owner;
        && (answer.Extended? <==> own && Runs(leases, o, now))
        && (answer.Extended? ==>
              && answer.until == now + leases[o].seconds
              && after == leases[o := Lease(owner, now, leases[o].seconds)])
        && (!answer.Extended? ==> after == leases && answer == if own then LeaseExpired else LeaseNotOwned)
  {
  }

  // ---- Runs of the lease table -----------------------------------------------------------

  function Run(ops: seq<Op>): Leases {
    if ops == [] then map[] else LeaseStep(Run(ops[..|ops| - 1]), ops[|ops| - 1]).0
  }

  /** The clock does not run backwards. */
  ghost predicate Monotone(ops: seq<Op>) {
    forall i, j :: 0 <= i <= j < |ops| ==> ops[i].now <= ops[j].now
  }

  /** Until when the owner's latest success on the objective told it that it holds the lease. */
  function Told(ops: seq<Op>, objective: string, owner: string): Option<int> {
    if ops == [] then None
    else
      var init, last := ops[..|ops| - 1], ops[|ops| - 1];
      var answer := LeaseStep(Run(init), last).1;
      if last.objective == objective && last.owner == owner && Succeeds(answer) then Some(answer.until)
      else Told(init, objective, owner)
  }

  /** An owner whom the table no longer names was last told an end that has passed; the one it names was told
      the end the table holds. */
  ghost predicate TableAgrees(leases: Leases, told: Option<int>, objective: string, owner: string, clock: int) {
    told.Some? ==>
      && objective in leases
      && (if leases[objective].owner == owner then told.value == Until(leases[objective]) else told.value < clock)
  }

  lemma StepAgrees(leases: Leases, told: Option<int>, objective: string, owner: string, clock: int, op: Op)
    requires TableAgrees(leases, told, objective, owner, clock) && clock <= op.now
    ensures
      var (after, answer) := LeaseStep(leases, op);
      var hit := op.objective == objective && op.owner == owner && Succeeds(answer);
      var told' := if hit then Some(answer.until) else told;
      TableAgrees(after, told', objective, owner, op.now)
  {
  }

  lemma {:induction false} RunAgrees(ops: seq<Op>, objective: string, owner: string, clock: int)
    requires Monotone(ops) && forall i :: 0 <= i < |ops| ==> ops[i].now <= clock
    ensures TableAgrees(Run(ops), Told(ops, objective, owner), objective, owner, clock)
  {
    if ops == [] {
    } else {
      var k := |ops| - 1;
      RunAgrees(ops[..k], objective, owner, ops[k].now);
      StepAgrees(Run(ops[..k]), Told(ops[..k], objective, owner), objective, owner, ops[k].now, ops[k]);
    }
  }

  /** At no moment do two owners have reason to believe that they hold the lease of one objective. */
  lemma OneHolder(ops: seq<Op>, objective: string, a: string, b: string, t: int)
    requires Monotone(ops) && forall i :: 0 <= i < |ops| ==> ops[i].now <= t
    requires Told(ops, objective, a).Some? && t <= Told(ops, objective, a).value
    requires Told(ops, objective, b).Some? && t <= Told(ops, objective, b).value
    ensures a == b
  {
    RunAgrees(ops, objective, a, t);
    RunAgrees(ops, objective, b, t);
  }

  /** A lease is granted only strictly after the last end told to every other owner. */
  lemma PassesOnlyWhenRunOut(ops: seq<Op>, op: Op, other: string)
    requires Monotone(ops + [op]) && op.Acquire? && LeaseStep(Run(ops), op).1.Granted?
    requires other != op.owner && Told(ops, op.objective, other).Some?
    ensures Told(ops, op.objective, other).value < op.now
  {
    assert (ops + [op])[|ops|] == op;
    forall i, j | 0 <= i <= j < |ops| ensures ops[i].now <= ops[j].now <= op.now {
      assert (ops + [op])[i] == ops[i] && (ops + [op])[j] == ops[j];
    }
    RunAgrees(ops, op.objective, other, op.now);
  }

  /** The owner whom the table names was told the end that the table holds. */
  lemma {:induction false} HolderWasTold(ops: seq<Op>, objective: string)
    ensures objective in Run(ops) ==>
      Told(ops, objective, Run(ops)[objective].owner) == Some(Until(Run(ops)[objective]))
  {
    if ops == [] {
    } else {
      HolderWasTold(ops[..|ops| - 1], objective);
    }
  }

  /** No other owner was told an end that is still to come. */
  ghost predicate NoOtherTold(ops: seq<Op>, objective: string, owner: string, now: int) {
    forall other :: other != owner && Told(ops, objective, other).Some? ==> Told(ops, objective, other).value < now
  }

  /** An acquisition in order is granted exactly when every end that another owner was told has passed. */
  lemma GrantedExactlyWhen(ops: seq<Op>, op: Op)
    requires Monotone(ops + [op]) && op.Acquire? && op.objective != "" && op.owner != "" && op.seconds > 0
    ensures LeaseStep(Run(ops), op).1.Granted? <==> NoOtherTold(ops, op.objective, op.owner, op.now)
  {
    LeaseExactlyWhen(Run(ops), op);
    HolderWasTold(ops, op.objective);
    if LeaseStep(Run(ops), op).1.Granted? {
      forall other | other != op.owner && Told(ops, op.objective, other).Some?
        ensures Told(ops, op.objective, other).value < op.now
      {
        PassesOnlyWhenRunOut(ops, op, other);
      }
    }
  }

  /** The owner has lost the lease: there is none, another has it, or it has run out. */
  predicate Lost(leases: Leases, objective: string, owner: string, clock: int) {
    objective !in leases || leases[objective].owner != owner || clock > Until(leases[objective])
  }

  function RunFrom(leases: Leases, ops: seq<Op>): Leases {
    if ops == [] then leases else LeaseStep(RunFrom(leases, ops[..|ops| - 1]), ops[|ops| - 1]).0
  }

  /** The owner acquires the lease anew somewhere in the run. */
  ghost predicate Reacquires(leases: Leases, ops: seq<Op>, objective: string, owner: string) {
    exists i :: 0 <= i < |ops| && ops[i].Acquire? && ops[i].objective == objective && ops[i].owner == owner
      && LeaseStep(RunFrom(leases, ops[..i]), ops[i]).1.Granted?
  }

  lemma StaysLost(leases: Leases, objective: string, owner: string, clock: int, op: Op)
    requires Lost(leases, objective, owner, clock) && clock <= op.now
    requires !(op.Acquire? && op.objective == objective && op.owner == owner && LeaseStep(leases, op).1.Granted?)
    ensures Lost(LeaseStep(leases, op).0, objective, owner, op.now)
    ensures op.Heartbeat? && op.objective == objective && op.owner == owner ==> !Succeeds(LeaseStep(leases, op).1)
  {
  }

  /** A lapsed or lost lease is never revived by heartbeats: without a new acquisition it stays lost, and every
      heartbeat of the owner is refused. */
  lemma {:induction false} NeverRevived(leases: Leases, ops: seq<Op>, objective: string, owner: string, clock: int)
    requires Lost(leases, objective, owner, clock) && Monotone(ops) && (ops != [] ==> clock <= ops[0].now)
    requires !Reacquires(leases, ops, objective, owner)
    ensures Lost(RunFrom(leases, ops), objective, owner, if ops == [] then clock else ops[|ops| - 1].now)
    ensures forall i ::
      0 <= i < |ops| && ops[i].Heartbeat? && ops[i].objective == objective && ops[i].owner == owner ==>
      !Succeeds(LeaseStep(RunFrom(leases, ops[..i]), ops[i]).1)
  {
    if ops == [] {
    } else {
      var k := |ops| - 1;
      var init := ops[..k];
      forall i | 0 <= i < k ensures init[..i] == ops[..i] && init[i] == ops[i] {
      }
      assert !Reacquires(leases, init, objective, owner);
      NeverRevived(leases, init, objective, owner, clock);
      StaysLost(RunFrom(leases, init), objective, owner, if init == [] then clock else init[k - 1].now, ops[k]);
      forall i | 0 <= i < |ops| && ops[i].Heartbeat? && ops[i].objective == objective && ops[i].owner == owner
        ensures !Succeeds(LeaseStep(RunFrom(leases, ops[..i]), ops[i]).1)
      {
        if i < k {
          assert init[i] == ops[i] && init[..i] == ops[..i];
        }
      }
    }
  }

  // ---- The store -------------------------------------------------------------------------

  datatype State = State(caller: string, snapshot: string, action: Option<string>, owner: string)

  datatype Note =
    | LeaseAcquired(owner: string, seconds: int) | CheckpointTaken(digest: string)
    | EyesHeld | HandsHeld | CycleComplete(snapshot: string, action: Option<string>, checkpoint: string)

  /** What a digest is taken of. */
  datatype Body =
    | EventBody(objective: string, note: Note, createdAt: int)
    | CheckpointBody(objective: string, state: State)

  datatype Logged = Logged(body: Body, digest: string)

  datatype Saved = Saved(body: Body, digest: string, updatedAt: int)

  datatype StoreError = ObjectiveRequired | CheckpointNotFound | CheckpointDigestMismatch

  class ContinuityStore {
    const digest: Body -> string
    var leases: Leases
    var checkpoints: map<string, Saved>
    var events: seq<Logged>

    /** Every event and checkpoint carries its own digest, and every checkpoint is filed under its objective. */
    ghost predicate Valid() reads this {
      && (forall i :: 0 <= i < |events| ==> events[i].body.EventBody? && events[i].digest == digest(events[i].body))
      && (forall o :: o in checkpoints ==>
            && checkpoints[o].body.CheckpointBody? && checkpoints[o].body.objective == o
            && checkpoints[o].digest == digest(checkpoints[o].body))
    }

    constructor (digest: Body -> string)
      ensures Valid() && leases == map[] && checkpoints == map[] && events == [] && this.digest == digest
    {
      this.digest := digest;
      leases, checkpoints, events := map[], map[], [];
    }

    function Entry(objective: string, note: Note, now: int): Logged reads this {
      Logged(EventBody(objective, note, now), digest(EventBody(objective, note, now)))
    }

    method AppendEvent(objective: string, note: Note, now: int)
      requires Valid()
      modifies this`events
      ensures Valid() && events == old(events) + [Entry(objective, note, now)]
    {
      events := events + [Entry(objective, note, now)];
    }

    method AcquireLease(objective: string, owner: string, seconds: int, now: int) returns (answer: Answer)
      requires Valid()
      modifies this`leases, this`events
      ensures Valid() && (leases, answer) == LeaseStep(old(leases), Acquire(objective, owner, seconds, now))
      ensures events == old(events) +
        if answer.Granted? then [Entry(objective, LeaseAcquired(owner, seconds), now)] else []
    {
      if objective == "" || owner == "" || seconds <= 0 {
        return InvalidLease;
      }
      if objective in leases {
        var row := leases[objective];
        if now - row.heartbeat <= row.seconds && row.owner != owner {
          return LeaseHeld(row.owner);
        }
      }
      leases := leases[objective := Lease(owner, now, seconds)];
      AppendEvent(objective, LeaseAcquired(owner, seconds), now);
      answer := Granted(now + seconds);
    }

    method BeatHeart(objective: string, owner: string, now: int) returns (answer: Answer)
      requires Valid()
      modifies this`leases
      ensures Valid() && (leases, answer) == LeaseStep(old(leases), Heartbeat(objective, owner, now))
    {
      if objective !in leases || leases[objective].owner != owner {
        return LeaseNotOwned;
      }
      var row := leases[objective];
      if now - row.heartbeat > row.seconds {
        return LeaseExpired;
      }
      leases := leases[objective := row.(heartbeat := now)];
      answer := Extended(now + row.seconds);
    }

    /** What a resume answers: a state exactly when one is on file under its own digest. */
    function Resumed(objective: string): (r: Result<State, StoreError>)
      reads this
      ensures forall state :: r == Ok(state) <==>
        && objective in checkpoints && checkpoints[objective].digest == digest(checkpoints[objective].body)
        && checkpoints[objective].body.CheckpointBody? && checkpoints[objective].body.state == state
      ensures r == Err(CheckpointDigestMismatch) <==>
        objective in checkpoints && checkpoints[objective].digest != digest(checkpoints[objective].body)
      ensures r.Err? ==> r.error == CheckpointDigestMismatch || r.error == CheckpointNotFound
    {
      if objective !in checkpoints then Err(CheckpointNotFound)
      else if digest(checkpoints[objective].body) != checkpoints[objective].digest then Err(CheckpointDigestMismatch)
      else if checkpoints[objective].body.CheckpointBody? then Ok(checkpoints[objective].body.state)
      else Err(CheckpointNotFound)
    }

    /** A checkpoint is what a resume finds, and no other objective's resume changes. */
    method Checkpoint(objective: string, state: State, now: int) returns (r: Result<string, StoreError>)
      requires Valid()
      modifies this`checkpoints, this`events
      ensures Valid()
      ensures objective == "" ==>
        r == Err(ObjectiveRequired) && checkpoints == old(checkpoints) && events == old(events)
      ensures objective != "" ==>
        && r == Ok(digest(CheckpointBody(objective, state))) && Resumed(objective) == Ok(state)
        && events == old(events) + [Entry(objective, CheckpointTaken(r.value), now)]
      ensures forall o :: o != objective ==> Resumed(o) == old(Resumed(o))
    {
      if objective == "" {
        return Err(ObjectiveRequired);
      }
      var body := CheckpointBody(objective, state);
      checkpoints := checkpoints[objective := Saved(body, digest(body), now)];
      AppendEvent(objective, CheckpointTaken(digest(body)), now);
      r := Ok(digest(body));
    }
  }
}
