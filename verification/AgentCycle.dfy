/** One cycle of the agent runtime: lease, eyes, hands, checkpoint, in that order. */
module AgentCycle {
  import opened Prelude
  import opened AgentEyes
  import opened Continuity
  import opened ActionHands

  datatype CycleResult =
    | LeaseStage(answer: Answer)
    | EyesStage(hold: EyesHold)
    | HandsStage(outcome: Outcome)
    | CycleRaised
    | Complete(snapshot: string, action: Option<string>, checkpoint: string)

  /** The digest of an allowed action's record. */
  function ActionDigest(o: Outcome, digest: Recorded -> string): Option<string> {
    if Allowed(o) then Some(digest(o.record)) else None
  }

  /** The action's decision is to allow: verified now, or verified before and replayed. */
  predicate Allowed(o: Outcome)
    ensures Allowed(o) <==>
      || (exists record :: o == Fresh(record) && record.Verified?)
      || (exists record :: o == Replayed(record) && record.Verified?)
  {
    (o.Fresh? || o.Replayed?) && o.record.Verified?
  }

  /** The envelopes of all the sources, in the order of their names. */
  ghost predicate SnapshotOf(eyes: Adapters, sources: set<string>, now: int, names: seq<string>, items: seq<Envelope>) {
    IsSortedList(names, sources) && EnvelopesOf(eyes, names, now, |names|, items)
  }

  ghost predicate IsSnapshot(digest: seq<Envelope> -> string, eyes: Adapters, sources: set<string>, now: int,
                             d: string) {
    exists names, items :: SnapshotOf(eyes, sources, now, names, items) && d == digest(items)
  }

  /** The hold of the first faulty source, in the order of their names. */
  ghost predicate FirstHold(eyes: Adapters, sources: set<string>, now: int, hold: EyesHold) {
    exists names, k :: IsSortedList(names, sources) && FirstFault(eyes, names, now, k, hold)
  }

  class Runtime {
    const hands: Hands
    const store: ContinuityStore
    const snapshotDigest: seq<Envelope> -> string
    const recordDigest: Recorded -> string

    constructor (hands: Hands, store: ContinuityStore, snapshotDigest: seq<Envelope> -> string,
                 recordDigest: Recorded -> string)
      ensures this.hands == hands && this.store == store
      ensures this.snapshotDigest == snapshotDigest && this.recordDigest == recordDigest
    {
      this.hands, this.store := hands, store;
      this.snapshotDigest, this.recordDigest := snapshotDigest, recordDigest;
    }

    /** What the eyes make of the sources: the digest of a snapshot, or why there is none. */
    method Look(eyes: Adapters, sources: set<string>, now: int) returns (r: Result<string, EyesHold>)
      ensures r.Ok? <==> AllShow(eyes, sources, now)
      ensures r.Ok? ==> IsSnapshot(snapshotDigest, eyes, sources, now, r.value)
      ensures r.Err? ==> FirstHold(eyes, sources, now, r.error)
    {
      var seen, names := Observe(eyes, sources, now);
      if seen.Err? {
        return Err(seen.error);
      }
      assert SnapshotOf(eyes, sources, now, names, seen.value);
      r := Ok(snapshotDigest(seen.value));
    }

    /** The end of a cycle: a checkpoint of its state, and a note that it is complete. */
    method Finish(objective: string, owner: string, snapshot: string, acted: Option<string>, state: string, now: int)
      returns (r: CycleResult)
      requires store.Valid() && objective != ""
      modifies store`checkpoints, store`events
      ensures store.Valid()
      ensures r == Complete(snapshot, acted,
                            store.digest(CheckpointBody(objective, State(state, snapshot, acted, owner))))
      ensures store.Resumed(objective) == Ok(State(state, snapshot, acted, owner))
      ensures store.events == old(store.events) +
        [store.Entry(objective, CheckpointTaken(r.checkpoint), now),
         store.Entry(objective, CycleComplete(snapshot, acted, r.checkpoint), now)]
    {
      var saved := store.Checkpoint(objective, State(state, snapshot, acted, owner), now);
      store.AppendEvent(objective, CycleComplete(snapshot, acted, saved.value), now);
      r := Complete(snapshot, acted, saved.value);
    }

    /** Nothing is acted on without the lease and a snapshot; a completed cycle leaves the lease running, the
        action verified, and a checkpoint that resumes to exactly this cycle's state. `eyes` are the observation
        adapters. */
    method Cycle(objective: string, owner: string, eyes: Adapters, sources: set<string>, action: Option<Call>,
                 state: string, seconds: int, now: int) returns (r: CycleResult)
      requires store.Valid()
      modifies hands, store
      ensures store.Valid()
      ensures (store.leases, if r.LeaseStage? then r.answer else Granted(now + seconds)) ==
        LeaseStep(old(store.leases), Acquire(objective, owner, seconds, now))
      ensures r.LeaseStage? || r.EyesStage? || action.None? ==>
        hands.executed == old(hands.executed) && hands.seen == old(hands.seen)
      ensures !(r.LeaseStage? || r.EyesStage?) && action.Some? ==>
        && hands.seen == Act(hands.adapters, old(hands.seen), action.value).0
        && hands.executed == old(hands.executed) +
             if Executes(hands.adapters, old(hands.seen), action.value.req) then [action.value.req] else []
      ensures !r.LeaseStage? ==> (r.EyesStage? <==> !AllShow(eyes, sources, now))
      ensures r.EyesStage? ==> FirstHold(eyes, sources, now, r.hold)
      ensures !(r.LeaseStage? || r.EyesStage?) && action.None? ==> r.Complete? && r.action.None?
      ensures !(r.LeaseStage? || r.EyesStage?) && action.Some? ==>
        var outcome := Act(hands.adapters, old(hands.seen), action.value).1;
        && (r.CycleRaised? <==> outcome.VerifierRaised?)
        && (r.Complete? <==> Allowed(outcome))
        && (r.HandsStage? ==> r.outcome == outcome)
        && (r.Complete? ==> r.action == Some(recordDigest(outcome.record)))
      ensures r.Complete? ==>
        && store.leases[objective] == Lease(owner, now, seconds)
        && (action.Some? ==> Allowed(Act(hands.adapters, old(hands.seen), action.value).1))
        && store.Resumed(objective) == Ok(State(state, r.snapshot, r.action, owner))
        && r.checkpoint == store.digest(CheckpointBody(objective, State(state, r.snapshot, r.action, owner)))
        && IsSnapshot(snapshotDigest, eyes, sources, now, r.snapshot)
      ensures !r.Complete? ==> forall o :: store.Resumed(o) == old(store.Resumed(o))
      ensures store.events == old(store.events) +
        match r
          case LeaseStage(_) => []
          case CycleRaised => [store.Entry(objective, LeaseAcquired(owner, seconds), now)]
          case EyesStage(_) =>
            [store.Entry(objective, LeaseAcquired(owner, seconds), now), store.Entry(objective, EyesHeld, now)]
          case HandsStage(_) =>
            [store.Entry(objective, LeaseAcquired(owner, seconds), now), store.Entry(objective, HandsHeld, now)]
          case Complete(snapshot, acted, checkpoint) =>
            [store.Entry(objective, LeaseAcquired(owner, seconds), now),
             store.Entry(objective, CheckpointTaken(checkpoint), now),
             store.Entry(objective, CycleComplete(snapshot, acted, checkpoint), now)]
    {
      var lease := store.AcquireLease(objective, owner, seconds, now);
      if !lease.Granted? {
        return LeaseStage(lease);
      }
      var seen := Look(eyes, sources, now);
      if seen.Err? {
        store.AppendEvent(objective, EyesHeld, now);
        return EyesStage(seen.error);
      }
      var acted: Option<string> := None;
      if action.Some? {
        var outcome := hands.TakeAction(action.value);
        if outcome.VerifierRaised? {
          return CycleRaised;
        }
        if !Allowed(outcome) {
          store.AppendEvent(objective, HandsHeld, now);
          return HandsStage(outcome);
        }
        acted := ActionDigest(outcome, recordDigest);
      }
      r := Finish(objective, owner, seen.value, acted, state, now);
    }
  }
}
