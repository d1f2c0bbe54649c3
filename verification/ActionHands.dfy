/** The hands: bounded actions through certified adapters, at most one completed execution per idempotency key. */
module ActionHands {
  import opened Prelude

  /** An action on the human-only list, or any other. */
  datatype ActionId = HumanOnly(name: string) | OtherAction(text: string)

  datatype Environment = Production | OtherEnvironment(text: string)

  datatype Risk = Low | Medium | High | OtherRisk(text: string)

  datatype Request = Request(id: string, action: ActionId, capability: string, key: string, environment: Environment,
                             risk: Risk, dryRun: bool, evidence: seq<string>)

  datatype Adapter = Adapter(certified: bool, nonProductionOnly: bool)

  datatype Check = CheckAllows(evidence: string) | CheckRefuses(why: string) | CheckRaises

  /** A request, and what the adapter would answer to it now: a result or an exception, then its own check. */
  datatype Call = Call(req: Request, result: Option<string>, check: Check)

  /** What is kept for a key. */
  datatype Recorded =
    | Verified(req: Request, result: string, evidence: string)
    | NotVerified(req: Request, result: string, why: string)

  datatype Outcome =
    | HumanOnlyAction | ProductionHumanOnly | HighRisk
    | UnknownRisk | RequestEvidenceIncomplete | UnknownCapability | CapabilityNotEligible
    | Replayed(record: Recorded) | ExecutionFailed | VerifierRaised | Fresh(record: Recorded)

  type Seen = map<string, Recorded>

  /** A request within the hands' own authority: not reserved for humans, not in production, of low or medium risk,
      and with id, key and evidence. */
  predicate InAuthority(req: Request) {
    && req.action.OtherAction? && req.environment != Production && (req.risk == Low || req.risk == Medium)
    && req.id != "" && req.key != "" && req.evidence != []
  }

  /** Why the request is not within the hands' own authority, if it is not. */
  function Refusal(req: Request): (r: Option<Outcome>)
    ensures r.None? <==> InAuthority(req)
    ensures r.Some? ==>
      match r.value
      case HumanOnlyAction => req.action.HumanOnly?
      case ProductionHumanOnly => req.action.OtherAction? && req.environment == Production
      case HighRisk => req.action.OtherAction? && req.environment != Production && req.risk == High
      case UnknownRisk => req.action.OtherAction? && req.environment != Production && req.risk.OtherRisk?
      case RequestEvidenceIncomplete =>
        && req.action.OtherAction? && req.environment != Production && (req.risk == Low || req.risk == Medium)
        && (req.id == "" || req.key == "" || req.evidence == [])
      case _ => false
  {
    if req.action.HumanOnly? then Some(HumanOnlyAction)
    else if req.environment == Production then Some(ProductionHumanOnly)
    else if req.risk == High then Some(HighRisk)
    else if req.risk != Low && req.risk != Medium then Some(UnknownRisk)
    else if req.id == "" || req.key == "" || req.evidence == [] then Some(RequestEvidenceIncomplete)
    else None
  }

  /** The capability has an adapter that is certified and kept out of production. */
  predicate Certified(adapters: map<string, Adapter>, capability: string) {
    capability in adapters && adapters[capability].certified && adapters[capability].nonProductionOnly
  }

  function Ineligible(adapters: map<string, Adapter>, req: Request): (r: Option<Outcome>)
    ensures r.None? <==> Certified(adapters, req.capability)
    ensures r.Some? ==>
      r.value == if req.capability !in adapters then UnknownCapability else CapabilityNotEligible
  {
    if req.capability !in adapters then Some(UnknownCapability)
    else if !adapters[req.capability].certified || !adapters[req.capability].nonProductionOnly then
      Some(CapabilityNotEligible)
    else None
  }

  /** The adapter's `execute` is called: the request is in bounds and nothing is on record for its key. */
  predicate Executes(adapters: map<string, Adapter>, seen: Seen, req: Request) {
    InAuthority(req) && Certified(adapters, req.capability) && req.key !in seen
  }

  /** What one execution comes to: an exception of the adapter or its check leaves no record, and the check decides
      between the two kinds of record. */
  function Executed(c: Call): (r: Outcome)
    ensures r.ExecutionFailed? <==> c.result.None?
    ensures r.VerifierRaised? <==> c.result.Some? && c.check.CheckRaises?
    ensures r.Fresh? <==> c.result.Some? && !c.check.CheckRaises?
    ensures r.Fresh? ==>
      && r.record.req == c.req && Some(r.record.result) == c.result
      && (if r.record.Verified? then c.check == CheckAllows(r.record.evidence)
          else c.check == CheckRefuses(r.record.why))
  {
    if c.result.None? then ExecutionFailed
    else match c.check
      case CheckRaises => VerifierRaised
      case CheckRefuses(why) => Fresh(NotVerified(c.req, c.result.value, why))
      case CheckAllows(evidence) => Fresh(Verified(c.req, c.result.value, evidence))
  }

  function Act(adapters: map<string, Adapter>, seen: Seen, c: Call): (Seen, Outcome) {
    if Refusal(c.req).Some? then (seen, Refusal(c.req).value)
    else if Ineligible(adapters, c.req).Some? then (seen, Ineligible(adapters, c.req).value)
    else if c.req.key in seen then (seen, Replayed(seen[c.req.key]))
    else if Executed(c).Fresh? then (seen[c.req.key := Executed(c).record], Executed(c))
    else (seen, Executed(c))
  }

  /** What acting comes to: refused requests and replays execute nothing and change no record; an execution is
      recorded under its key exactly when it completed. */
  lemma ActByFields(adapters: map<string, Adapter>, seen: Seen, c: Call)
    ensures
      var (after, r) := Act(adapters, seen, c);
      && (InAuthority(c.req) && Certified(adapters, c.req.capability) && c.req.key in seen ==>
            after == seen && r == Replayed(seen[c.req.key]))
      && (!InAuthority(c.req) ==> after == seen && Refusal(c.req) == Some(r))
      && (InAuthority(c.req) && !Certified(adapters, c.req.capability) ==>
            after == seen && Ineligible(adapters, c.req) == Some(r))
      && (Executes(adapters, seen, c.req) ==>
            r == Executed(c) && after == if r.Fresh? then seen[c.req.key := r.record] else seen)
  {
  }

  class Hands {
    const adapters: map<string, Adapter>
    var seen: Seen
    /** The requests the adapters were made to execute, in order. */
    var executed: seq<Request>

    constructor (adapters: map<string, Adapter>)
      ensures this.adapters == adapters && seen == map[] && executed == []
    {
      this.adapters := adapters;
      seen, executed := map[], [];
    }

    method TakeAction(c: Call) returns (r: Outcome)
      modifies this
      ensures (seen, r) == Act(adapters, old(seen), c)
      ensures executed == old(executed) + if Executes(adapters, old(seen), c.req) then [c.req] else []
    {
      var refused := Refusal(c.req);
      if refused.Some? {
        return refused.value;
      }
      var ineligible := Ineligible(adapters, c.req);
      if ineligible.Some? {
        return ineligible.value;
      }
      if c.req.key in seen {
        return Replayed(seen[c.req.key]);
      }
      executed := executed + [c.req];
      if c.result.None? {
        return ExecutionFailed;
      }
      match c.check
      case CheckRaises =>
        r := VerifierRaised;
      case CheckRefuses(why) =>
        seen := seen[c.req.key := NotVerified(c.req, c.result.value, why)];
        r := Fresh(seen[c.req.key]);
      case CheckAllows(evidence) =>
        seen := seen[c.req.key := Verified(c.req, c.result.value, evidence)];
        r := Fresh(seen[c.req.key]);
    }
  }

  // ---- Whole runs ------------------------------------------------------------------------

  function SeenAfter(adapters: map<string, Adapter>, calls: seq<Call>): Seen {
    if calls == [] then map[] else Act(adapters, SeenAfter(adapters, calls[..|calls| - 1]), calls[|calls| - 1]).0
  }

  /** The executions of a run for one key: the calls whose adapter was made to execute. */
  function ExecutionsOf(adapters: map<string, Adapter>, calls: seq<Call>, key: string): seq<Call> {
    if calls == [] then []
    else
      var init, last := calls[..|calls| - 1], calls[|calls| - 1];
      ExecutionsOf(adapters, init, key) +
        if last.req.key == key && Executes(adapters, SeenAfter(adapters, init), last.req) then [last] else []
  }

  /** The execution left a record: neither the adapter nor its check raised. */
  predicate Completes(c: Call) {
    Executed(c).Fresh?
  }

  /** Of the executions for a key every one but the last raised; the key is on record exactly when the last one
      completed, with what it came to. */
  ghost predicate OneCompleted(adapters: map<string, Adapter>, runs: seq<Call>, seen: Seen, key: string) {
    && (forall i :: 0 <= i < |runs| ==> runs[i].req.key == key)
    && (forall i :: 0 <= i < |runs| ==> InAuthority(runs[i].req) && Certified(adapters, runs[i].req.capability))
    && (forall i :: 0 <= i < |runs| - 1 ==> !Completes(runs[i]))
    && (key in seen <==> runs != [] && Completes(runs[|runs| - 1]))
    && (key in seen ==> Executed(runs[|runs| - 1]) == Fresh(seen[key]) && seen[key].req.key == key)
  }

  lemma OneMoreCall(adapters: map<string, Adapter>, runs: seq<Call>, seen: Seen, c: Call, key: string)
    requires OneCompleted(adapters, runs, seen, key)
    ensures OneCompleted(adapters, runs + if c.req.key == key && Executes(adapters, seen, c.req) then [c] else [],
                         Act(adapters, seen, c).0, key)
  {
    if c.req.key == key && Executes(adapters, seen, c.req) {
      OneMoreExecution(adapters, runs, seen, c);
    } else {
      OtherCall(adapters, seen, c, key);
      assert runs + [] == runs;
    }
  }

  lemma OneMoreExecution(adapters: map<string, Adapter>, runs: seq<Call>, seen: Seen, c: Call)
    requires OneCompleted(adapters, runs, seen, c.req.key) && Executes(adapters, seen, c.req)
    ensures OneCompleted(adapters, runs + [c], Act(adapters, seen, c).0, c.req.key)
  {
    var more := runs + [c];
    assert more[|runs|] == c && more[|more| - 1] == c;
    forall i | 0 <= i < |more| - 1 ensures !Completes(more[i]) {
      assert more[i] == runs[i];
    }
  }

  lemma OtherCall(adapters: map<string, Adapter>, seen: Seen, c: Call, key: string)
    requires !(c.req.key == key && Executes(adapters, seen, c.req))
    ensures key in Act(adapters, seen, c).0 <==> key in seen
    ensures key in seen ==> Act(adapters, seen, c).0[key] == seen[key]
  {
  }

  /** However often a key is used, at most one execution for it completes: every one before it raised, none
      follows it, and exactly when it happened is the key on record, with what it came to. */
  lemma {:induction false} OneCompletedExecution(adapters: map<string, Adapter>, calls: seq<Call>, key: string)
    ensures OneCompleted(adapters, ExecutionsOf(adapters, calls, key), SeenAfter(adapters, calls), key)
  {
    if calls == [] {
    } else {
      var init := calls[..|calls| - 1];
      OneCompletedExecution(adapters, init, key);
      OneMoreCall(adapters, ExecutionsOf(adapters, init, key), SeenAfter(adapters, init), calls[|calls| - 1], key);
    }
  }

  /** Once a key is on record, no later call with it executes anything, and every later call in bounds is
      answered with that record. */
  lemma {:induction false} RecordedNeverExecutes(adapters: map<string, Adapter>, calls: seq<Call>, k: nat, c: Call)
    requires k <= |calls| && c.req.key in SeenAfter(adapters, calls[..k])
    ensures
      var seen := SeenAfter(adapters, calls);
      && !Executes(adapters, seen, c.req)
      && c.req.key in seen && seen[c.req.key] == SeenAfter(adapters, calls[..k])[c.req.key]
      && (Refusal(c.req).None? && Ineligible(adapters, c.req).None? ==>
            Act(adapters, seen, c) == (seen, Replayed(seen[c.req.key])))
    decreases |calls|
  {
    if k < |calls| {
      var last := |calls| - 1;
      assert calls[..last][..k] == calls[..k];
      RecordedNeverExecutes(adapters, calls[..last], k, c);
    } else {
      assert calls[..k] == calls;
    }
  }

  /** An execution leaves its key free for the next call exactly when it raised. */
  lemma RaisedMayExecuteAgain(adapters: map<string, Adapter>, seen: Seen, c: Call)
    requires Executes(adapters, seen, c.req)
    ensures Executes(adapters, Act(adapters, seen, c).0, c.req) <==> !Completes(c)
  {
  }
}
