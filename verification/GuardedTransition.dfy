/** The guarded transition: grant resolution, then the policy check, then the callback. */
module GuardedTransition {
  import opened Prelude
  import opened GrantResolution
  import opened RuntimePolicy

  function RuntimeGrantOf(r: ResolvedGrant): RuntimeGrant {
    RuntimeGrant(r.capabilities, r.capabilities, Given(r.scope), None, r.budget)
  }

  const MAX_DEPTH := 16

  /** The callback's side: what it was called with, in order. It may answer anything, or raise (`None`). */
  class Connector {
    const answer: Action -> Option<string>
    var calls: seq<Action>

    constructor (answer: Action -> Option<string>)
      ensures calls == [] && this.answer == answer
    {
      this.answer := answer;
      calls := [];
    }

    method Call(a: Action) returns (r: Option<string>)
      modifies this
      ensures calls == old(calls) + [a] && r == answer(a)
    {
      calls := calls + [a];
      r := answer(a);
    }
  }

  datatype Transition =
    | NotApplied(decision: Decision)
    | IdempotentReplay(decision: Decision)
    | Applied(decision: Decision, outcome: string)
    | CallbackRaised

  /** The chain `ids` carries the action: it is the leaf's whole chain at `now`, and the policy allows the action
      afresh at `later`. The two checks read the clock on their own unless the caller gives one time for both. */
  ghost predicate Carries(a: Action, grants: Grants, leaf: string, ids: seq<string>, replay: map<string, string>,
                          now: int, later: int) {
    && !IsProduction(a.capability) && a.requester != ""
    && Authorised(grants, leaf, ids, Some(a.requester), now, MAX_DEPTH)
    && VerdictOn(a, LeafGrant(grants, ids), replay, later) == Allow(false)
  }

  /** The leaf of a chain as the policy check reads it. */
  function LeafGrant(grants: Grants, ids: seq<string>): RuntimeGrant {
    if ids == [] || ids[0] !in grants || grants[ids[0]].scope.Malformed? || grants[ids[0]].budget.Malformed? then
      RuntimeGrant({}, {}, Malformed, None, Budget(None, None, None))
    else
      var leaf := grants[ids[0]];
      RuntimeGrant(Named(leaf.capabilities), Named(leaf.capabilities), leaf.scope, None, leaf.budget.value)
  }

  ghost predicate MayRun(a: Action, grants: Grants, leaf: string, replay: map<string, string>, now: int,
                         later: int) {
    exists ids :: Carries(a, grants, leaf, ids, replay, now, later)
  }

  ghost predicate NoChain(grants: Grants, leaf: string, agent: string, now: int) {
    forall ids :: !Authorised(grants, leaf, ids, Some(agent), now, MAX_DEPTH)
  }

  /** The transition answers as the policy decided. */
  predicate AnswersWith(r: Transition, d: Decision) {
    match r
    case NotApplied(decision) => decision == d && !d.verdict.Allow?
    case IdempotentReplay(decision) => decision == d && d.verdict == Allow(true)
    case Applied(decision, _) => decision == d && d.verdict == Allow(false)
    case CallbackRaised => d.verdict == Allow(false)
  }

  /** The callback runs exactly once when the action may run, and not at all otherwise. */
  method ExecuteGuardedTransition(a: Action, grants: Grants, leaf: string, connector: Connector,
                                  replay: map<string, string>, now: int, later: int)
    returns (r: Transition)
    modifies connector
    ensures connector.calls == old(connector.calls) + if MayRun(a, grants, leaf, replay, now, later) then [a] else []
    ensures r.Applied? || r.CallbackRaised? <==> MayRun(a, grants, leaf, replay, now, later)
    ensures r.Applied? ==> connector.answer(a) == Some(r.outcome) && r.decision.verdict == Allow(false)
    ensures r.CallbackRaised? ==> connector.answer(a) == None
    ensures r.IdempotentReplay? ==> a.id in replay && replay[a.id] == a.digest
    ensures IsProduction(a.capability) ==> r == NotApplied(Decision(a.id, RequireHuman, {}))
    ensures !IsProduction(a.capability) && a.requester == "" ==>
      r == NotApplied(Decision(a.id, Deny(PolicyUnavailable), {}))
    ensures !IsProduction(a.capability) && a.requester != "" ==> forall ids ::
      Authorised(grants, leaf, ids, Some(a.requester), now, MAX_DEPTH) ==>
        AnswersWith(r, EvaluateRuntime(a, Some(LeafGrant(grants, ids)), replay, later, true))
    ensures !IsProduction(a.capability) && a.requester != "" && NoChain(grants, leaf, a.requester, now) ==>
        && r.NotApplied? && r.decision.verdict.Deny? && r.decision.effective == {}
        && exists trail :: Refused(grants, leaf, trail, Some(a.requester), now, MAX_DEPTH, r.decision.verdict.reason)
  {
    if IsProduction(a.capability) {
      return NotApplied(Decision(a.id, RequireHuman, {}));
    }
    if a.requester == "" {
      return NotApplied(Decision(a.id, Deny(PolicyUnavailable), {}));
    }
    var resolved, trail := ResolveGrant(leaf, grants, Some(a.requester), now, MAX_DEPTH);
    if resolved.Err? {
      return NotApplied(Decision(a.id, Deny(resolved.error), {}));
    }
    var decision := EvaluateRuntime(a, Some(RuntimeGrantOf(resolved.value)), replay, later, true);
    OneChain(a, grants, leaf, resolved.value, replay, now, later);
    forall ids | Authorised(grants, leaf, ids, Some(a.requester), now, MAX_DEPTH)
      ensures LeafGrant(grants, ids) == RuntimeGrantOf(resolved.value)
    {
      SameLeafGrant(a, grants, leaf, resolved.value, ids, now);
    }
    if !decision.verdict.Allow? {
      return NotApplied(decision);
    }
    if decision.verdict.replayed {
      return IdempotentReplay(decision);
    }
    var outcome := connector.Call(a);
    r := if outcome.Some? then Applied(decision, outcome.value) else CallbackRaised;
  }

  lemma SameLeafGrant(a: Action, grants: Grants, leaf: string, r: ResolvedGrant, ids: seq<string>, now: int)
    requires Authorised(grants, leaf, r.chain, Some(a.requester), now, MAX_DEPTH)
      && Represents(r, grants[r.chain[0]], leaf)
    requires Authorised(grants, leaf, ids, Some(a.requester), now, MAX_DEPTH)
    ensures ids == r.chain && LeafGrant(grants, ids) == RuntimeGrantOf(r)
  {
    CompleteIsOnlyWay(grants, leaf, r.chain, ids, now, MAX_DEPTH);
    CompleteIsOnlyWay(grants, leaf, ids, r.chain, now, MAX_DEPTH);
    assert ids == r.chain;
    assert Live(grants, r.chain[0], now);
  }

  /** The resolved grant is the leaf of the only chain there is. */
  lemma OneChain(a: Action, grants: Grants, leaf: string, r: ResolvedGrant, replay: map<string, string>, now: int,
                 later: int)
    requires Authorised(grants, leaf, r.chain, Some(a.requester), now, MAX_DEPTH)
      && Represents(r, grants[r.chain[0]], leaf)
    requires !IsProduction(a.capability) && a.requester != ""
    ensures MayRun(a, grants, leaf, replay, now, later) <==>
      VerdictOn(a, RuntimeGrantOf(r), replay, later) == Allow(false)
  {
    SameLeafGrant(a, grants, leaf, r, r.chain, now);
    if MayRun(a, grants, leaf, replay, now, later) {
      var ids :| Carries(a, grants, leaf, ids, replay, now, later);
      SameLeafGrant(a, grants, leaf, r, ids, now);
    } else {
      assert !Carries(a, grants, leaf, r.chain, replay, now, later);
    }
  }

  // ---- What an action that runs has behind it --------------------------------------------

  /** The grant is in force and wide enough for the action. */
  ghost predicate Covers(g: Grant, a: Action, now: int) {
    && !g.revoked
    && (g.validFrom.Some? ==> g.validFrom.value.At? && g.validFrom.value.time <= now)
    && (g.validUntil.Some? ==> g.validUntil.value.At? && now < g.validUntil.value.time)
    && a.capability in g.capabilities
    && a.scope.Given? && g.scope.Given? && Entries(a.scope.value, g.scope.value)
    && g.budget.Given? && BudgetWithin(a.budget, g.budget.value)
  }

  /** `ids` runs from the leaf, which is the requester's, up to a root, over at most sixteen distinct grants;
      each of them covers the action, and none expires after an ancestor. */
  ghost predicate BackedByChain(a: Action, grants: Grants, leaf: string, ids: seq<string>, now: int) {
    && 0 < |ids| <= 16 && Distinct(ids) && ids[0] == leaf
    && (forall i :: 0 <= i < |ids| ==> ids[i] in grants && Covers(grants[ids[i]], a, now))
    && grants[leaf].agent == a.requester
    && (forall i, j :: 0 <= i && j == i + 1 && j < |ids| ==> grants[ids[i]].delegatedFrom == ids[j])
    && grants[ids[|ids| - 1]].delegatedFrom == ""
    && (forall i, j :: 0 <= i < j < |ids| ==>
          FigureNotWider(TimeOf(grants[ids[i]].validUntil), TimeOf(grants[ids[j]].validUntil)))
  }

  /** Whatever runs is current, new, no production matter, and within every grant on the chain up to the root. */
  lemma WhatRunsIsBacked(a: Action, grants: Grants, leaf: string, replay: map<string, string>, now: int, later: int)
    requires MayRun(a, grants, leaf, replay, now, later)
    ensures exists ids :: BackedByChain(a, grants, leaf, ids, now)
    ensures a.id !in replay && Current(a, later) && IsKnown(a.capability)
    ensures !a.capability.ProductionApprove? && !a.capability.ProductionPromote? && !a.capability.OtherProduction?
  {
    var ids :| Carries(a, grants, leaf, ids, replay, now, later);
    forall i | 0 <= i < |ids| ensures ids[i] in grants && Covers(grants[ids[i]], a, now) {
      LinkCovers(a, grants, leaf, ids, replay, now, later, i);
    }
    forall i, j | 0 <= i < j < |ids|
      ensures FigureNotWider(TimeOf(grants[ids[i]].validUntil), TimeOf(grants[ids[j]].validUntil))
    {
      ChainOnlyNarrows(grants, leaf, ids, Some(a.requester), now, MAX_DEPTH, i, j);
    }
    assert BackedByChain(a, grants, leaf, ids, now);
  }

  lemma LinkCovers(a: Action, grants: Grants, leaf: string, ids: seq<string>, replay: map<string, string>, now: int,
                   later: int, i: nat)
    requires Carries(a, grants, leaf, ids, replay, now, later) && i < |ids|
    ensures ids[i] in grants && Covers(grants[ids[i]], a, now)
  {
    ChainIsLive(grants, leaf, ids, Some(a.requester), now, MAX_DEPTH, i);
    ChainOnlyNarrows(grants, leaf, ids, Some(a.requester), now, MAX_DEPTH, 0, i);
    AllowedByLeaf(a, grants[ids[0]], LeafGrant(grants, ids), replay, later);
    WithinCovers(a, grants[ids[0]], grants[ids[i]]);
  }

  lemma AllowedByLeaf(a: Action, leaf: Grant, g: RuntimeGrant, replay: map<string, string>, now: int)
    requires leaf.scope.Given? && leaf.budget.Given?
    requires g == RuntimeGrant(Named(leaf.capabilities), Named(leaf.capabilities), leaf.scope, None, leaf.budget.value)
    requires VerdictOn(a, g, replay, now) == Allow(false)
    ensures a.capability in leaf.capabilities && a.scope.Given? && Entries(a.scope.value, leaf.scope.value)
    ensures BudgetWithin(a.budget, leaf.budget.value)
  {
  }

  lemma WithinCovers(a: Action, leaf: Grant, up: Grant)
    requires Within(leaf, up) && a.scope.Given?
    requires a.capability in leaf.capabilities && Entries(a.scope.value, leaf.scope.value)
    requires BudgetWithin(a.budget, leaf.budget.value)
    ensures a.capability in up.capabilities && Entries(a.scope.value, up.scope.value)
    ensures BudgetWithin(a.budget, up.budget.value)
  {
  }

  /** The three figures of a budget. */
  datatype Figure = Timeout | Retries | Cost

  function FigureOf(b: Budget, f: Figure): Option<int> {
    match f
    case Timeout => b.timeoutSeconds
    case Retries => b.maxRetries
    case Cost => b.maxCostMinor
  }

  /** Where the grant limits the figure, the action states it and stays within the limit. */
  predicate Held(a: Action, g: Grant, f: Figure) {
    g.budget.Given? && FigureNotWider(FigureOf(a.budget, f), FigureOf(g.budget.value, f))
  }

  /** An action that may run is held to every limit that its chain sets for a figure exactly when the leaf sets
      none or the action states the figure. */
  lemma FigureIsHeldExactlyWhen(a: Action, grants: Grants, leaf: string, ids: seq<string>,
                                replay: map<string, string>, now: int, later: int, f: Figure)
    requires Carries(a, grants, leaf, ids, replay, now, later)
    ensures forall i :: 0 <= i < |ids| ==> ids[i] in grants
    ensures leaf in grants && grants[leaf].budget.Given?
    ensures (forall i :: 0 <= i < |ids| ==> Held(a, grants[ids[i]], f)) <==>
      FigureOf(grants[leaf].budget.value, f).None? || FigureOf(a.budget, f).Some?
  {
    forall i | 0 <= i < |ids| ensures ids[i] in grants && Covers(grants[ids[i]], a, now) {
      LinkCovers(a, grants, leaf, ids, replay, now, later, i);
    }
    forall i | 0 <= i < |ids|
      ensures FigureOf(grants[ids[0]].budget.value, f).None? || FigureOf(a.budget, f).Some? ==>
        Held(a, grants[ids[i]], f)
    {
      ChainOnlyNarrows(grants, leaf, ids, Some(a.requester), now, MAX_DEPTH, 0, i);
    }
    assert Held(a, grants[ids[0]], f) ==>
      FigureOf(grants[ids[0]].budget.value, f).None? || FigureOf(a.budget, f).Some?;
  }

  /** A figure the action does not state is not held to any limit: whatever the chain allows, leaving the
      figures out of the action changes no permission. */
  lemma UnstatedFiguresAreFree(a: Action, grants: Grants, leaf: string, replay: map<string, string>, now: int,
                               later: int)
    requires MayRun(a, grants, leaf, replay, now, later)
    ensures MayRun(a.(budget := Budget(None, None, None)), grants, leaf, replay, now, later)
  {
    var ids :| Carries(a, grants, leaf, ids, replay, now, later);
    assert Carries(a.(budget := Budget(None, None, None)), grants, leaf, ids, replay, now, later);
  }

  /** A grant of reading rights for at most a minute, without retries or cost. */
  function OneMinute(): Grant {
    Grant("", "agent", {SpecRead}, Given(map["tenant" := "t"]), Given(Budget(Some(60), Some(0), Some(0))), None, None,
          false, "")
  }

  /** A request to read, with the timeout given. */
  function Reader(timeout: Option<int>): Action {
    Action("a1", "agent", SpecRead, "task", "t1", At(0), At(10), "sha256:" + seq(64, _ => '0'),
           Given(map["tenant" := "t"]), Budget(timeout, None, None))
  }

  /** The input that runs unheld: under a grant of one minute a request for more does not run, but one that states
      no timeout does. */
  lemma UnstatedTimeoutRuns(timeout: int)
    requires timeout > 60
    ensures
      var grants := map["g" := OneMinute()];
      && MayRun(Reader(None), grants, "g", map[], 5, 5)
      && !MayRun(Reader(Some(timeout)), grants, "g", map[], 5, 5)
      && !Held(Reader(None), OneMinute(), Timeout)
  {
    var grants, ids := map["g" := OneMinute()], ["g"];
    assert SpecRead in Named({SpecRead});
    assert "tenant" in OneMinute().scope.value;
    assert Live(grants, ids[0], 5);
    assert Carries(Reader(None), grants, "g", ids, map[], 5, 5);
  }

  /** Between the two readings a grant can run out. The chain is still in force at the second exactly when the leaf
      is: its ancestors last at least as long. */
  lemma InForceLaterExactlyWhen(a: Action, grants: Grants, leaf: string, ids: seq<string>,
                                replay: map<string, string>, now: int, later: int)
    requires Carries(a, grants, leaf, ids, replay, now, later) && now <= later
    ensures leaf in grants
    ensures (forall i :: 0 <= i < |ids| ==> Live(grants, ids[i], later)) <==>
      TimeOf(grants[leaf].validUntil).Some? ==> later < TimeOf(grants[leaf].validUntil).value
  {
    assert Live(grants, ids[0], now);
    if TimeOf(grants[leaf].validUntil).Some? ==> later < TimeOf(grants[leaf].validUntil).value {
      forall i | 0 <= i < |ids| ensures Live(grants, ids[i], later) {
        assert Live(grants, ids[i], now);
        ChainOnlyNarrows(grants, leaf, ids, Some(a.requester), now, MAX_DEPTH, 0, i);
      }
    }
  }

  /** The input on which a grant runs out in between: it is resolved at 5, ends at 7, and the action runs at 8. */
  lemma RunsAfterGrantRanOut()
    ensures
      var grants := map["g" := OneMinute().(validUntil := Some(At(7)))];
      MayRun(Reader(None), grants, "g", map[], 5, 8) && !Live(grants, "g", 8)
  {
    var grants, ids := map["g" := OneMinute().(validUntil := Some(At(7)))], ["g"];
    assert SpecRead in Named({SpecRead});
    assert "tenant" in OneMinute().scope.value;
    assert Live(grants, ids[0], 5);
    assert Carries(Reader(None), grants, "g", ids, map[], 5, 8);
  }
}
