/** Evidence-triggered replanning: what one replan may change, and what a whole chain of replans keeps. */
module Replanning {
  import opened Prelude
  import opened PlanNodes
  import opened ParentGraph
  import opened DependencyWaves
  import opened HierarchicalPlanner

  datatype Trigger =
    | DependencyFailed | ValidationFailed | ToolUnavailable | EvidenceChanged | AssumptionInvalidated
    | OtherTrigger(text: string)

  datatype ReplanSignal = ReplanSignal(
    planDigest: string,
    trigger: Trigger,
    triggerEvidenceRefs: seq<string>,
    completedNodeIds: seq<string>,
    evidenceFresh: bool,
    authorityUnchanged: bool,
    scopeUnchanged: bool,
    risk: Risk,
    production: bool)

  predicate ValidPlan(hash: PlanBody -> string, plan: Plan) {
    && plan.body.schema.PlanSchema? && plan.body.status.PlanReady?
    && plan.body.guards == LOCKED
    && plan.planDigest == hash(plan.body)
  }

  function Completed(signal: ReplanSignal): set<string> {
    set c | c in signal.completedNodeIds
  }

  function NodeIds(rows: seq<PlanNode>): set<string> {
    set i | 0 <= i < |rows| :: rows[i].nodeId
  }

  /** A signal that may start a replan: it names this valid plan, a known trigger with evidence that is fresh, a low or
      medium risk outside production, no change of authority or scope, and completed nodes of the plan. */
  predicate MayReplan(hash: PlanBody -> string, plan: Plan, signal: ReplanSignal) {
    && ValidPlan(hash, plan) && signal.planDigest == plan.planDigest && !signal.trigger.OtherTrigger?
    && AllStated(signal.triggerEvidenceRefs) && signal.evidenceFresh
    && (signal.risk == Low || signal.risk == Medium) && !signal.production
    && signal.authorityUnchanged && signal.scopeUnchanged
    && forall id :: id in signal.completedNodeIds ==> id in NodeIds(plan.body.nodes)
  }

  /** What each refusal of a signal is about. */
  predicate Flaw(hash: PlanBody -> string, plan: Plan, signal: ReplanSignal, reason: StopReason) {
    match reason
    case ValidPlanRequired => !ValidPlan(hash, plan)
    case SourceDigestMismatch => signal.planDigest != plan.planDigest
    case UnknownTrigger => signal.trigger.OtherTrigger?
    case TriggerEvidenceRequired => !AllStated(signal.triggerEvidenceRefs)
    case EvidenceStale => !signal.evidenceFresh
    case ReplanRiskInvalid => signal.risk.OtherRisk?
    case ReplanHumanBoundary => signal.production || signal.risk == High
    case AuthorityChange => !signal.authorityUnchanged
    case ScopeChange => !signal.scopeUnchanged
    case UnknownCompletedNode => exists id :: id in signal.completedNodeIds && id !in NodeIds(plan.body.nodes)
    case _ => false
  }

  /** The order in which refusals are given. */
  function Order(reason: StopReason): nat {
    match reason
    case ValidPlanRequired => 0
    case SourceDigestMismatch => 1
    case UnknownTrigger => 2
    case TriggerEvidenceRequired => 3
    case EvidenceStale => 4
    case ReplanRiskInvalid => 5
    case ReplanHumanBoundary => 6
    case AuthorityChange => 7
    case ScopeChange => 8
    case _ => 9
  }

  /** The first refusal; three of them call a human. */
  ghost predicate FirstFlaw<T>(hash: PlanBody -> string, plan: Plan, signal: ReplanSignal, r: Outcome<T>) {
    && (r.Hold? || r.HumanGate?) && Flaw(hash, plan, signal, r.reason)
    && (forall other :: Flaw(hash, plan, signal, other) ==> Order(r.reason) <= Order(other))
    && (r.HumanGate? <==> r.reason.ReplanHumanBoundary? || r.reason.AuthorityChange? || r.reason.ScopeChange?)
  }

  function EvaluateSignal(hash: PlanBody -> string, plan: Plan, signal: ReplanSignal): (r: Outcome<()>)
    ensures r.Ready? <==> MayReplan(hash, plan, signal)
    ensures !r.Ready? ==> FirstFlaw(hash, plan, signal, r)
  {
    AnyBlankFinds(signal.triggerEvidenceRefs);
    if !ValidPlan(hash, plan) then Hold(ValidPlanRequired)
    else if signal.planDigest != plan.planDigest then Hold(SourceDigestMismatch)
    else if signal.trigger.OtherTrigger? then Hold(UnknownTrigger)
    else if signal.triggerEvidenceRefs == [] || AnyBlank(signal.triggerEvidenceRefs) then Hold(TriggerEvidenceRequired)
    else if !signal.evidenceFresh then Hold(EvidenceStale)
    else if signal.risk.OtherRisk? then Hold(ReplanRiskInvalid)
    else if signal.production || signal.risk.High? then HumanGate(ReplanHumanBoundary)
    else if !signal.authorityUnchanged then HumanGate(AuthorityChange)
    else if !signal.scopeUnchanged then HumanGate(ScopeChange)
    else if !(Completed(signal) <= NodeIds(plan.body.nodes)) then Hold(UnknownCompletedNode)
    else Ready(())
  }

  /** The order of the known risks; an unknown one has no rank. */
  function RiskRank(risk: Risk): Option<nat> {
    match risk
    case Low => Some(0)
    case Medium => Some(1)
    case High => Some(2)
    case OtherRisk(_) => None
  }

  /** Both risks are known, and the first is no higher. */
  predicate NoRiskier(risk: Risk, former: Risk) {
    && !risk.OtherRisk? && !former.OtherRisk?
    && (risk == Low || risk == former || former == High)
  }

  predicate SameWork(node: PlanNode, former: PlanNode) {
    node.action == former.action && node.capabilityId == former.capabilityId
  }

  /** How one replacement is judged against the node it replaces. */
  function ReplacementGate(node: PlanNode, former: PlanNode): (r: Outcome<()>)
    ensures r.Ready? <==>
      SameWork(node, former) && NoRiskier(node.risk, former.risk) && node.environment == former.environment
    ensures r.Raised? <==> SameWork(node, former) && (node.risk.OtherRisk? || former.risk.OtherRisk?)
    ensures r == HumanGate(ScopeWidening) <==> !SameWork(node, former)
    ensures r == HumanGate(EnvironmentChange) <==>
      SameWork(node, former) && NoRiskier(node.risk, former.risk) && node.environment != former.environment
    ensures r.Ready? || r.Raised? || (r.HumanGate? && r.reason in {ScopeWidening, RiskWidening, EnvironmentChange})
  {
    if node.action != former.action || node.capabilityId != former.capabilityId then HumanGate(ScopeWidening)
    else if RiskRank(node.risk).None? || RiskRank(former.risk).None? then Raised
    else if RiskRank(node.risk).value > RiskRank(former.risk).value then HumanGate(RiskWidening)
    else if node.environment != former.environment then HumanGate(EnvironmentChange)
    else Ready(())
  }

  /** `node` stays within what `old` was allowed: same action, capability and environment, no more risk. */
  predicate NoWider(node: PlanNode, former: PlanNode) {
    && node.nodeId == former.nodeId && node.action == former.action && node.capabilityId == former.capabilityId
    && node.environment == former.environment
    && (node.risk == former.risk || NoRiskier(node.risk, former.risk))
  }

  lemma NoWiderTransitive(a: PlanNode, b: PlanNode, c: PlanNode)
    requires NoWider(a, b) && NoWider(b, c)
    ensures NoWider(a, c)
  {
  }

  /** The rows of the completed nodes, in the order of `ids`. */
  function Kept(previous: Nodes, ids: seq<string>): (rows: seq<PlanNode>)
    requires forall id :: id in ids ==> id in previous
    ensures |rows| == |ids| && forall i :: 0 <= i < |ids| ==> rows[i] == previous[ids[i]]
  {
    if ids == [] then [] else Kept(previous, ids[..|ids| - 1]) + [previous[ids[|ids| - 1]]]
  }

  /** `next` is what a replan of `plan` led to: every id once, completed nodes as they were, the others
      no wider, a plan in its own right, one replan further along and tied to its source. */
  ghost predicate Replanned(hash: PlanBody -> string, plan: Plan, completed: set<string>, next: Plan) {
    var before, after := IndexOf(plan.body.nodes), IndexOf(next.body.nodes);
    && ValidPlan(hash, plan) && ValidPlan(hash, next)
    && Plannable(next.body.nodes)
    && Describes(hash, next, plan.body.objectiveId, next.body.nodes, Some(plan.planDigest), plan.body.replanCount + 1)
    && NoneWider(before, after) && Untouched(before, after, completed)
  }

  /** The same ids, and no node wider than it was. */
  ghost predicate NoneWider(before: Nodes, after: Nodes) {
    after.Keys == before.Keys && forall id :: id in before ==> NoWider(after[id], before[id])
  }

  ghost predicate Untouched(before: Nodes, after: Nodes, ids: set<string>) {
    forall id :: id in before && id in ids ==> id in after && after[id] == before[id]
  }

  /** The comparison of risks meets a name it has no rank for. */
  ghost predicate MeetsUnknownRisk(before: Nodes, node: PlanNode) {
    && node.nodeId in before
    && (node.risk.OtherRisk? || before[node.nodeId].risk.OtherRisk?)
  }

  /** Every replacement stands for a node of the plan and passes its gate. */
  ghost predicate GatePassed(previous: Nodes, replacements: seq<PlanNode>) {
    forall j :: 0 <= j < |replacements| ==>
      && replacements[j].nodeId in previous
      && ReplacementGate(replacements[j], previous[replacements[j].nodeId]).Ready?
  }

  /** The completed nodes and the replacements together make a plan. */
  ghost predicate Rebuildable(plan: Plan, before: Nodes, completed: set<string>, replacements: seq<PlanNode>)
    requires completed <= before.Keys
  {
    && !Blank(plan.body.objectiveId) && plan.body.replanCount + 1 >= 0
    && exists ids :: IsSortedList(ids, completed) && Plannable(Kept(before, ids) + replacements)
  }

  /** What a candidate replan must bring: each open node replaced once and not widened, and, together
      with the completed nodes, an acceptable plan. */
  ghost predicate Acceptable(plan: Plan, before: Nodes, completed: set<string>, replacements: seq<PlanNode>) {
    && completed <= before.Keys
    && DistinctIds(replacements) && NodeIds(replacements) == before.Keys - completed
    && GatePassed(before, replacements)
    && Rebuildable(plan, before, completed, replacements)
  }

  /** Replacements that are in order leave the answer to the plan they make with the completed nodes. */
  ghost predicate StopsAtRebuild(plan: Plan, before: Nodes, completed: set<string>, replacements: seq<PlanNode>,
                                 r: Outcome<Plan>)
    requires completed <= before.Keys
  {
    DistinctIds(replacements) && NodeIds(replacements) == before.Keys - completed &&
    GatePassed(before, replacements) && !r.Ready? ==>
      exists ids :: IsSortedList(ids, completed) && RebuildStops(plan, before, ids, replacements, r)
  }

  ghost predicate RebuildStops(plan: Plan, before: Nodes, ids: seq<string>, replacements: seq<PlanNode>,
                               r: Outcome<Plan>)
    requires forall id :: id in ids ==> id in before
  {
    Stopped(plan.body.objectiveId, Kept(before, ids) + replacements, plan.body.replanCount + 1, r)
  }

  method PrepareReplan(hash: PlanBody -> string, plan: Plan, signal: ReplanSignal, replacements: seq<PlanNode>)
    returns (r: Outcome<Plan>)
    ensures r.Ready? <==>
      MayReplan(hash, plan, signal)
        && Acceptable(plan, IndexOf(plan.body.nodes), Completed(signal), replacements)
    ensures r.Ready? ==> Replanned(hash, plan, Completed(signal), r.value)
    ensures r.Ready? ==> forall i :: 0 <= i < |replacements| ==> replacements[i] in r.value.body.nodes
    ensures !MayReplan(hash, plan, signal) ==> FirstFlaw(hash, plan, signal, r)
    ensures r.Raised? <==> Raises(hash, plan, signal, replacements)
    ensures MayReplan(hash, plan, signal) ==>
      StopsAtReplacements(IndexOf(plan.body.nodes), Completed(signal), replacements, r)
    ensures MayReplan(hash, plan, signal) ==> Completed(signal) <= IndexOf(plan.body.nodes).Keys
    ensures MayReplan(hash, plan, signal) ==>
      StopsAtRebuild(plan, IndexOf(plan.body.nodes), Completed(signal), replacements, r)
  {
    var gate := EvaluateSignal(hash, plan, signal);
    if !gate.Ready? {
      return StopFrom(gate);
    }
    var previous := IndexOf(plan.body.nodes);
    IndexOfKeys(plan.body.nodes);
    RaisedExactlyWhen(previous, Completed(signal), replacements);
    r := ReplaceNodes(hash, plan, previous, Completed(signal), replacements);
  }

  /** A candidate replan: the replacements are checked against the nodes they replace, then the plan is rebuilt. */
  method ReplaceNodes(hash: PlanBody -> string, plan: Plan, previous: Nodes, completed: set<string>,
                      replacements: seq<PlanNode>)
    returns (r: Outcome<Plan>)
    requires ValidPlan(hash, plan) && previous == IndexOf(plan.body.nodes) && completed <= previous.Keys
    requires forall id :: id in previous ==> previous[id].nodeId == id
    ensures r.Ready? <==> Acceptable(plan, previous, completed, replacements)
    ensures r.Ready? ==> Replanned(hash, plan, completed, r.value)
    ensures r.Ready? ==> forall i :: 0 <= i < |replacements| ==> replacements[i] in r.value.body.nodes
    ensures r.Raised? <==> BarredByException(previous, completed, replacements)
    ensures StopsAtReplacements(previous, completed, replacements, r)
    ensures StopsAtRebuild(plan, previous, completed, replacements, r)
  {
    if !DistinctIdsTest(replacements) {
      return Hold(DuplicateReplacement);
    }
    if NodeIds(replacements) != previous.Keys - completed {
      return Hold(MustReplaceExactMutableSet);
    }
    forall i | 0 <= i < |replacements| ensures replacements[i].nodeId in previous {
      assert replacements[i].nodeId in NodeIds(replacements);
    }
    var judged := JudgeReplacements(previous, replacements);
    if !judged.Ready? {
      FirstBarredIsUnique(previous, replacements, judged);
      return StopFrom(judged);
    }
    PassedIsNotBarred(previous, replacements);
    r := Rebuild(hash, plan, previous, completed, replacements);
  }

  method Rebuild(hash: PlanBody -> string, plan: Plan, previous: Nodes, completed: set<string>,
                 replacements: seq<PlanNode>)
    returns (r: Outcome<Plan>)
    requires ValidPlan(hash, plan) && previous == IndexOf(plan.body.nodes) && completed <= previous.Keys
    requires forall id :: id in previous ==> previous[id].nodeId == id
    requires NodeIds(replacements) == previous.Keys - completed && GatePassed(previous, replacements)
    ensures r.Ready? <==> Rebuildable(plan, previous, completed, replacements)
    ensures r.Ready? ==> Replanned(hash, plan, completed, r.value)
    ensures r.Ready? ==> forall i :: 0 <= i < |replacements| ==> replacements[i] in r.value.body.nodes
    ensures !r.Raised? && StopsAtRebuild(plan, previous, completed, replacements, r)
  {
    var ids := SortedIds(completed);
    var combined := Kept(previous, ids) + replacements;
    RebuildableBy(plan, previous, completed, ids, replacements);
    r := BuildPlan(hash, plan.body.objectiveId, combined, Some(plan.planDigest), plan.body.replanCount + 1);
    if r.Ready? {
      CombinedIsReplan(hash, plan, previous, completed, ids, replacements, r.value);
      ReplacementsStay(previous, ids, replacements, r.value.body.nodes);
    }
  }

  lemma RebuildableBy(plan: Plan, before: Nodes, completed: set<string>, ids: seq<string>, replacements: seq<PlanNode>)
    requires completed <= before.Keys && IsSortedList(ids, completed)
    ensures Rebuildable(plan, before, completed, replacements) <==>
      !Blank(plan.body.objectiveId) && plan.body.replanCount + 1 >= 0 && Plannable(Kept(before, ids) + replacements)
  {
    forall ids' | IsSortedList(ids', completed) ensures ids' == ids {
      SortedListUnique(ids, ids', completed);
    }
  }

  function StopFrom<T>(gate: Outcome<()>): Outcome<T>
    requires !gate.Ready?
  {
    match gate
    case Hold(reason) => Hold(reason)
    case HumanGate(reason) => HumanGate(reason)
    case Raised => Raised
  }

  predicate DistinctIdsTest(rows: seq<PlanNode>)
    ensures DistinctIdsTest(rows) <==> DistinctIds(rows)
  {
    forall i, j | 0 <= i < |rows| && 0 <= j < |rows| :: i < j ==> rows[i].nodeId != rows[j].nodeId
  }

  /** Replacements that name a node twice, or not exactly the open nodes, hold the replan; otherwise the first that
      may not stand in for its node decides. */
  ghost predicate StopsAtReplacements(before: Nodes, completed: set<string>, replacements: seq<PlanNode>,
                                      r: Outcome<Plan>) {
    && (!DistinctIds(replacements) ==> r == Hold(DuplicateReplacement))
    && (DistinctIds(replacements) && NodeIds(replacements) != before.Keys - completed ==>
        r == Hold(MustReplaceExactMutableSet))
    && (DistinctIds(replacements) && NodeIds(replacements) == before.Keys - completed
        && !GatePassed(before, replacements) ==>
          exists i, g: Outcome<()> :: IsFirstBarred(before, replacements, i, g) && r == StopFrom(g))
  }

  /** The first replacement that may not stand in for its node is the `i`-th, for reason `r`. */
  ghost predicate IsFirstBarred(previous: Nodes, replacements: seq<PlanNode>, i: nat, r: Outcome<()>) {
    && i < |replacements| && replacements[i].nodeId in previous && !r.Ready?
    && r == ReplacementGate(replacements[i], previous[replacements[i].nodeId])
    && GatePassed(previous, replacements[..i])
  }

  /** The comparison of risks is the first thing to go wrong, and it goes wrong at the `i`-th replacement: those before
      it may stand in for their nodes, it keeps action and capability, and its risk or its node's has no rank. */
  ghost predicate RaisesAt(previous: Nodes, replacements: seq<PlanNode>, i: nat) {
    && i < |replacements| && GatePassed(previous, replacements[..i]) && MeetsUnknownRisk(previous, replacements[i])
    && replacements[i].action == previous[replacements[i].nodeId].action
    && replacements[i].capabilityId == previous[replacements[i].nodeId].capabilityId
  }

  ghost predicate BarredByException(previous: Nodes, completed: set<string>, replacements: seq<PlanNode>) {
    && DistinctIds(replacements) && NodeIds(replacements) == previous.Keys - completed
    && exists i: nat :: IsFirstBarred(previous, replacements, i, Raised)
  }

  /** The exact condition under which a replan ends in an exception. */
  ghost predicate Raises(hash: PlanBody -> string, plan: Plan, signal: ReplanSignal, replacements: seq<PlanNode>) {
    var previous := IndexOf(plan.body.nodes);
    && MayReplan(hash, plan, signal) && DistinctIds(replacements)
    && NodeIds(replacements) == previous.Keys - Completed(signal)
    && exists i: nat :: RaisesAt(previous, replacements, i)
  }

  lemma RaisedExactlyWhen(previous: Nodes, completed: set<string>, replacements: seq<PlanNode>)
    ensures BarredByException(previous, completed, replacements) <==>
      && DistinctIds(replacements) && NodeIds(replacements) == previous.Keys - completed
      && exists i: nat :: RaisesAt(previous, replacements, i)
  {
    forall i: nat ensures RaisesAt(previous, replacements, i) <==> IsFirstBarred(previous, replacements, i, Raised) {
    }
  }

  lemma BarredOnce(previous: Nodes, replacements: seq<PlanNode>, i: nat, g: Outcome<()>, j: nat, h: Outcome<()>)
    requires IsFirstBarred(previous, replacements, i, g) && IsFirstBarred(previous, replacements, j, h)
    ensures i == j && g == h
  {
    PassedBefore(previous, replacements, i, j);
    PassedBefore(previous, replacements, j, i);
  }

  lemma PassedBefore(previous: Nodes, replacements: seq<PlanNode>, i: nat, j: nat)
    requires i < |replacements| && j <= |replacements| && GatePassed(previous, replacements[..j])
    ensures i < j ==>
      replacements[i].nodeId in previous && ReplacementGate(replacements[i], previous[replacements[i].nodeId]).Ready?
  {
    assert i < j ==> replacements[..j][i] == replacements[i];
  }

  /** The replacement that decides is unique, and so is its reason. */
  lemma FirstBarredIsUnique(previous: Nodes, replacements: seq<PlanNode>, g: Outcome<()>)
    requires exists i: nat :: IsFirstBarred(previous, replacements, i, g)
    ensures g.Raised? <==> exists j: nat :: IsFirstBarred(previous, replacements, j, Raised)
  {
    var i: nat :| IsFirstBarred(previous, replacements, i, g);
    forall j: nat | IsFirstBarred(previous, replacements, j, Raised) ensures g.Raised? {
      BarredOnce(previous, replacements, i, g, j, Raised);
    }
  }

  lemma PassedIsNotBarred(previous: Nodes, replacements: seq<PlanNode>)
    requires GatePassed(previous, replacements)
    ensures forall i: nat, g :: !IsFirstBarred(previous, replacements, i, g)
  {
  }

  /** A plan of one node, n, and a signal that calls it into question. */
  function OneNode(risk: Risk): PlanNode {
    PlanNode("n", None, OtherAction("a"), "c", ["e"], ["s"], [], risk, true, NonProduction, 0.0, [])
  }

  function OneNodePlan(hash: PlanBody -> string): Plan {
    var body := PlanBody(PlanSchema, PlanReady, "o", "n", [OneNode(Low)], 1, 0, [["n"]], None, 0, LOCKED);
    Plan(body, hash(body))
  }

  function CallIntoQuestion(plan: Plan): ReplanSignal {
    ReplanSignal(plan.planDigest, EvidenceChanged, ["r"], [], true, true, true, Low, false)
  }

  /** Replacing the one node by itself with a risk of an unknown name ends in an exception, whatever the hash. */
  lemma UnknownRiskRaises(hash: PlanBody -> string)
    ensures
      var plan := OneNodePlan(hash);
      Raises(hash, plan, CallIntoQuestion(plan), [OneNode(OtherRisk("SEVERE"))])
  {
    var plan := OneNodePlan(hash);
    var replacements := [OneNode(OtherRisk("SEVERE"))];
    IndexOfKeys(plan.body.nodes);
    assert plan.body.nodes[0].nodeId == "n" && replacements[0].nodeId == "n";
    assert IndexUpTo(plan.body.nodes, 1)["n"] == OneNode(Low);
    assert NodeIds(replacements) == {"n"} == NodeIds(plan.body.nodes);
    assert RaisesAt(IndexOf(plan.body.nodes), replacements, 0);
  }

  /** Each replacement is judged in turn; the first complaint stops the replan. */
  method JudgeReplacements(previous: Nodes, replacements: seq<PlanNode>) returns (r: Outcome<()>)
    requires forall i :: 0 <= i < |replacements| ==> replacements[i].nodeId in previous
    ensures r.Ready? <==> GatePassed(previous, replacements)
    ensures !r.Ready? ==> exists i :: IsFirstBarred(previous, replacements, i, r)
  {
    for i := 0 to |replacements|
      invariant forall j :: 0 <= j < i ==> ReplacementGate(replacements[j], previous[replacements[j].nodeId]).Ready?
    {
      r := ReplacementGate(replacements[i], previous[replacements[i].nodeId]);
      if !r.Ready? {
        assert IsFirstBarred(previous, replacements, i, r);
        return;
      }
    }
    r := Ready(());
  }

  lemma {:induction false} IndexUpToKeys(rows: seq<PlanNode>, i: nat)
    requires i <= |rows|
    ensures IndexUpTo(rows, i).Keys == set j | 0 <= j < i :: rows[j].nodeId
    ensures forall id :: id in IndexUpTo(rows, i) ==> IndexUpTo(rows, i)[id].nodeId == id
  {
    if i == 0 {
    } else {
      IndexUpToKeys(rows, i - 1);
    }
  }

  lemma IndexOfKeys(rows: seq<PlanNode>)
    ensures IndexOf(rows).Keys == NodeIds(rows)
    ensures forall id :: id in IndexOf(rows) ==> IndexOf(rows)[id].nodeId == id
  {
    IndexUpToKeys(rows, |rows|);
  }

  /** The rows handed to the builder carry exactly the old ids, completed ones unchanged. */
  lemma CombinedIsReplan(hash: PlanBody -> string, plan: Plan, before: Nodes, completed: set<string>, ids: seq<string>,
                         replacements: seq<PlanNode>, next: Plan)
    requires ValidPlan(hash, plan) && before == IndexOf(plan.body.nodes)
    requires forall id :: id in before ==> before[id].nodeId == id
    requires completed <= before.Keys && forall id :: id in ids <==> id in completed
    requires NodeIds(replacements) == before.Keys - completed && GatePassed(before, replacements)
    requires Plannable(Kept(before, ids) + replacements)
    requires Describes(hash, next, plan.body.objectiveId, Kept(before, ids) + replacements,
                       Some(plan.planDigest), plan.body.replanCount + 1)
    ensures Replanned(hash, plan, completed, next)
  {
    var rows := Kept(before, ids) + replacements;
    CombinedKeepsNodes(before, completed, ids, replacements);
    ReplannedFrom(hash, plan, completed, next, rows);
  }

  lemma ReplannedFrom(hash: PlanBody -> string, plan: Plan, completed: set<string>, next: Plan, rows: seq<PlanNode>)
    requires ValidPlan(hash, plan) && Plannable(rows)
    requires Describes(hash, next, plan.body.objectiveId, rows, Some(plan.planDigest), plan.body.replanCount + 1)
    requires NoneWider(IndexOf(plan.body.nodes), IndexOf(rows))
    requires Untouched(IndexOf(plan.body.nodes), IndexOf(rows), completed)
    ensures Replanned(hash, plan, completed, next)
  {
    BuiltFromPermutation(hash, next, rows);
  }

  lemma ReplacementsStay(before: Nodes, ids: seq<string>, replacements: seq<PlanNode>, rows: seq<PlanNode>)
    requires forall id :: id in ids ==> id in before
    requires multiset(rows) == multiset(Kept(before, ids) + replacements)
    ensures forall i :: 0 <= i < |replacements| ==> replacements[i] in rows
  {
    var combined := Kept(before, ids) + replacements;
    SameMultisetSameElements(combined, rows);
    forall i | 0 <= i < |replacements| ensures replacements[i] in rows {
      assert combined[|ids| + i] == replacements[i];
    }
  }

  /** A plan described by some rows is described by its own list of them. */
  lemma BuiltFromPermutation(hash: PlanBody -> string, next: Plan, rows: seq<PlanNode>)
    requires Plannable(rows)
    requires Describes(hash, next, next.body.objectiveId, rows, next.body.parentPlanDigest, next.body.replanCount)
    ensures IndexOf(next.body.nodes) == IndexOf(rows) && Plannable(next.body.nodes)
    ensures Describes(hash, next, next.body.objectiveId, next.body.nodes, next.body.parentPlanDigest,
                      next.body.replanCount)
  {
    IndexOfPermutation(rows, next.body.nodes);
    SameMultisetSameElements(rows, next.body.nodes);
    PlannablePermutes(rows, next.body.nodes);
  }

  /** Where the row of a node is found among the rows handed to the builder. */
  lemma CombinedRow(before: Nodes, completed: set<string>, ids: seq<string>, replacements: seq<PlanNode>, id: string)
    returns (n: PlanNode)
    requires forall id :: id in ids <==> id in completed
    requires completed <= before.Keys && NodeIds(replacements) == before.Keys - completed
    requires GatePassed(before, replacements)
    requires id in before && before[id].nodeId == id
    ensures n in Kept(before, ids) + replacements && n.nodeId == id
    ensures NoWider(n, before[id]) && (id in completed ==> n == before[id])
  {
    if id in completed {
      assert id in ids;
      var i :| 0 <= i < |ids| && ids[i] == id;
      n := Kept(before, ids)[i];
    } else {
      assert id in NodeIds(replacements);
      var i :| 0 <= i < |replacements| && replacements[i].nodeId == id;
      n := replacements[i];
    }
  }

  lemma CombinedIds(before: Nodes, completed: set<string>, ids: seq<string>, replacements: seq<PlanNode>, n: PlanNode)
    requires forall id :: id in ids <==> id in completed
    requires completed <= before.Keys && NodeIds(replacements) == before.Keys - completed
    requires forall id :: id in before ==> before[id].nodeId == id
    requires n in Kept(before, ids) + replacements
    ensures n.nodeId in before
  {
    if n in replacements {
      assert n.nodeId in NodeIds(replacements);
    } else {
      var i :| 0 <= i < |ids| && Kept(before, ids)[i] == n;
      assert ids[i] in ids;
    }
  }

  lemma RowIndexed(rows: seq<PlanNode>, n: PlanNode)
    requires DistinctIds(rows) && n in rows
    ensures n.nodeId in IndexOf(rows) && IndexOf(rows)[n.nodeId] == n
  {
    IndexOfIndexes(rows);
  }

  lemma IndexedRow(rows: seq<PlanNode>, id: string)
    requires DistinctIds(rows) && id in IndexOf(rows)
    ensures IndexOf(rows)[id] in rows && IndexOf(rows)[id].nodeId == id
  {
    IndexOfIndexes(rows);
  }

  lemma CombinedKeepsNodes(before: Nodes, completed: set<string>, ids: seq<string>, replacements: seq<PlanNode>)
    requires completed <= before.Keys && forall id :: id in before ==> before[id].nodeId == id
    requires forall id :: id in ids <==> id in completed
    requires NodeIds(replacements) == before.Keys - completed
    requires GatePassed(before, replacements)
    requires DistinctIds(Kept(before, ids) + replacements)
    ensures NoneWider(before, IndexOf(Kept(before, ids) + replacements))
    ensures Untouched(before, IndexOf(Kept(before, ids) + replacements), completed)
  {
    var rows := Kept(before, ids) + replacements;
    var after := IndexOf(rows);
    forall id | id in before
      ensures id in after && NoWider(after[id], before[id]) && (id in completed ==> after[id] == before[id])
    {
      var n := CombinedRow(before, completed, ids, replacements, id);
      RowIndexed(rows, n);
    }
    forall id | id in after ensures id in before {
      IndexedRow(rows, id);
      CombinedIds(before, completed, ids, replacements, after[id]);
    }
  }

  lemma PlannablePermutes(rows: seq<PlanNode>, rows': seq<PlanNode>)
    requires Plannable(rows) && multiset(rows) == multiset(rows') && IndexOf(rows) == IndexOf(rows')
    requires DistinctIds(rows')
    ensures Plannable(rows')
  {
    SameMultisetSameElements(rows, rows');
    forall i | 0 <= i < |rows'| ensures InOrder(rows'[i]) && Unattended(rows'[i]) {
      assert rows'[i] in rows;
    }
  }

  // ---- Chains of replans -----------------------------------------------------------------

  /** A plan, the plan a replan made of it, and so on; `completed[i]` is what step `i` called completed. */
  ghost predicate ReplanChain(hash: PlanBody -> string, plans: seq<Plan>, completed: seq<set<string>>) {
    && |plans| == |completed| + 1
    && forall i :: 0 <= i < |completed| ==> Replanned(hash, plans[i], completed[i], plans[i + 1])
  }

  /** What one replan keeps. */
  ghost predicate StepKeeps(plan: Plan, completed: set<string>, next: Plan) {
    && next.body.objectiveId == plan.body.objectiveId
    && next.body.replanCount == plan.body.replanCount + 1
    && NoneWider(IndexOf(plan.body.nodes), IndexOf(next.body.nodes))
    && Untouched(IndexOf(plan.body.nodes), IndexOf(next.body.nodes), completed)
  }

  /** Step by step no node widens, so none widens over any number of steps. */
  lemma {:induction false} WidthOverSteps(maps: seq<Nodes>, completed: seq<set<string>>, i: nat, j: nat,
                                          done: set<string>)
    requires i <= j < |maps| && |maps| == |completed| + 1
    requires forall k :: i <= k < j ==> NoneWider(maps[k], maps[k + 1]) && Untouched(maps[k], maps[k + 1], completed[k])
    requires forall k :: i <= k < j ==> done <= completed[k]
    requires forall id :: id in maps[i] ==> maps[i][id].nodeId == id
    ensures NoneWider(maps[i], maps[j]) && Untouched(maps[i], maps[j], done)
    decreases j - i
  {
    if i == j {
    } else {
      var k := j - 1;
      WidthOverSteps(maps, completed, i, k, done);
      assert NoneWider(maps[k], maps[k + 1]) && Untouched(maps[k], maps[k + 1], completed[k]);
      WidthComposes(maps[i], maps[k], maps[j], done, completed[k]);
    }
  }

  lemma {:induction false} CountOverSteps(counts: seq<int>, i: nat, j: nat)
    requires i <= j < |counts|
    requires forall k :: i <= k < j ==> counts[k + 1] == counts[k] + 1
    ensures counts[j] == counts[i] + (j - i)
    decreases j - i
  {
    if i == j {
    } else {
      CountOverSteps(counts, i, j - 1);
      var k := j - 1;
      assert counts[k + 1] == counts[k] + 1;
    }
  }

  lemma {:induction false} NameOverSteps(names: seq<string>, i: nat, j: nat)
    requires i <= j < |names|
    requires forall k :: i <= k < j ==> names[k + 1] == names[k]
    ensures names[j] == names[i]
    decreases j - i
  {
    if i == j {
    } else {
      NameOverSteps(names, i, j - 1);
      var k := j - 1;
      assert names[k + 1] == names[k];
    }
  }

  /** Between any two plans of a chain: the same objective and nodes, none wider than it was, one
      replan counted per step, and a node that every step between called completed untouched. */
  lemma ChainNeverWidens(hash: PlanBody -> string, plans: seq<Plan>, completed: seq<set<string>>,
                         i: nat, j: nat, done: set<string>)
    requires ReplanChain(hash, plans, completed) && i <= j < |plans|
    requires forall k :: i <= k < j ==> done <= completed[k]
    ensures plans[j].body.objectiveId == plans[i].body.objectiveId
    ensures plans[j].body.replanCount == plans[i].body.replanCount + (j - i)
    ensures NoneWider(IndexOf(plans[i].body.nodes), IndexOf(plans[j].body.nodes))
    ensures Untouched(IndexOf(plans[i].body.nodes), IndexOf(plans[j].body.nodes), done)
  {
    var maps := seq(|plans|, k requires 0 <= k < |plans| => IndexOf(plans[k].body.nodes));
    var counts := seq(|plans|, k requires 0 <= k < |plans| => plans[k].body.replanCount);
    var names := seq(|plans|, k requires 0 <= k < |plans| => plans[k].body.objectiveId);
    IndexOfKeys(plans[i].body.nodes);
    forall k | i <= k < j
      ensures NoneWider(maps[k], maps[k + 1]) && Untouched(maps[k], maps[k + 1], completed[k])
      ensures counts[k + 1] == counts[k] + 1 && names[k + 1] == names[k]
    {
      StepOfChain(hash, plans, completed, k);
    }
    WidthOverSteps(maps, completed, i, j, done);
    CountOverSteps(counts, i, j);
    NameOverSteps(names, i, j);
  }

  lemma StepOfChain(hash: PlanBody -> string, plans: seq<Plan>, completed: seq<set<string>>, k: nat)
    requires ReplanChain(hash, plans, completed) && k < |completed|
    ensures StepKeeps(plans[k], completed[k], plans[k + 1])
  {
    assert Replanned(hash, plans[k], completed[k], plans[k + 1]);
  }

  lemma WidthComposes(a: Nodes, b: Nodes, c: Nodes, done: set<string>, completed: set<string>)
    requires NoneWider(a, b) && NoneWider(b, c)
    requires Untouched(a, b, done) && Untouched(b, c, completed) && done <= completed
    ensures NoneWider(a, c) && Untouched(a, c, done)
  {
    forall id | id in a ensures NoWider(c[id], a[id]) {
      NoWiderTransitive(c[id], b[id], a[id]);
    }
  }

  /** Every plan after the first names its predecessor and is an accepted plan of its own, its guards
      intact and its first wave the root alone. */
  lemma ChainStepsAreAccepted(hash: PlanBody -> string, plans: seq<Plan>, completed: seq<set<string>>, j: nat)
    requires ReplanChain(hash, plans, completed) && 0 < j < |plans|
    ensures plans[j].body.parentPlanDigest == Some(plans[j - 1].planDigest)
    ensures Plannable(plans[j].body.nodes) && plans[j].body.guards == LOCKED
    ensures |plans[j].body.waves| > 0 && plans[j].body.waves[0] == [plans[j].body.rootNodeId]
    ensures IsWavePlan(IndexOf(plans[j].body.nodes), plans[j].body.waves)
  {
    assert Replanned(hash, plans[j - 1], completed[j - 1], plans[j - 1 + 1]);
    AcceptedPlanShape(hash, plans[j], plans[j].body.nodes);
  }
}
