/** Building a bounded plan from its nodes, and what the two graph passes together guarantee. */
module HierarchicalPlanner {
  import opened Prelude
  import opened PlanNodes
  import opened ParentGraph
  import opened DependencyWaves

  const MAX_AUTONOMOUS_UNCERTAINTY: real := 0.60

  datatype Authority = NoAuthority | PreparePr | HumanOnly | Disabled | Forbidden | OtherAuthority(text: string)

  /** The fields a plan must carry unweakened. */
  datatype Guards = Guards(
    executionAuthority: Authority,
    executionPerformed: bool,
    autonomousCeiling: Authority,
    productionAuthority: Authority,
    protectedMainMerge: Authority,
    authorityWidening: Authority,
    selfApproval: Authority)

  const LOCKED: Guards := Guards(NoAuthority, false, PreparePr, HumanOnly, HumanOnly, Disabled, Forbidden)

  datatype Schema = PlanSchema | OtherSchema(text: string)

  datatype Status = PlanReady | OtherStatus(text: string)

  datatype PlanBody = PlanBody(
    schema: Schema,
    status: Status,
    objectiveId: string,
    rootNodeId: string,
    nodes: seq<PlanNode>,
    nodeCount: nat,
    maxDepth: nat,
    waves: seq<seq<string>>,
    parentPlanDigest: Option<string>,
    replanCount: int,
    guards: Guards)

  datatype Plan = Plan(body: PlanBody, planDigest: string)

  datatype StopReason =
    | ObjectiveIdRequired | ReplanCountInvalid | Rejected(error: PlanError)
    | HumanOnlyAction | ProductionNode | UnknownEnvironment | HighRiskNode | ReversibilityRequired | UncertaintyReview
    | ValidPlanRequired | SourceDigestMismatch | UnknownTrigger | TriggerEvidenceRequired | EvidenceStale
    | ReplanRiskInvalid | ReplanHumanBoundary | AuthorityChange | ScopeChange | UnknownCompletedNode
    | DuplicateReplacement | MustReplaceExactMutableSet | ScopeWidening | RiskWidening | EnvironmentChange

  /** `Raised` is an exception the caller sees: an unknown risk name has no rank. */
  datatype Outcome<+T> = Ready(value: T) | Hold(reason: StopReason) | HumanGate(reason: StopReason) | Raised

  /** A node that needs no human: its action is not reserved, it is non-production, not of high risk, reversible, and
      certain enough. */
  predicate Unattended(n: PlanNode) {
    && n.action.OtherAction? && n.environment == NonProduction && n.risk != High && n.reversible
    && n.uncertainty <= 0.60
  }

  /** What each objection to a node is about. */
  predicate Objection(n: PlanNode, reason: StopReason) {
    match reason
    case HumanOnlyAction => n.action.ReservedForHumans?
    case ProductionNode => n.environment == Production
    case UnknownEnvironment => n.environment.OtherEnvironment?
    case HighRiskNode => n.risk == High
    case ReversibilityRequired => !n.reversible
    case UncertaintyReview => 0.60 < n.uncertainty
    case _ => false
  }

  /** The order in which objections are raised. */
  function Turn(reason: StopReason): nat {
    match reason
    case HumanOnlyAction => 0
    case ProductionNode => 1
    case UnknownEnvironment => 2
    case HighRiskNode => 3
    case ReversibilityRequired => 4
    case _ => 5
  }

  /** The first objection to the node; four of them call a human, the other two hold. */
  ghost predicate FirstObjection<T>(n: PlanNode, r: Outcome<T>) {
    && (r.Hold? || r.HumanGate?)
    && Objection(n, r.reason) && (forall other :: Objection(n, other) ==> Turn(r.reason) <= Turn(other))
    && (r.Hold? <==> r.reason == UnknownEnvironment || r.reason == ReversibilityRequired)
  }

  /** What the authority gate says about one node: `Ready(())` lets it pass. */
  function NodeGate(n: PlanNode): (r: Outcome<()>)
    ensures r.Ready? <==> Unattended(n)
    ensures !r.Ready? ==> FirstObjection(n, r)
  {
    if n.action.ReservedForHumans? then HumanGate(HumanOnlyAction)
    else if n.environment.Production? then HumanGate(ProductionNode)
    else if !n.environment.NonProduction? then Hold(UnknownEnvironment)
    else if n.risk.High? then HumanGate(HighRiskNode)
    else if !n.reversible then Hold(ReversibilityRequired)
    else if n.uncertainty > MAX_AUTONOMOUS_UNCERTAINTY then HumanGate(UncertaintyReview)
    else Ready(())
  }

  /** The first node with a complaint decides. */
  function AuthorityGate(rows: seq<PlanNode>): Outcome<()> {
    if rows == [] then Ready(())
    else if NodeGate(rows[0]).Ready? then AuthorityGate(rows[1..])
    else NodeGate(rows[0])
  }

  lemma {:induction false} GateReadyIffAllPass(rows: seq<PlanNode>)
    ensures AuthorityGate(rows).Ready? <==> forall i :: 0 <= i < |rows| ==> Unattended(rows[i])
  {
    if rows == [] {
    } else {
      GateReadyIffAllPass(rows[1..]);
      assert forall i :: 0 <= i < |rows| - 1 ==> rows[1..][i] == rows[i + 1];
    }
  }

  predicate ById(a: PlanNode, b: PlanNode) {
    StrLe(a.nodeId, b.nodeId)
  }

  /** The dictionary of the first `i` rows; of two rows with one id the later wins. */
  function IndexUpTo(rows: seq<PlanNode>, i: nat): Nodes
    requires i <= |rows|
  {
    if i == 0 then map[] else IndexUpTo(rows, i - 1)[rows[i - 1].nodeId := rows[i - 1]]
  }

  function IndexOf(rows: seq<PlanNode>): Nodes {
    IndexUpTo(rows, |rows|)
  }

  lemma {:induction false} IndexUpToIndexes(rows: seq<PlanNode>, i: nat)
    requires DistinctIds(rows) && i <= |rows|
    ensures IndexesTo(rows, i, IndexUpTo(rows, i))
  {
    if i == 0 {
    } else {
      IndexUpToIndexes(rows, i - 1);
      IndexesNext(rows, i - 1, IndexUpTo(rows, i - 1));
    }
  }

  lemma IndexOfIndexes(rows: seq<PlanNode>)
    requires DistinctIds(rows)
    ensures Indexes(rows, IndexOf(rows))
  {
    IndexUpToIndexes(rows, |rows|);
    IndexesToAll(rows, IndexOf(rows));
  }

  lemma IndexesUnique(rows: seq<PlanNode>, a: Nodes, b: Nodes)
    requires Indexes(rows, a) && Indexes(rows, b)
    ensures a == b
  {
    forall k | k in a ensures k in b && b[k] == a[k] {
      assert a[k] in rows;
    }
    forall k | k in b ensures k in a {
      assert b[k] in rows;
    }
  }

  /** The same rows in another order make the same dictionary. */
  lemma IndexOfPermutation(rows: seq<PlanNode>, rows': seq<PlanNode>)
    requires multiset(rows) == multiset(rows') && DistinctIds(rows)
    ensures DistinctIds(rows') && IndexOf(rows') == IndexOf(rows)
  {
    SameMultisetSameElements(rows, rows');
    assert Distinct(rows);
    DistinctByMultiset(rows, rows');
    forall i, j | 0 <= i < j < |rows'| ensures rows'[i].nodeId != rows'[j].nodeId {
      assert rows'[i] in rows && rows'[j] in rows;
    }
    IndexOfIndexes(rows);
    IndexOfIndexes(rows');
    forall k | k in IndexOf(rows) ensures k in IndexOf(rows') && IndexOf(rows')[k] == IndexOf(rows)[k] {
      assert IndexOf(rows)[k] in rows';
    }
    forall k | k in IndexOf(rows') ensures k in IndexOf(rows) {
      assert IndexOf(rows')[k] in rows;
    }
  }

  /** Sound rows, one bounded tree, sound acyclic dependencies. */
  ghost predicate GraphsHold(rows: seq<PlanNode>) {
    && Indexable(rows)
    && (exists root :: IsBoundedTree(IndexOf(rows), root))
    && WellLinked(IndexOf(rows)) && !Cyclic(IndexOf(rows))
  }

  /** Why the graph passes turn rows away: the first pass that fails decides, and within it the first row that
      has a fault. */
  ghost predicate GraphFault(rows: seq<PlanNode>, e: PlanError) {
    var nodes := IndexOf(rows);
    if !Indexable(rows) then IndexFault(rows, e)
    else if !(exists root :: IsBoundedTree(nodes, root)) then TreeFault(rows, nodes, e)
    else if !WellLinked(nodes) then exists i :: FirstUnlinked(rows, nodes, i, e)
    else Cyclic(nodes) && e == DependencyCycle
  }

  /** Rows are turned away for one error only, and only if a pass fails. */
  lemma GraphFaultUnique(rows: seq<PlanNode>, e: PlanError, e': PlanError)
    requires GraphFault(rows, e) && GraphFault(rows, e')
    ensures e == e' && !GraphsHold(rows)
  {
    if !Indexable(rows) {
      IndexFaultUnique(rows, e, e');
    } else if !(exists root :: IsBoundedTree(IndexOf(rows), root)) {
      TreeFaultUnique(rows, IndexOf(rows), e, e');
    }
  }

  /** The nodes make a plan, and none of them needs a human. */
  ghost predicate Plannable(rows: seq<PlanNode>) {
    && GraphsHold(rows)
    && forall i :: 0 <= i < |rows| ==> Unattended(rows[i])
  }

  /** The deepest node is `d` links below the root. */
  ghost predicate DeepestIs(nodes: Nodes, root: string, d: nat) {
    && (exists id :: Climbs(nodes, id, d, root))
    && forall id, e: nat :: Climbs(nodes, id, e, root) ==> e <= d
  }

  /** `plan` is the finished plan of these rows. */
  ghost predicate Describes(hash: PlanBody -> string, plan: Plan, objectiveId: string, rows: seq<PlanNode>,
                            parentPlanDigest: Option<string>, replanCount: int) {
    var body, nodes := plan.body, IndexOf(rows);
    && body.schema == PlanSchema && body.status == PlanReady && body.guards == LOCKED
    && body.objectiveId == objectiveId && body.parentPlanDigest == parentPlanDigest && body.replanCount == replanCount
    && multiset(body.nodes) == multiset(rows) && SortedBy(ById, body.nodes) && body.nodeCount == |rows|
    && IsBoundedTree(nodes, body.rootNodeId) && DeepestIs(nodes, body.rootNodeId, body.maxDepth)
    && IsWavePlan(nodes, body.waves)
    && plan.planDigest == hash(body)
  }

  method MaxDepthOf(depths: map<string, nat>) returns (m: nat)
    requires depths != map[]
    ensures exists id :: id in depths && depths[id] == m
    ensures forall id :: id in depths ==> depths[id] <= m
  {
    var rest := depths.Keys;
    var first :| first in depths;
    m := depths[first];
    while rest != {}
      invariant rest <= depths.Keys
      invariant exists id :: id in depths && depths[id] == m
      invariant forall id :: id in depths && id !in rest ==> depths[id] <= m
      decreases rest
    {
      var id :| id in rest;
      if depths[id] > m {
        m := depths[id];
      }
      rest := rest - {id};
    }
  }

  /** The two graph passes, run over indexed rows. */
  method CheckGraphs(rows: seq<PlanNode>)
    returns (r: Result<(string, nat, seq<seq<string>>), PlanError>)
    ensures r.Ok? <==> GraphsHold(rows)
    ensures r.Ok? ==>
      && IsBoundedTree(IndexOf(rows), r.value.0) && DeepestIs(IndexOf(rows), r.value.0, r.value.1)
      && IsWavePlan(IndexOf(rows), r.value.2)
    ensures r.Err? ==> GraphFault(rows, r.error)
  {
    var indexed := IndexNodes(rows);
    if indexed.Err? {
      return Err(indexed.error);
    }
    var nodes := indexed.value;
    IndexOfIndexes(rows);
    IndexesUnique(rows, nodes, IndexOf(rows));
    var tree := ValidateParentGraph(rows, nodes);
    if tree.Err? {
      return Err(tree.error);
    }
    var waves := ValidateDependencies(rows, nodes);
    if waves.Err? {
      return Err(waves.error);
    }
    var maxDepth := MaxDepthOf(tree.value.1);
    DeepestFromTable(nodes, tree.value.0, tree.value.1, maxDepth);
    r := Ok((tree.value.0, maxDepth, waves.value));
  }

  /** What a request that makes no plan is answered with: objective, count, graph passes and authority gate are
      looked at in that order, and the gate answers for the first node that does not pass. */
  ghost predicate Stopped(objectiveId: string, rows: seq<PlanNode>, replanCount: int, r: Outcome<Plan>) {
    if Blank(objectiveId) then r == Hold(ObjectiveIdRequired)
    else if replanCount < 0 then r == Hold(ReplanCountInvalid)
    else if !GraphsHold(rows) then r.Hold? && r.reason.Rejected? && GraphFault(rows, r.reason.error)
    else exists i :: FirstGated(rows, i, r)
  }

  ghost predicate FirstGated<T>(rows: seq<PlanNode>, i: nat, r: Outcome<T>) {
    && i < |rows| && (forall j :: 0 <= j < i ==> Unattended(rows[j]))
    && !Unattended(rows[i]) && FirstObjection(rows[i], r)
  }

  method BuildPlan(hash: PlanBody -> string, objectiveId: string, rows: seq<PlanNode>,
                   parentPlanDigest: Option<string>, replanCount: int)
    returns (r: Outcome<Plan>)
    ensures r.Ready? <==> !Blank(objectiveId) && replanCount >= 0 && Plannable(rows)
    ensures r.Ready? ==> Describes(hash, r.value, objectiveId, rows, parentPlanDigest, replanCount)
    ensures !r.Ready? ==> Stopped(objectiveId, rows, replanCount, r)
  {
    if Blank(objectiveId) {
      return Hold(ObjectiveIdRequired);
    }
    if replanCount < 0 {
      return Hold(ReplanCountInvalid);
    }
    var graphs := CheckGraphs(rows);
    if graphs.Err? {
      return Hold(Rejected(graphs.error));
    }
    var gate := AuthorityGate(rows);
    GateOnGraphs(rows);
    if !gate.Ready? {
      r := if gate.Hold? then Hold(gate.reason) else HumanGate(gate.reason);
      GateStops(objectiveId, rows, replanCount, r);
      return;
    }
    ByIdIsTotalPreorder();
    SortBySorts(rows, ById);
    var (root, maxDepth, waves) := graphs.value;
    var body := PlanBody(PlanSchema, PlanReady, objectiveId, root, SortBy(rows, ById), |rows|, maxDepth,
                         waves, parentPlanDigest, replanCount, LOCKED);
    r := Ready(Plan(body, hash(body)));
  }

  lemma ByIdIsTotalPreorder()
    ensures TotalPreorder(ById)
  {
    StrLeIsTotalPreorder();
  }

  lemma {:induction false} GateBlames(rows: seq<PlanNode>) returns (i: nat)
    requires !AuthorityGate(rows).Ready?
    ensures FirstGated(rows, i, AuthorityGate(rows))
  {
    if NodeGate(rows[0]).Ready? {
      var k := GateBlames(rows[1..]);
      i := k + 1;
      assert rows[i] == rows[1..][k];
      assert forall j :: 0 < j < i ==> rows[j] == rows[1..][j - 1];
    } else {
      i := 0;
    }
  }

  lemma GateOnGraphs(rows: seq<PlanNode>)
    requires GraphsHold(rows)
    ensures AuthorityGate(rows).Ready? <==> Plannable(rows)
    ensures AuthorityGate(rows).Ready? || AuthorityGate(rows).Hold? || AuthorityGate(rows).HumanGate?
  {
    GateReadyIffAllPass(rows);
    if !AuthorityGate(rows).Ready? {
      var i := GateBlames(rows);
    }
  }

  lemma GateStops(objectiveId: string, rows: seq<PlanNode>, replanCount: int, r: Outcome<Plan>)
    requires !Blank(objectiveId) && replanCount >= 0 && GraphsHold(rows)
    requires match AuthorityGate(rows)
             case Hold(reason) => r == Hold(reason)
             case HumanGate(reason) => r == HumanGate(reason)
             case _ => false
    ensures Stopped(objectiveId, rows, replanCount, r)
  {
    var i := GateBlames(rows);
    assert FirstGated(rows, i, r);
  }

  lemma DeepestFromTable(nodes: Nodes, root: string, depths: map<string, nat>, m: nat)
    requires IsRoot(nodes, root) && depths.Keys == nodes.Keys
    requires forall id :: id in nodes ==> Climbs(nodes, id, depths[id], root)
    requires exists id :: id in depths && depths[id] == m
    requires forall id :: id in depths ==> depths[id] <= m
    ensures DeepestIs(nodes, root, m)
  {
    forall id, e: nat | Climbs(nodes, id, e, root) ensures e <= m {
      ClimbEndsAtTop(nodes, id, depths[id], root, e, root);
    }
  }

  // ---- What the two passes say together --------------------------------------------------

  /** A climb of `d` parent links is a dependency path of `d` edges from the ancestor down. */
  lemma {:induction false} ClimbIsDependencyPath(nodes: Nodes, id: string, d: nat, a: string) returns (p: seq<string>)
    requires WellLinked(nodes) && Climbs(nodes, id, d, a)
    ensures PathTo(nodes, p, id) && |p| == d + 1 && p[0] == a
    decreases d
  {
    if d == 0 {
      p := [id];
    } else {
      var q := ClimbIsDependencyPath(nodes, nodes[id].parentId.value, d - 1, a);
      PathAppend(nodes, q, id);
      p := q + [id];
    }
  }

  /** No node's depth exceeds the number of its wave. */
  lemma DepthWithinWave(nodes: Nodes, root: string, waves: seq<seq<string>>, k: nat, i: nat, d: nat)
    requires WellLinked(nodes) && IsWavePlan(nodes, waves)
    requires k < |waves| && i < |waves[k]| && Climbs(nodes, waves[k][i], d, root)
    ensures d <= k
  {
    var p := ClimbIsDependencyPath(nodes, waves[k][i], d, root);
    assert LongestPath(nodes, waves[k][i], k);
  }

  /** The first wave is the root and nothing else: whatever the root waited for would wait for the root. */
  lemma FirstWaveIsRoot(nodes: Nodes, root: string, waves: seq<seq<string>>)
    requires WellLinked(nodes) && !Cyclic(nodes) && IsBoundedTree(nodes, root) && IsWavePlan(nodes, waves)
    ensures |waves| > 0 && waves[0] == [root]
  {
    RootWaveIsFirst(nodes, root, waves);
    forall j | 0 <= j < |waves[0]| ensures waves[0][j] == root {
      WaveZeroIsRoot(nodes, root, waves, j);
    }
    FlattenDistinctWave(waves, 0);
    AllOneElement(waves[0], root);
  }

  lemma AllOneElement<T>(s: seq<T>, x: T)
    requires x in s && forall j :: 0 <= j < |s| ==> s[j] == x
    ensures Distinct(s) ==> s == [x]
  {
    if |s| > 1 {
      assert s[0] == s[1];
    }
  }

  lemma RootWaveIsFirst(nodes: Nodes, root: string, waves: seq<seq<string>>)
    requires WellLinked(nodes) && !Cyclic(nodes) && IsBoundedTree(nodes, root) && IsWavePlan(nodes, waves)
    ensures |waves| > 0 && root in waves[0]
  {
    assert root in Flatten(waves);
    var k, i := FlattenFinds(waves, root);
    RootWaitsForNothing(nodes, root);
    OnlyPathWithoutDependencies(nodes, root, k) by {
      assert LongestPath(nodes, waves[k][i], k);
    }
  }

  lemma WaveZeroIsRoot(nodes: Nodes, root: string, waves: seq<seq<string>>, j: nat)
    requires WellLinked(nodes) && IsBoundedTree(nodes, root) && IsWavePlan(nodes, waves)
    requires 0 < |waves| && j < |waves[0]|
    ensures waves[0][j] == root
  {
    FlattenHas(waves, 0, j);
    var d :| 0 <= d <= MAX_DEPTH && Climbs(nodes, waves[0][j], d, root);
    DepthWithinWave(nodes, root, waves, 0, j, d);
  }

  lemma OnlyPathWithoutDependencies(nodes: Nodes, id: string, k: nat)
    requires id in nodes && nodes[id].dependencies == [] && LongestPath(nodes, id, k)
    ensures k == 0
  {
    var p :| PathTo(nodes, p, id) && |p| == k + 1;
    assert k > 0 ==> DependsOn(nodes, p[k], p[k - 1]);
  }

  lemma RootWaitsForNothing(nodes: Nodes, root: string)
    requires WellLinked(nodes) && !Cyclic(nodes) && IsBoundedTree(nodes, root)
    ensures nodes[root].dependencies == []
  {
    if nodes[root].dependencies != [] {
      var d := nodes[root].dependencies[0];
      assert d in nodes[root].dependencies && DependsOn(nodes, root, d);
      var k :| 0 <= k <= MAX_DEPTH && Climbs(nodes, d, k, root);
      var p := ClimbIsDependencyPath(nodes, d, k, root);
      PathAppend(nodes, p, root);
      CycleClosed(nodes, p + [root], |p|);
    }
  }

  lemma {:induction false} FlattenFinds(waves: seq<seq<string>>, id: string) returns (k: nat, i: nat)
    requires id in Flatten(waves)
    ensures k < |waves| && i < |waves[k]| && waves[k][i] == id
  {
    var last := |waves| - 1;
    if id in waves[last] {
      i :| 0 <= i < |waves[last]| && waves[last][i] == id;
      k := last;
    } else {
      k, i := FlattenFinds(waves[..last], id);
    }
  }

  lemma {:induction false} FlattenHas(waves: seq<seq<string>>, k: nat, i: nat)
    requires k < |waves| && i < |waves[k]|
    ensures waves[k][i] in Flatten(waves)
  {
    if k < |waves| - 1 {
      FlattenHas(waves[..|waves| - 1], k, i);
    }
  }

  lemma {:induction false} FlattenDistinctWave(waves: seq<seq<string>>, k: nat)
    requires k < |waves| && Distinct(Flatten(waves))
    ensures Distinct(waves[k])
  {
    var init, last := Flatten(waves[..|waves| - 1]), waves[|waves| - 1];
    assert Distinct(init) by {
      assert forall i :: 0 <= i < |init| ==> init[i] == Flatten(waves)[i];
    }
    assert Distinct(last) by {
      assert forall i :: 0 <= i < |last| ==> last[i] == Flatten(waves)[|init| + i];
    }
    if k < |waves| - 1 {
      FlattenDistinctWave(waves[..|waves| - 1], k);
    }
  }

  /** An accepted plan starts with its root alone, and no node sits deeper than its wave number. */
  lemma AcceptedPlanShape(hash: PlanBody -> string, plan: Plan, rows: seq<PlanNode>)
    requires Plannable(rows)
    requires Describes(hash, plan, plan.body.objectiveId, rows, plan.body.parentPlanDigest, plan.body.replanCount)
    ensures |plan.body.waves| > 0 && plan.body.waves[0] == [plan.body.rootNodeId]
    ensures plan.body.maxDepth <= MAX_DEPTH && plan.body.maxDepth < |plan.body.waves| <= |rows| <= MAX_NODES
    ensures forall k, i, d: nat | 0 <= k < |plan.body.waves| && 0 <= i < |plan.body.waves[k]| ::
      (Climbs(IndexOf(rows), plan.body.waves[k][i], d, plan.body.rootNodeId) ==> d <= k)
  {
    var nodes, root, waves := IndexOf(rows), plan.body.rootNodeId, plan.body.waves;
    FirstWaveIsRoot(nodes, root, waves);
    forall k, i, d: nat | 0 <= k < |waves| && 0 <= i < |waves[k]| && Climbs(nodes, waves[k][i], d, root)
      ensures d <= k
    {
      DepthWithinWave(nodes, root, waves, k, i, d);
    }
    var id :| Climbs(nodes, id, plan.body.maxDepth, root);
    var k, i := FlattenFinds(waves, id);
    var e :| 0 <= e <= MAX_DEPTH && Climbs(nodes, id, e, root);
    ClimbEndsAtTop(nodes, id, e, root, plan.body.maxDepth, root);
    IndexOfIndexes(rows);
    WavesFit(waves);
    DistinctFits(Flatten(waves), nodes.Keys);
  }

  lemma {:induction false} WavesFit(waves: seq<seq<string>>)
    requires forall k :: 0 <= k < |waves| ==> waves[k] != []
    ensures |waves| <= |Flatten(waves)|
  {
    if waves == [] {
    } else {
      WavesFit(waves[..|waves| - 1]);
    }
  }
}
