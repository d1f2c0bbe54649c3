/** Plan nodes and the index the planner's graph passes share. */
module PlanNodes {
  import opened Prelude

  const MAX_NODES: nat := 64
  const MAX_DEPTH: nat := 5

  /** What makes a plan's nodes unacceptable, in the order the passes check it. */
  datatype PlanError =
    | PlanNodesRequired | PlanNodeBudgetExceeded | BadNode(why: NodeError) | DuplicateNodeId
    | SingleRootRequired | ParentCycle | UnknownParent | PlanDepthBudgetExceeded
    | UnknownDependency | ParentDependencyRequired | DependencyCycle

  datatype NodeError =
    | NodeIdRequired | ActionOrCapabilityRequired | EvidenceRequired | SuccessCriteriaRequired
    | RiskInvalid | UncertaintyOutOfRange | DuplicateDependency | SelfDependency

  /** The action names no autonomous plan may contain. */
  datatype HumanOnly =
    | ProductionRelease | ProtectedMainMerge | ProductionDataMutation | AuthorityWidening | AuthSecurityPolicyChange
    | DataDeletion | CustomerCommitment | BidSubmission | PricingCommitment | ContractCommitment | FinancialCommitment

  /** An action id: one of the reserved names, or any other text. */
  datatype Action = ReservedForHumans(which: HumanOnly) | OtherAction(text: string)

  datatype Risk = Low | Medium | High | OtherRisk(text: string)

  datatype Environment = NonProduction | Production | OtherEnvironment(text: string)

  datatype PlanNode = PlanNode(
    nodeId: string,
    parentId: Option<string>,
    action: Action,
    capabilityId: string,
    evidenceIds: seq<string>,
    successCriteria: seq<string>,
    dependencies: seq<string>,
    risk: Risk,
    reversible: bool,
    environment: Environment,
    uncertainty: real,
    assumptions: seq<string>)

  /** The planner's dictionary of nodes. Its insertion order is the order of the rows. */
  type Nodes = map<string, PlanNode>

  predicate AnyBlank(texts: seq<string>) {
    texts != [] && (Blank(texts[0]) || AnyBlank(texts[1..]))
  }

  predicate HasRepeat(texts: seq<string>) {
    texts != [] && (texts[0] in texts[1..] || HasRepeat(texts[1..]))
  }

  predicate BlankAction(a: Action) {
    a.OtherAction? && Blank(a.text)
  }

  /** There are texts, and none of them is blank. */
  predicate AllStated(texts: seq<string>) {
    texts != [] && forall i :: 0 <= i < |texts| ==> !Blank(texts[i])
  }

  lemma {:induction false} AnyBlankFinds(texts: seq<string>)
    ensures AnyBlank(texts) <==> exists i :: 0 <= i < |texts| && Blank(texts[i])
  {
    if texts == [] {
    } else {
      AnyBlankFinds(texts[1..]);
      if i :| 0 <= i < |texts| && Blank(texts[i]) {
        assert i > 0 ==> texts[1..][i - 1] == texts[i];
      }
    }
  }

  lemma {:induction false} HasRepeatFinds(texts: seq<string>)
    ensures !HasRepeat(texts) <==> Distinct(texts)
  {
    if texts == [] {
    } else {
      HasRepeatFinds(texts[1..]);
      if Distinct(texts) {
        assert Distinct(texts[1..]);
        assert texts[0] !in texts[1..];
      } else if texts[0] !in texts[1..] {
        var i, j :| 0 <= i < j < |texts| && texts[i] == texts[j];
        assert texts[1..][j - 1] == texts[j];
        assert i > 0 && texts[1..][i - 1] == texts[i];
      }
    }
  }

  /** A node in order: named, with a stated action and capability, evidence and success criteria, a known risk, an
      uncertainty between nought and one, and dependencies that are distinct and not itself. */
  ghost predicate InOrder(n: PlanNode) {
    && !Blank(n.nodeId) && (n.action.OtherAction? ==> !Blank(n.action.text)) && !Blank(n.capabilityId)
    && AllStated(n.evidenceIds) && AllStated(n.successCriteria)
    && (n.risk == Low || n.risk == Medium || n.risk == High) && 0.0 <= n.uncertainty && n.uncertainty <= 1.0
    && Distinct(n.dependencies) && n.nodeId !in n.dependencies
  }

  /** What each complaint is about. */
  ghost predicate Wrong(n: PlanNode, why: NodeError) {
    match why
    case NodeIdRequired => Blank(n.nodeId)
    case ActionOrCapabilityRequired => (n.action.OtherAction? && Blank(n.action.text)) || Blank(n.capabilityId)
    case EvidenceRequired => !AllStated(n.evidenceIds)
    case SuccessCriteriaRequired => !AllStated(n.successCriteria)
    case RiskInvalid => n.risk != Low && n.risk != Medium && n.risk != High
    case UncertaintyOutOfRange => n.uncertainty < 0.0 || 1.0 < n.uncertainty
    case DuplicateDependency => !Distinct(n.dependencies)
    case SelfDependency => n.nodeId in n.dependencies
  }

  /** The order in which complaints are raised. */
  function Place(why: NodeError): nat {
    match why
    case NodeIdRequired => 0
    case ActionOrCapabilityRequired => 1
    case EvidenceRequired => 2
    case SuccessCriteriaRequired => 3
    case RiskInvalid => 4
    case UncertaintyOutOfRange => 5
    case DuplicateDependency => 6
    case SelfDependency => 7
  }

  ghost predicate FirstWrong(n: PlanNode, why: NodeError) {
    Wrong(n, why) && forall other :: Wrong(n, other) ==> Place(why) <= Place(other)
  }

  /** The first complaint a node raises about itself, if any. */
  function BasicError(n: PlanNode): (e: Option<NodeError>)
    ensures e.None? <==> InOrder(n)
    ensures e.Some? ==> FirstWrong(n, e.value)
  {
    AnyBlankFinds(n.evidenceIds);
    AnyBlankFinds(n.successCriteria);
    HasRepeatFinds(n.dependencies);
    if Blank(n.nodeId) then Some(NodeIdRequired)
    else if BlankAction(n.action) || Blank(n.capabilityId) then Some(ActionOrCapabilityRequired)
    else if n.evidenceIds == [] || AnyBlank(n.evidenceIds) then Some(EvidenceRequired)
    else if n.successCriteria == [] || AnyBlank(n.successCriteria) then Some(SuccessCriteriaRequired)
    else if n.risk.OtherRisk? then Some(RiskInvalid)
    else if !(0.0 <= n.uncertainty <= 1.0) then Some(UncertaintyOutOfRange)
    else if HasRepeat(n.dependencies) then Some(DuplicateDependency)
    else if n.nodeId in n.dependencies then Some(SelfDependency)
    else None
  }

  ghost predicate DistinctIds(rows: seq<PlanNode>) {
    forall i, j :: 0 <= i < j < |rows| ==> rows[i].nodeId != rows[j].nodeId
  }

  /** Every row is found under its id. */
  ghost predicate RowsIn(rows: seq<PlanNode>, nodes: Nodes) {
    && DistinctIds(rows)
    && forall i :: 0 <= i < |rows| ==> rows[i].nodeId in nodes && nodes[rows[i].nodeId] == rows[i]
  }

  /** `nodes` is the dictionary whose values, in insertion order, are `rows`. */
  ghost predicate Indexes(rows: seq<PlanNode>, nodes: Nodes) {
    && RowsIn(rows, nodes)
    && |nodes| == |rows|
    && (forall k :: k in nodes ==> nodes[k] in rows && nodes[k].nodeId == k)
  }

  /** `m` files the first `i` values under their keys, and nothing else. */
  ghost predicate Files<K, V>(keys: seq<K>, values: seq<V>, i: nat, m: map<K, V>)
    requires i <= |keys| == |values|
  {
    && |m| == i
    && (forall a, b :: 0 <= a < b < i ==> keys[a] != keys[b])
    && (forall a :: 0 <= a < i ==> keys[a] in m && m[keys[a]] == values[a])
    && (forall k :: k in m ==> k in keys[..i])
  }

  function Keys(rows: seq<PlanNode>): (keys: seq<string>)
    ensures |keys| == |rows| && forall a :: 0 <= a < |rows| ==> keys[a] == rows[a].nodeId
  {
    seq(|rows|, a requires 0 <= a < |rows| => rows[a].nodeId)
  }

  /** The dictionary when the first `i` rows have been read. */
  ghost predicate IndexesTo(rows: seq<PlanNode>, i: nat, nodes: Nodes)
    requires i <= |rows|
  {
    Files(Keys(rows), rows, i, nodes)
  }

  lemma IndexesToAll(rows: seq<PlanNode>, nodes: Nodes)
    requires IndexesTo(rows, |rows|, nodes)
    ensures Indexes(rows, nodes)
  {
    forall k | k in nodes ensures nodes[k] in rows && nodes[k].nodeId == k {
      var a :| 0 <= a < |rows| && rows[a].nodeId == k;
      assert nodes[rows[a].nodeId] == rows[a];
    }
  }

  /** Each node passed its own validation, so dependencies are distinct and never the node itself. */
  ghost predicate BasicsHold(rows: seq<PlanNode>) {
    forall i :: 0 <= i < |rows| ==> InOrder(rows[i])
  }

  /** What an acceptable list of rows is: neither empty nor too long, each row sound, no id twice. */
  ghost predicate Indexable(rows: seq<PlanNode>) {
    0 < |rows| <= MAX_NODES && BasicsHold(rows) && DistinctIds(rows)
  }

  /** The rows before `i` are sound and no two of them share an id. */
  ghost predicate SoundUpTo(rows: seq<PlanNode>, i: nat)
    requires i <= |rows|
  {
    && (forall j :: 0 <= j < i ==> InOrder(rows[j]))
    && forall j, k :: 0 <= j < k < i ==> rows[j].nodeId != rows[k].nodeId
  }

  /** Row `i` is the first that cannot be filed, for this reason; its own faults come before a repeated id. */
  ghost predicate FirstFault(rows: seq<PlanNode>, i: nat, e: PlanError) {
    && i < |rows| && SoundUpTo(rows, i)
    && if !InOrder(rows[i]) then e.BadNode? && FirstWrong(rows[i], e.why)
       else e == DuplicateNodeId && exists j :: 0 <= j < i && rows[j].nodeId == rows[i].nodeId
  }

  /** Why a list of rows is not indexable. */
  ghost predicate IndexFault(rows: seq<PlanNode>, e: PlanError) {
    if rows == [] then e == PlanNodesRequired
    else if |rows| > MAX_NODES then e == PlanNodeBudgetExceeded
    else exists i: nat :: FirstFault(rows, i, e)
  }

  lemma FaultSpoils(rows: seq<PlanNode>, i: nat, e: PlanError, k: nat)
    requires FirstFault(rows, i, e) && i < k <= |rows|
    ensures !SoundUpTo(rows, k)
  {
  }

  lemma FirstFaultUnique(rows: seq<PlanNode>, i: nat, e: PlanError, j: nat, e': PlanError)
    requires FirstFault(rows, i, e) && FirstFault(rows, j, e')
    ensures e == e'
  {
    if i < j {
      FaultSpoils(rows, i, e, j);
    } else if j < i {
      FaultSpoils(rows, j, e', i);
    }
  }

  /** Rows have one fault at most. */
  lemma IndexFaultUnique(rows: seq<PlanNode>, e: PlanError, e': PlanError)
    requires IndexFault(rows, e) && IndexFault(rows, e')
    ensures e == e'
  {
    if 0 < |rows| <= MAX_NODES {
      var i: nat, j: nat :| FirstFault(rows, i, e) && FirstFault(rows, j, e');
      FirstFaultUnique(rows, i, e, j, e');
    }
  }

  lemma RepeatFound(rows: seq<PlanNode>, i: nat, nodes: Nodes)
    requires i < |rows| && IndexesTo(rows, i, nodes) && rows[i].nodeId in nodes
    ensures exists a :: 0 <= a < i && rows[a].nodeId == rows[i].nodeId
  {
    var a :| 0 <= a < i && Keys(rows)[..i][a] == rows[i].nodeId;
  }

  /** One more row: its id is new to the dictionary exactly when the rows stay free of repeats. */
  lemma IndexesNext(rows: seq<PlanNode>, i: nat, nodes: Nodes)
    requires i < |rows| && IndexesTo(rows, i, nodes)
    ensures rows[i].nodeId in nodes ==> exists a :: 0 <= a < i && rows[a].nodeId == rows[i].nodeId
    ensures rows[i].nodeId !in nodes ==> IndexesTo(rows, i + 1, nodes[rows[i].nodeId := rows[i]])
  {
    if rows[i].nodeId in nodes {
      RepeatFound(rows, i, nodes);
    } else {
      IndexGrows(rows, i, nodes, rows[i]);
    }
  }

  lemma FilesGrow<K, V>(keys: seq<K>, values: seq<V>, i: nat, m: map<K, V>)
    requires i < |keys| == |values| && Files(keys, values, i, m) && keys[i] !in m
    ensures Files(keys, values, i + 1, m[keys[i] := values[i]])
  {
    assert keys[..i + 1] == keys[..i] + [keys[i]];
  }

  lemma IndexGrows(rows: seq<PlanNode>, i: nat, nodes: Nodes, row: PlanNode)
    requires i < |rows| && IndexesTo(rows, i, nodes) && row == rows[i] && row.nodeId !in nodes
    ensures IndexesTo(rows, i + 1, nodes[row.nodeId := row])
  {
    FilesGrow(Keys(rows), rows, i, nodes);
  }

  lemma IndexedSoFar(rows: seq<PlanNode>, i: nat, nodes: Nodes)
    requires i <= |rows| && IndexesTo(rows, i, nodes)
    requires forall j :: 0 <= j < i ==> InOrder(rows[j])
    ensures SoundUpTo(rows, i)
  {
    forall j, k | 0 <= j < k < i ensures rows[j].nodeId != rows[k].nodeId {
      assert Keys(rows)[j] != Keys(rows)[k];
    }
  }

  /** The rows read into a dictionary one by one. */
  method IndexRows(rows: seq<PlanNode>) returns (r: Result<Nodes, PlanError>)
    ensures r.Ok? ==> SoundUpTo(rows, |rows|) && IndexesTo(rows, |rows|, r.value)
    ensures r.Err? ==> exists i: nat :: FirstFault(rows, i, r.error)
  {
    var out: Nodes := map[];
    for i := 0 to |rows|
      invariant IndexesTo(rows, i, out)
      invariant forall j :: 0 <= j < i ==> InOrder(rows[j])
    {
      IndexedSoFar(rows, i, out);
      var error := BasicError(rows[i]);
      if error.Some? {
        assert FirstFault(rows, i, BadNode(error.value));
        return Err(BadNode(error.value));
      }
      IndexesNext(rows, i, out);
      if rows[i].nodeId in out {
        assert FirstFault(rows, i, DuplicateNodeId);
        return Err(DuplicateNodeId);
      }
      out := out[rows[i].nodeId := rows[i]];
    }
    IndexedSoFar(rows, |rows|, out);
    r := Ok(out);
  }

  method IndexNodes(rows: seq<PlanNode>) returns (r: Result<Nodes, PlanError>)
    ensures r.Ok? <==> Indexable(rows)
    ensures r.Ok? ==> Indexes(rows, r.value)
    ensures r.Err? ==> IndexFault(rows, r.error)
  {
    if rows == [] {
      return Err(PlanNodesRequired);
    }
    if |rows| > MAX_NODES {
      return Err(PlanNodeBudgetExceeded);
    }
    r := IndexRows(rows);
    if r.Ok? {
      IndexesToAll(rows, r.value);
    } else {
      ghost var i: nat :| FirstFault(rows, i, r.error);
      FaultSpoils(rows, i, r.error, |rows|);
    }
  }
}
