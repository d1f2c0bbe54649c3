/** The memoised walk up the parent links, and what its acceptance means. */
module ParentGraph {
  import opened Prelude
  import opened PlanNodes

  /** `a` is reached from `id` by following `k` parent links. */
  ghost predicate Climbs(nodes: Nodes, id: string, k: nat, a: string)
    decreases k
  {
    id in nodes &&
    if k == 0 then a == id
    else nodes[id].parentId.Some? && Climbs(nodes, nodes[id].parentId.value, k - 1, a)
  }

  /** A node without a parent. */
  predicate IsRoot(nodes: Nodes, id: string) {
    id in nodes && nodes[id].parentId.None?
  }

  /** A node with a parent that is not listed. */
  predicate IsOrphan(nodes: Nodes, id: string) {
    id in nodes && nodes[id].parentId.Some? && nodes[id].parentId.value !in nodes
  }

  /** `d` parent links lead from `id` to a root. */
  ghost predicate HasDepth(nodes: Nodes, id: string, d: nat) {
    exists root :: Climbs(nodes, id, d, root) && IsRoot(nodes, root)
  }

  /** `a` is a proper ancestor of `id`. */
  ghost predicate Above(nodes: Nodes, id: string, a: string) {
    exists k :: k > 0 && Climbs(nodes, id, k, a)
  }

  /** One root, and every node at most `MAX_DEPTH` links below it. */
  ghost predicate IsBoundedTree(nodes: Nodes, root: string) {
    && IsRoot(nodes, root)
    && forall id :: id in nodes ==> exists d :: 0 <= d <= MAX_DEPTH && Climbs(nodes, id, d, root)
  }

  lemma {:induction false} ClimbFurther(nodes: Nodes, id: string, j: nat, a: string, k: nat, b: string)
    requires Climbs(nodes, id, j, a) && Climbs(nodes, a, k, b)
    ensures Climbs(nodes, id, j + k, b)
    decreases j
  {
    if j > 0 {
      ClimbFurther(nodes, nodes[id].parentId.value, j - 1, a, k, b);
    }
  }

  /** The ancestor `k` links up is unique, and a climb that ends where no listed parent is cannot be outlasted. */
  lemma {:induction false} ClimbEndsAtTop(nodes: Nodes, id: string, d: nat, top: string, k: nat, a: string)
    requires Climbs(nodes, id, d, top) && (IsRoot(nodes, top) || IsOrphan(nodes, top)) && Climbs(nodes, id, k, a)
    ensures k <= d && Climbs(nodes, a, d - k, top)
    decreases k
  {
    if k > 0 && d > 0 {
      ClimbEndsAtTop(nodes, nodes[id].parentId.value, d - 1, top, k - 1, a);
    }
  }

  lemma ParentIsAbove(nodes: Nodes, t: string, id: string)
    requires id in nodes && nodes[id].parentId.Some? && nodes[id].parentId.value in nodes
    requires t == id || Above(nodes, t, id)
    ensures Above(nodes, t, nodes[id].parentId.value)
  {
    var parent := nodes[id].parentId.value;
    assert Climbs(nodes, parent, 0, parent);
    assert Climbs(nodes, id, 1, parent);
    if t != id {
      var k :| k > 0 && Climbs(nodes, t, k, id);
      ClimbFurther(nodes, t, k, id, 1, parent);
    }
  }

  lemma DepthUnique(nodes: Nodes, id: string, d: nat, e: nat)
    requires HasDepth(nodes, id, d) && HasDepth(nodes, id, e)
    ensures d == e
  {
    var r :| Climbs(nodes, id, d, r) && IsRoot(nodes, r);
    var s :| Climbs(nodes, id, e, s) && IsRoot(nodes, s);
    ClimbEndsAtTop(nodes, id, d, r, e, s);
    ClimbEndsAtTop(nodes, id, e, s, d, r);
  }

  /** A climb into a parent cycle comes to no end. */
  lemma {:induction false} CycleHasNoTop(nodes: Nodes, id: string, k: nat, a: string, d: nat, top: string)
    requires Climbs(nodes, id, k, a) && Above(nodes, a, a)
    requires IsRoot(nodes, top) || IsOrphan(nodes, top)
    ensures !Climbs(nodes, id, d, top)
    decreases d
  {
    if Climbs(nodes, id, d, top) {
      ClimbEndsAtTop(nodes, id, d, top, k, a);
      var m :| m > 0 && Climbs(nodes, a, m, a);
      ClimbEndsAtTop(nodes, a, d - k, top, m, a);
      CycleHasNoTop(nodes, a, 0, a, d - k - m, top);
    }
  }

  lemma DepthOfParent(nodes: Nodes, id: string, p: string, d: nat)
    requires id in nodes && nodes[id].parentId == Some(p)
    ensures HasDepth(nodes, id, d) <==> d > 0 && HasDepth(nodes, p, d - 1)
  {
    if HasDepth(nodes, id, d) {
      var r :| Climbs(nodes, id, d, r) && IsRoot(nodes, r);
      assert d > 0 && Climbs(nodes, p, d - 1, r);
    }
    if d > 0 && HasDepth(nodes, p, d - 1) {
      var r :| Climbs(nodes, p, d - 1, r) && IsRoot(nodes, r);
      assert Climbs(nodes, id, d, r);
    }
  }

  lemma RootDepth(nodes: Nodes, id: string)
    requires IsRoot(nodes, id)
    ensures HasDepth(nodes, id, 0)
  {
    assert Climbs(nodes, id, 0, id);
  }

  lemma OnlyRoot(nodes: Nodes, root: string, id: string)
    requires IsBoundedTree(nodes, root) && IsRoot(nodes, id)
    ensures id == root
  {
    var d :| 0 <= d <= MAX_DEPTH && Climbs(nodes, id, d, root);
    assert d == 0;
  }

  /** What it means that the climb from a node is refused: it runs into a cycle, it ends at a node whose parent
      is not listed, or it ends at a root too far up. */
  ghost predicate RefusedAt(nodes: Nodes, id: string, e: PlanError) {
    match e
    case ParentCycle => exists k: nat, a :: Climbs(nodes, id, k, a) && Above(nodes, a, a)
    case UnknownParent => exists k: nat, a :: Climbs(nodes, id, k, a) && IsOrphan(nodes, a)
    case PlanDepthBudgetExceeded => exists d :: d > MAX_DEPTH && HasDepth(nodes, id, d)
    case _ => false
  }

  ghost predicate WithinDepth(nodes: Nodes, id: string) {
    exists d :: 0 <= d <= MAX_DEPTH && HasDepth(nodes, id, d)
  }

  /** The three ways to be refused exclude each other, and exclude a depth within the limit. */
  lemma RefusedForOneReason(nodes: Nodes, id: string, e: PlanError)
    requires RefusedAt(nodes, id, e)
    ensures !WithinDepth(nodes, id)
    ensures forall e' :: RefusedAt(nodes, id, e') ==> e' == e
  {
    if e == ParentCycle || RefusedAt(nodes, id, ParentCycle) {
      CycleEndsNowhere(nodes, id);
    } else if e == UnknownParent || RefusedAt(nodes, id, UnknownParent) {
      OrphanHasNoDepth(nodes, id);
    } else {
      OneDepth(nodes, id);
    }
  }

  lemma CycleEndsNowhere(nodes: Nodes, id: string)
    requires RefusedAt(nodes, id, ParentCycle)
    ensures !RefusedAt(nodes, id, UnknownParent) && forall d: nat :: !HasDepth(nodes, id, d)
  {
    var k: nat, a :| Climbs(nodes, id, k, a) && Above(nodes, a, a);
    forall d, top | IsRoot(nodes, top) || IsOrphan(nodes, top) ensures !Climbs(nodes, id, d, top) {
      CycleHasNoTop(nodes, id, k, a, d, top);
    }
  }

  lemma OrphanHasNoDepth(nodes: Nodes, id: string)
    requires RefusedAt(nodes, id, UnknownParent)
    ensures forall d: nat :: !HasDepth(nodes, id, d)
  {
    var k: nat, a :| Climbs(nodes, id, k, a) && IsOrphan(nodes, a);
    forall d: nat ensures !HasDepth(nodes, id, d) {
      if HasDepth(nodes, id, d) {
        var root :| Climbs(nodes, id, d, root) && IsRoot(nodes, root);
        ClimbEndsAtTop(nodes, id, d, root, k, a);
        ClimbEndsAtTop(nodes, id, k, a, d, root);
      }
    }
  }

  lemma OneDepth(nodes: Nodes, id: string)
    requires RefusedAt(nodes, id, PlanDepthBudgetExceeded)
    ensures !WithinDepth(nodes, id)
  {
    var d :| d > MAX_DEPTH && HasDepth(nodes, id, d);
    forall e | HasDepth(nodes, id, e) ensures e == d {
      DepthUnique(nodes, id, e, d);
    }
  }

  /** What stops the climb of its parent stops the climb of a node. */
  lemma RefusedWithParent(nodes: Nodes, id: string, p: string, e: PlanError)
    requires id in nodes && nodes[id].parentId == Some(p) && RefusedAt(nodes, p, e)
    ensures RefusedAt(nodes, id, e)
  {
    match e
    case ParentCycle =>
      var k: nat, a :| Climbs(nodes, p, k, a) && Above(nodes, a, a);
      assert Climbs(nodes, id, k + 1, a);
    case UnknownParent =>
      var k: nat, a :| Climbs(nodes, p, k, a) && IsOrphan(nodes, a);
      assert Climbs(nodes, id, k + 1, a);
    case PlanDepthBudgetExceeded =>
      var d :| d > MAX_DEPTH && HasDepth(nodes, p, d);
      DepthOfParent(nodes, id, p, d + 1);
  }

  /** A tree gives the walk nothing to refuse. */
  lemma TreeIsNotRefused(nodes: Nodes, root: string, id: string, e: PlanError)
    requires IsBoundedTree(nodes, root) && id in nodes
    ensures !RefusedAt(nodes, id, e)
  {
    var d :| 0 <= d <= MAX_DEPTH && Climbs(nodes, id, d, root);
    assert HasDepth(nodes, id, d);
    if RefusedAt(nodes, id, e) {
      RefusedForOneReason(nodes, id, e);
    }
  }

  /** Row `i` is the first whose climb is refused. */
  ghost predicate FirstRefused(rows: seq<PlanNode>, nodes: Nodes, i: nat, e: PlanError) {
    && i < |rows| && RefusedAt(nodes, rows[i].nodeId, e)
    && forall j :: 0 <= j < i ==> WithinDepth(nodes, rows[j].nodeId)
  }

  /** Why rows do not form a bounded tree. */
  ghost predicate TreeFault(rows: seq<PlanNode>, nodes: Nodes, e: PlanError) {
    if |Roots(rows)| != 1 then e == SingleRootRequired else exists i: nat :: FirstRefused(rows, nodes, i, e)
  }

  lemma TreeFaultUnique(rows: seq<PlanNode>, nodes: Nodes, e: PlanError, e': PlanError)
    requires TreeFault(rows, nodes, e) && TreeFault(rows, nodes, e')
    ensures e == e'
  {
    if |Roots(rows)| == 1 {
      var i: nat, j: nat :| FirstRefused(rows, nodes, i, e) && FirstRefused(rows, nodes, j, e');
      RefusedForOneReason(nodes, rows[i].nodeId, e);
      RefusedForOneReason(nodes, rows[j].nodeId, e');
    }
  }

  /** The table of depths found so far. */
  ghost predicate DepthTable(nodes: Nodes, depths: map<string, nat>) {
    forall id :: id in depths ==> id in nodes && depths[id] <= MAX_DEPTH && HasDepth(nodes, id, depths[id])
  }

  class ParentWalk {
    var depths: map<string, nat>
    const nodes: Nodes

    constructor (nodes: Nodes)
      ensures this.nodes == nodes && depths == map[]
    {
      this.nodes := nodes;
      depths := map[];
    }

    /** The depth of a node, remembered once found; `trail` holds the nodes below it on this walk. */
    method Depth(id: string, trail: set<string>) returns (r: Result<nat, PlanError>)
      requires DepthTable(nodes, depths)
      requires id in nodes && trail <= nodes.Keys
      requires forall t :: t in trail ==> Above(nodes, t, id)
      modifies this
      decreases nodes.Keys - trail
      ensures DepthTable(nodes, depths)
      ensures old(depths.Keys) <= depths.Keys
      ensures r.Ok? ==> id in depths && depths[id] == r.value
      ensures r.Err? ==> RefusedAt(nodes, id, r.error)
    {
      if id in depths {
        return Ok(depths[id]);
      }
      if id in trail {
        assert Climbs(nodes, id, 0, id) && Above(nodes, id, id);
        return Err(ParentCycle);
      }
      var node := nodes[id];
      if node.parentId.None? {
        RootDepth(nodes, id);
        depths := depths[id := 0];
        return Ok(0);
      }
      var parent := node.parentId.value;
      if parent !in nodes {
        assert Climbs(nodes, id, 0, id) && IsOrphan(nodes, id);
        return Err(UnknownParent);
      }
      forall t | t in trail + {id} ensures Above(nodes, t, parent) {
        ParentIsAbove(nodes, t, id);
      }
      var above := Depth(parent, trail + {id});
      if above.Err? {
        RefusedWithParent(nodes, id, parent, above.error);
        return above;
      }
      var value := 1 + above.value;
      DepthOfParent(nodes, id, parent, value);
      if value > MAX_DEPTH {
        return Err(PlanDepthBudgetExceeded);
      }
      depths := depths[id := value];
      r := Ok(value);
    }
  }

  /** The ids of the parentless rows, in order. */
  function Roots(rows: seq<PlanNode>): seq<string> {
    if rows == [] then []
    else (if rows[0].parentId.None? then [rows[0].nodeId] else []) + Roots(rows[1..])
  }

  lemma {:induction false} RootsSpec(rows: seq<PlanNode>, id: string)
    ensures id in Roots(rows) <==> exists i :: 0 <= i < |rows| && rows[i].parentId.None? && rows[i].nodeId == id
  {
    if rows == [] {
    } else {
      RootsSpec(rows[1..], id);
      if id in Roots(rows[1..]) {
        var i :| 0 <= i < |rows[1..]| && rows[1..][i].parentId.None? && rows[1..][i].nodeId == id;
        assert rows[i + 1].nodeId == id;
      }
      if i :| 0 <= i < |rows| && rows[i].parentId.None? && rows[i].nodeId == id {
        if i > 0 {
          assert rows[1..][i - 1].nodeId == id;
        }
      }
    }
  }

  lemma {:induction false} RootsDistinct(rows: seq<PlanNode>)
    requires DistinctIds(rows)
    ensures Distinct(Roots(rows))
  {
    if rows == [] {
    } else {
      RootsDistinct(rows[1..]);
      RootsSpec(rows[1..], rows[0].nodeId);
    }
  }

  /** Exactly one root listed means exactly one root in the dictionary. */
  lemma SingleRoot(rows: seq<PlanNode>, nodes: Nodes)
    requires Indexes(rows, nodes)
    ensures forall id :: id in Roots(rows) <==> IsRoot(nodes, id)
    ensures |Roots(rows)| == 1 ==> forall id :: IsRoot(nodes, id) ==> id == Roots(rows)[0]
    ensures |Roots(rows)| != 1 ==> forall root :: !IsBoundedTree(nodes, root)
  {
    RootsDistinct(rows);
    forall id ensures id in Roots(rows) <==> IsRoot(nodes, id) {
      RootsSpec(rows, id);
      if IsRoot(nodes, id) {
        assert nodes[id] in rows;
      }
    }
    if |Roots(rows)| > 1 {
      var a, b := Roots(rows)[0], Roots(rows)[1];
      forall root ensures !IsBoundedTree(nodes, root) {
        if IsBoundedTree(nodes, root) {
          OnlyRoot(nodes, root, a);
          OnlyRoot(nodes, root, b);
        }
      }
    }
  }

  /** The whole pass: it accepts exactly the bounded trees, and numbers every node with its depth. */
  method ValidateParentGraph(rows: seq<PlanNode>, nodes: Nodes)
    returns (r: Result<(string, map<string, nat>), PlanError>)
    requires Indexes(rows, nodes)
    ensures r.Ok? <==> exists root :: IsBoundedTree(nodes, root)
    ensures r.Ok? ==>
      var (root, depths) := r.value;
      && IsBoundedTree(nodes, root)
      && depths.Keys == nodes.Keys
      && forall id :: id in nodes ==> Climbs(nodes, id, depths[id], root)
    ensures r.Err? ==> TreeFault(rows, nodes, r.error)
  {
    SingleRoot(rows, nodes);
    var roots := Roots(rows);
    if |roots| != 1 {
      return Err(SingleRootRequired);
    }
    var root := roots[0];
    assert root in roots;
    var walk := new ParentWalk(nodes);
    for i := 0 to |rows|
      invariant walk.nodes == nodes && fresh(walk)
      invariant DepthTable(nodes, walk.depths)
      invariant forall j :: 0 <= j < i ==> rows[j].nodeId in walk.depths
    {
      var d := walk.Depth(rows[i].nodeId, {});
      if d.Err? {
        forall t ensures !IsBoundedTree(nodes, t) {
          if IsBoundedTree(nodes, t) {
            TreeIsNotRefused(nodes, t, rows[i].nodeId, d.error);
          }
        }
        assert FirstRefused(rows, nodes, i, d.error);
        return Err(d.error);
      }
    }
    r := Ok((root, walk.depths));
    forall id | id in nodes ensures id in walk.depths && Climbs(nodes, id, walk.depths[id], root) {
      assert nodes[id] in rows;
    }
    assert IsBoundedTree(nodes, root);
  }
}
