/** Execution waves: Kahn's algorithm over the dependency graph, one wave at a time. */
module DependencyWaves {
  import opened Prelude
  import opened PlanNodes

  /** Every dependency is a node, and every parent is among its child's dependencies. */
  ghost predicate WellLinked(nodes: Nodes) {
    forall id :: id in nodes ==>
      && (forall d :: d in nodes[id].dependencies ==> d in nodes)
      && (nodes[id].parentId.Some? ==> nodes[id].parentId.value in nodes[id].dependencies)
  }

  ghost predicate DependsOn(nodes: Nodes, id: string, d: string) {
    id in nodes && d in nodes && d in nodes[id].dependencies
  }

  /** A walk along dependency edges, each node a dependency of the next. */
  ghost predicate DependencyPath(nodes: Nodes, p: seq<string>) {
    && p != []
    && (forall i :: 0 <= i < |p| ==> p[i] in nodes)
    && (forall i, j :: 0 <= i && j == i + 1 && j < |p| ==> DependsOn(nodes, p[j], p[i]))
  }

  ghost predicate PathTo(nodes: Nodes, p: seq<string>, id: string) {
    DependencyPath(nodes, p) && p[|p| - 1] == id
  }

  ghost predicate Cyclic(nodes: Nodes) {
    exists p :: DependencyPath(nodes, p) && |p| > 1 && p[0] == p[|p| - 1]
  }

  /** The longest dependency path that ends at `id` has exactly `k` edges. */
  ghost predicate LongestPath(nodes: Nodes, id: string, k: nat) {
    && (exists p :: PathTo(nodes, p, id) && |p| == k + 1)
    && (forall p :: PathTo(nodes, p, id) ==> |p| <= k + 1)
  }

  function Flatten(waves: seq<seq<string>>): seq<string> {
    if waves == [] then [] else Flatten(waves[..|waves| - 1]) + waves[|waves| - 1]
  }

  ghost predicate WavesSorted(waves: seq<seq<string>>) {
    forall k :: 0 <= k < |waves| ==> waves[k] != [] && SortedBy(StrLe, waves[k])
  }

  /** What the waves are for: every node once, each wave sorted and not empty, and the number of a
      node's wave is the length of its longest dependency path. */
  ghost predicate IsWavePlan(nodes: Nodes, waves: seq<seq<string>>) {
    && Distinct(Flatten(waves))
    && (forall id :: id in nodes <==> id in Flatten(waves))
    && WavesSorted(waves)
    && (forall k, i :: 0 <= k < |waves| && 0 <= i < |waves[k]| ==> LongestPath(nodes, waves[k][i], k))
  }

  // ---- Numbering nodes by wave -----------------------------------------------------------

  /** A numbering of some nodes in which each node comes right after its last dependency. */
  ghost predicate Levelled(nodes: Nodes, level: map<string, nat>) {
    forall id :: id in level ==>
      && id in nodes
      && (forall d :: d in nodes[id].dependencies ==> d in level && level[d] < level[id])
      && (level[id] > 0 ==> exists d :: d in nodes[id].dependencies && d in level && level[d] == level[id] - 1)
  }

  lemma PathAppend(nodes: Nodes, p: seq<string>, id: string)
    requires DependencyPath(nodes, p) && DependsOn(nodes, id, p[|p| - 1])
    ensures PathTo(nodes, p + [id], id)
  {
  }

  lemma PathPrepend(nodes: Nodes, p: seq<string>, d: string)
    requires DependencyPath(nodes, p) && DependsOn(nodes, p[0], d)
    ensures DependencyPath(nodes, [d] + p)
  {
  }

  lemma PathPrefix(nodes: Nodes, p: seq<string>, k: nat)
    requires DependencyPath(nodes, p) && 0 < k <= |p|
    ensures DependencyPath(nodes, p[..k])
  {
  }

  lemma {:induction false} PathReachesLevel(nodes: Nodes, level: map<string, nat>, id: string) returns (p: seq<string>)
    requires Levelled(nodes, level) && id in level
    ensures PathTo(nodes, p, id) && |p| == level[id] + 1
    decreases level[id]
  {
    if level[id] == 0 {
      p := [id];
    } else {
      var d :| d in nodes[id].dependencies && d in level && level[d] == level[id] - 1;
      var q := PathReachesLevel(nodes, level, d);
      PathAppend(nodes, q, id);
      p := q + [id];
    }
  }

  lemma {:induction false} PathClimbsLevels(nodes: Nodes, level: map<string, nat>, p: seq<string>)
    requires Levelled(nodes, level) && DependencyPath(nodes, p) && p[|p| - 1] in level
    ensures p[0] in level && level[p[0]] + |p| - 1 <= level[p[|p| - 1]]
    decreases |p|
  {
    if |p| > 1 {
      var k := |p| - 1;
      PathPrefix(nodes, p, k);
      assert DependsOn(nodes, p[k], p[k - 1]);
      PathClimbsLevels(nodes, level, p[..k]);
    }
  }

  lemma LevelIsLongestPath(nodes: Nodes, level: map<string, nat>, id: string)
    requires Levelled(nodes, level) && id in level
    ensures LongestPath(nodes, id, level[id])
  {
    var p := PathReachesLevel(nodes, level, id);
    forall q | PathTo(nodes, q, id) ensures |q| <= level[id] + 1 {
      PathClimbsLevels(nodes, level, q);
    }
  }

  /** Numbering every node rules out a cycle. */
  lemma LevelledIsAcyclic(nodes: Nodes, level: map<string, nat>)
    requires Levelled(nodes, level) && level.Keys == nodes.Keys
    ensures !Cyclic(nodes)
  {
    forall p | DependencyPath(nodes, p) && p[0] == p[|p| - 1] ensures |p| == 1 {
      PathClimbsLevels(nodes, level, p);
    }
  }

  /** `id` waits for a member of `stuck`. */
  ghost predicate WaitsWithin(nodes: Nodes, stuck: set<string>, id: string) {
    exists d :: d in stuck && DependsOn(nodes, id, d)
  }

  lemma CycleClosed(nodes: Nodes, p: seq<string>, j: nat)
    requires DependencyPath(nodes, p) && 0 < j < |p| && p[0] == p[j]
    ensures Cyclic(nodes)
  {
    var cycle := p[..j + 1];
    PathPrefix(nodes, p, j + 1);
    assert |cycle| > 1 && cycle[0] == cycle[|cycle| - 1];
  }

  /** A path without repeats among the `stuck` nodes. */
  ghost predicate StuckTrail(nodes: Nodes, stuck: set<string>, p: seq<string>) {
    DependencyPath(nodes, p) && Distinct(p) && forall id :: id in p ==> id in stuck
  }

  lemma TrailStep(nodes: Nodes, stuck: set<string>, p: seq<string>, d: string)
    requires StuckTrail(nodes, stuck, p) && d in stuck && DependsOn(nodes, p[0], d)
    ensures d in p ==> Cyclic(nodes)
    ensures d !in p ==> StuckTrail(nodes, stuck, [d] + p) && |p| < |stuck|
  {
    PathPrepend(nodes, p, d);
    if d in p {
      var j :| 0 <= j < |p| && p[j] == d;
      CycleClosed(nodes, [d] + p, j + 1);
    } else {
      DistinctFits([d] + p, stuck);
    }
  }

  lemma StuckOn(nodes: Nodes, stuck: set<string>, p: seq<string>) returns (d: string)
    requires forall id :: id in stuck ==> WaitsWithin(nodes, stuck, id)
    requires StuckTrail(nodes, stuck, p)
    ensures d in stuck && DependsOn(nodes, p[0], d)
  {
    assert p[0] in p && WaitsWithin(nodes, stuck, p[0]);
    d :| d in stuck && DependsOn(nodes, p[0], d);
  }

  /** Nodes that each wait for another of them hold a cycle: walk back until a node repeats. */
  lemma {:induction false} StuckMeansCycle(nodes: Nodes, stuck: set<string>, p: seq<string>)
    requires forall id :: id in stuck ==> WaitsWithin(nodes, stuck, id)
    requires StuckTrail(nodes, stuck, p)
    ensures Cyclic(nodes)
    decreases |stuck| - |p|
  {
    var d := StuckOn(nodes, stuck, p);
    TrailStep(nodes, stuck, p, d);
    if d !in p {
      StuckMeansCycle(nodes, stuck, [d] + p);
    }
  }

  // ---- The wave pass ---------------------------------------------------------------------

  /** How many of the dependencies are not yet done. */
  function Missing(deps: seq<string>, done: set<string>): nat {
    if deps == [] then 0 else (if deps[0] in done then 0 else 1) + Missing(deps[1..], done)
  }

  lemma {:induction false} MissingNone(deps: seq<string>, done: set<string>)
    ensures Missing(deps, done) == 0 <==> forall d :: d in deps ==> d in done
  {
    if deps == [] {
    } else {
      MissingNone(deps[1..], done);
      assert forall d :: d in deps <==> d == deps[0] || d in deps[1..];
    }
  }

  lemma {:induction false} MissingOneFewer(deps: seq<string>, done: set<string>, n: string)
    requires !HasRepeat(deps) && n !in done
    ensures Missing(deps, done + {n}) == Missing(deps, done) - if n in deps then 1 else 0
  {
    if deps == [] {
    } else {
      MissingOneFewer(deps[1..], done, n);
    }
  }

  lemma {:induction false} MissingAll(deps: seq<string>)
    ensures Missing(deps, {}) == |deps|
  {
    if deps == [] {
    } else {
      MissingAll(deps[1..]);
    }
  }

  /** The ids of the rows that depend on `d`, in row order: `children[d]`. */
  function Dependents(rows: seq<PlanNode>, d: string): seq<string> {
    if rows == [] then []
    else Dependents(rows[..|rows| - 1], d) +
         if d in rows[|rows| - 1].dependencies then [rows[|rows| - 1].nodeId] else []
  }

  lemma {:induction false} DependentsSpec(rows: seq<PlanNode>, d: string)
    requires DistinctIds(rows)
    ensures Distinct(Dependents(rows, d))
    ensures forall id :: id in Dependents(rows, d) <==>
      exists i :: 0 <= i < |rows| && rows[i].nodeId == id && d in rows[i].dependencies
  {
    if rows == [] {
    } else {
      var init, last := rows[..|rows| - 1], rows[|rows| - 1];
      DependentsSpec(init, d);
      assert last.nodeId !in Dependents(init, d);
      assert forall i :: 0 <= i < |init| ==> init[i] == rows[i];
      forall id ensures id in Dependents(rows, d) <==>
        exists i :: 0 <= i < |rows| && rows[i].nodeId == id && d in rows[i].dependencies
      {
        if id in Dependents(init, d) {
          var i :| 0 <= i < |init| && init[i].nodeId == id && d in init[i].dependencies;
          assert rows[i].nodeId == id;
        }
      }
    }
  }

  /** Every dependency of the row is listed, and its parent is one of them. */
  predicate Linked(row: PlanNode, nodes: Nodes) {
    && (forall d :: d in row.dependencies ==> d in nodes)
    && (row.parentId.Some? ==> row.parentId.value in row.dependencies)
  }

  /** Row `i` is the first whose links fail; an unlisted dependency comes before a missing parent. */
  ghost predicate FirstUnlinked(rows: seq<PlanNode>, nodes: Nodes, i: nat, e: PlanError) {
    && i < |rows| && !Linked(rows[i], nodes) && (forall j :: 0 <= j < i ==> Linked(rows[j], nodes))
    && e == if exists d :: d in rows[i].dependencies && d !in nodes then UnknownDependency else ParentDependencyRequired
  }

  /** The complaint of the first row that has one. */
  function LinkError(rows: seq<PlanNode>, nodes: Nodes): Option<PlanError> {
    if rows == [] then None
    else if exists d :: d in rows[0].dependencies && d !in nodes then Some(UnknownDependency)
    else if rows[0].parentId.Some? && rows[0].parentId.value !in rows[0].dependencies then
      Some(ParentDependencyRequired)
    else LinkError(rows[1..], nodes)
  }

  lemma {:induction false} LinkErrorSpec(rows: seq<PlanNode>, nodes: Nodes)
    ensures LinkError(rows, nodes).None? <==> forall i :: 0 <= i < |rows| ==> Linked(rows[i], nodes)
    ensures LinkError(rows, nodes).Some? ==> exists i :: FirstUnlinked(rows, nodes, i, LinkError(rows, nodes).value)
  {
    if rows == [] {
    } else if !Linked(rows[0], nodes) {
      assert FirstUnlinked(rows, nodes, 0, LinkError(rows, nodes).value);
    } else {
      LinkErrorSpec(rows[1..], nodes);
      assert forall i :: 0 <= i < |rows| - 1 ==> rows[1..][i] == rows[i + 1];
      if LinkError(rows, nodes).Some? {
        var i: nat :| FirstUnlinked(rows[1..], nodes, i, LinkError(rows, nodes).value);
        FirstUnlinkedLater(rows, nodes, i, LinkError(rows, nodes).value);
      }
    }
  }

  lemma FirstUnlinkedLater(rows: seq<PlanNode>, nodes: Nodes, i: nat, e: PlanError)
    requires rows != [] && Linked(rows[0], nodes) && FirstUnlinked(rows[1..], nodes, i, e)
    ensures FirstUnlinked(rows, nodes, i + 1, e)
  {
    forall j | 0 <= j < i + 1 ensures Linked(rows[j], nodes) {
      assert j > 0 ==> rows[1..][j - 1] == rows[j];
    }
  }

  lemma WellLinkedByRows(rows: seq<PlanNode>, nodes: Nodes)
    requires Indexes(rows, nodes)
    ensures LinkError(rows, nodes).None? <==> WellLinked(nodes)
  {
    LinkErrorSpec(rows, nodes);
    forall id | id in nodes ensures nodes[id] in rows {
    }
  }

  ghost predicate ChildLists(nodes: Nodes, children: map<string, seq<string>>) {
    && children.Keys == nodes.Keys
    && forall d :: d in nodes ==>
      Distinct(children[d]) && forall id :: id in children[d] <==> id in nodes && d in nodes[id].dependencies
  }

  ghost predicate NoRepeats(nodes: Nodes) {
    forall id :: id in nodes ==> !HasRepeat(nodes[id].dependencies)
  }

  /** How many dependencies each node waits for. */
  ghost function Waits(nodes: Nodes, done: set<string>): (m: map<string, int>)
    ensures m.Keys == nodes.Keys
  {
    map id | id in nodes :: Missing(nodes[id].dependencies, done)
  }

  lemma WaitsOneFewer(nodes: Nodes, done: set<string>, n: string)
    requires NoRepeats(nodes) && n !in done
    ensures forall id :: id in nodes ==>
      Waits(nodes, done + {n})[id] == Waits(nodes, done)[id] - if n in nodes[id].dependencies then 1 else 0
  {
    forall id | id in nodes
      ensures Waits(nodes, done + {n})[id] == Waits(nodes, done)[id] - if n in nodes[id].dependencies then 1 else 0
    {
      MissingOneFewer(nodes[id].dependencies, done, n);
    }
  }

  /** One finished node: every child waits for one dependency less, and the children that waited
      only for it join the next wave. `waits` and `waits'` are the waits before and after. */
  method Release(kids: seq<string>, ghost waits: map<string, int>, ghost waits': map<string, int>,
                 ghost seen: set<string>, indegree: map<string, int>, next: seq<string>)
    returns (indegree': map<string, int>, next': seq<string>)
    requires Distinct(kids) && waits.Keys == waits'.Keys
    requires forall id :: id in kids ==> id in waits && id !in seen
    requires forall id :: id in waits ==> waits'[id] == waits[id] - if id in kids then 1 else 0
    requires indegree == waits
    requires Distinct(next) && forall id :: id in next <==> id in waits && id !in seen && waits[id] == 0
    requires forall id :: id in waits ==> waits[id] >= 0 && waits'[id] >= 0
    ensures indegree' == waits'
    ensures Distinct(next') && forall id :: id in next' <==> id in waits && id !in seen && waits'[id] == 0
  {
    indegree', next' := indegree, next;
    for c := 0 to |kids|
      invariant indegree'.Keys == waits.Keys && Distinct(next')
      invariant forall id :: id in waits ==> indegree'[id] == waits[id] - if id in kids[..c] then 1 else 0
      invariant forall id :: id in next' <==> id in waits && id !in seen && indegree'[id] == 0
    {
      var child := kids[c];
      assert child in kids && child !in kids[..c];
      assert kids[..c + 1] == kids[..c] + [child];
      indegree' := indegree'[child := indegree'[child] - 1];
      if indegree'[child] == 0 {
        next' := next' + [child];
      }
    }
    assert kids[..|kids|] == kids;
  }

  /** Finished nodes only ever depended on finished nodes. */
  ghost predicate Closed(nodes: Nodes, done: set<string>) {
    done <= nodes.Keys && forall id :: id in done ==> forall d :: d in nodes[id].dependencies ==> d in done
  }

  /** `wave` lists, once each, the nodes outside `seen` that wait for nothing once `done` is done. */
  ghost predicate ReadyExactly(nodes: Nodes, wave: seq<string>, done: set<string>, seen: set<string>) {
    && Distinct(wave)
    && forall id :: id in wave <==> id in nodes && id !in seen && Waits(nodes, done)[id] == 0
  }

  lemma ReadyWaitsForNothing(nodes: Nodes, wave: seq<string>, done: set<string>, seen: set<string>)
    requires ReadyExactly(nodes, wave, done, seen)
    ensures forall id :: id in wave ==> forall d :: d in nodes[id].dependencies ==> d in done
  {
    forall id | id in wave ensures forall d :: d in nodes[id].dependencies ==> d in done {
      MissingNone(nodes[id].dependencies, done);
    }
  }

  /** No finished or ready node is waiting for the ready node `n`. */
  lemma KidsAreLater(nodes: Nodes, wave: seq<string>, done: set<string>, n: string, kid: string)
    requires Closed(nodes, done) && ReadyExactly(nodes, wave, done, done)
    requires n in wave && kid in nodes && n in nodes[kid].dependencies
    ensures kid !in done && kid !in wave
  {
    ReadyWaitsForNothing(nodes, wave, done, done);
  }

  /** One node of a wave is finished: the counts and the ready nodes follow. */
  method ReleaseNode(nodes: Nodes, children: map<string, seq<string>>, n: string, ghost before: set<string>,
                     ghost seen: set<string>, indegree: map<string, int>, next: seq<string>)
    returns (indegree': map<string, int>, next': seq<string>)
    requires NoRepeats(nodes) && ChildLists(nodes, children) && n in nodes && n !in before
    requires forall kid :: kid in nodes && n in nodes[kid].dependencies ==> kid !in seen
    requires indegree == Waits(nodes, before) && ReadyExactly(nodes, next, before, seen)
    ensures indegree' == Waits(nodes, before + {n}) && ReadyExactly(nodes, next', before + {n}, seen)
  {
    var kids := SortStrings(children[n]);
    SortStringsSpec(children[n]);
    WaitsOneFewer(nodes, before, n);
    indegree', next' := Release(kids, Waits(nodes, before), Waits(nodes, before + {n}), seen, indegree, next);
  }

  method ReleaseWave(nodes: Nodes, children: map<string, seq<string>>, wave: seq<string>, ghost done: set<string>,
                     indegree: map<string, int>)
    returns (indegree': map<string, int>, next: seq<string>)
    requires NoRepeats(nodes) && ChildLists(nodes, children) && Closed(nodes, done)
    requires indegree == Waits(nodes, done) && ReadyExactly(nodes, wave, done, done)
    ensures indegree' == Waits(nodes, done + Elements(wave))
    ensures ReadyExactly(nodes, next, done + Elements(wave), done + Elements(wave))
  {
    indegree', next := indegree, [];
    ghost var seen := done + Elements(wave);
    assert done + Elements(wave[..0]) == done;
    for i := 0 to |wave|
      invariant indegree' == Waits(nodes, done + Elements(wave[..i]))
      invariant ReadyExactly(nodes, next, done + Elements(wave[..i]), seen)
    {
      var n := wave[i];
      ghost var before := done + Elements(wave[..i]);
      assert n in wave && n !in wave[..i];
      ElementsNext(wave, i);
      assert done + Elements(wave[..i + 1]) == before + {n};
      forall kid | kid in nodes && n in nodes[kid].dependencies ensures kid !in seen {
        KidsAreLater(nodes, wave, done, n, kid);
      }
      indegree', next := ReleaseNode(nodes, children, n, before, seen, indegree', next);
    }
    assert wave[..|wave|] == wave;
  }

  function Elements(s: seq<string>): set<string> {
    set x | x in s
  }

  lemma ElementsNext(s: seq<string>, i: nat)
    requires i < |s|
    ensures Elements(s[..i + 1]) == Elements(s[..i]) + {s[i]}
  {
    assert s[..i + 1] == s[..i] + [s[i]];
  }

  // ---- Putting the waves together --------------------------------------------------------

  lemma {:induction false} DistinctSize(s: seq<string>)
    requires Distinct(s)
    ensures |Elements(s)| == |s|
  {
    if s == [] {
    } else {
      var init, last := s[..|s| - 1], s[|s| - 1];
      DistinctSize(init);
      assert s == init + [last] && last !in init;
      assert Elements(s) == Elements(init) + {last};
    }
  }

  /** The numbering says which wave a node is in. */
  ghost predicate Numbered(waves: seq<seq<string>>, level: map<string, nat>) {
    && (forall k, i :: 0 <= k < |waves| && 0 <= i < |waves[k]| ==> waves[k][i] in level && level[waves[k][i]] == k)
    && (forall id :: id in level ==> level[id] < |waves|)
  }

  /** The waves so far and the numbering they stand for. */
  ghost predicate Recorded(nodes: Nodes, waves: seq<seq<string>>, level: map<string, nat>) {
    && Levelled(nodes, level)
    && Distinct(Flatten(waves))
    && (forall id :: id in Flatten(waves) <==> id in level)
    && Numbered(waves, level)
    && WavesSorted(waves)
  }

  /** A wave's nodes wait for nothing unfinished, and for something in the wave just before. */
  ghost predicate FollowsLastWave(nodes: Nodes, waves: seq<seq<string>>, level: map<string, nat>, wave: seq<string>) {
    forall id :: id in wave ==>
      && id in nodes && id !in level
      && (forall d :: d in nodes[id].dependencies ==> d in level)
      && (waves != [] ==> exists d :: d in nodes[id].dependencies && d in level && level[d] == |waves| - 1)
  }

  ghost function AddWave(waves: seq<seq<string>>, level: map<string, nat>, wave: seq<string>): map<string, nat> {
    level + map id | id in wave :: |waves|
  }

  lemma LevelledGrows(nodes: Nodes, waves: seq<seq<string>>, level: map<string, nat>, wave: seq<string>)
    requires Levelled(nodes, level) && FollowsLastWave(nodes, waves, level, wave)
    requires forall id :: id in level ==> level[id] < |waves|
    ensures Levelled(nodes, AddWave(waves, level, wave))
  {
    var level' := AddWave(waves, level, wave);
    forall id | id in level' && level'[id] > 0
      ensures exists d :: d in nodes[id].dependencies && d in level' && level'[d] == level'[id] - 1
    {
      if id in level && id !in wave {
        var d :| d in nodes[id].dependencies && d in level && level[d] == level[id] - 1;
        assert d !in wave && level'[d] == level[d];
      } else {
        var d :| d in nodes[id].dependencies && d in level && level[d] == |waves| - 1;
        assert d !in wave && level'[d] == level[d];
      }
    }
  }

  lemma RecordWave(nodes: Nodes, waves: seq<seq<string>>, level: map<string, nat>, wave: seq<string>)
    requires Recorded(nodes, waves, level) && FollowsLastWave(nodes, waves, level, wave)
    requires wave != [] && Distinct(wave) && SortedBy(StrLe, wave)
    ensures Recorded(nodes, waves + [wave], AddWave(waves, level, wave))
    ensures |Flatten(waves + [wave])| == |Flatten(waves)| + |wave|
  {
    assert (waves + [wave])[..|waves|] == waves;
    assert Flatten(waves + [wave]) == Flatten(waves) + wave;
    DistinctConcat(Flatten(waves), wave);
    LevelledGrows(nodes, waves, level, wave);
    NumberedGrows(waves, level, wave);
    WavesSortedGrow(waves, wave);
    forall id ensures id in Flatten(waves + [wave]) <==> id in AddWave(waves, level, wave) {
      assert id in Flatten(waves) + wave <==> id in Flatten(waves) || id in wave;
    }
  }

  lemma WavesSortedGrow(waves: seq<seq<string>>, wave: seq<string>)
    requires WavesSorted(waves) && wave != [] && SortedBy(StrLe, wave)
    ensures WavesSorted(waves + [wave])
  {
    var waves' := waves + [wave];
    forall k | 0 <= k < |waves'| ensures waves'[k] != [] && SortedBy(StrLe, waves'[k]) {
      assert waves'[k] == if k < |waves| then waves[k] else wave;
    }
  }

  lemma NumberedGrows(waves: seq<seq<string>>, level: map<string, nat>, wave: seq<string>)
    requires Numbered(waves, level) && forall id :: id in wave ==> id !in level
    ensures Numbered(waves + [wave], AddWave(waves, level, wave))
  {
    var waves', level' := waves + [wave], AddWave(waves, level, wave);
    forall k, i | 0 <= k < |waves'| && 0 <= i < |waves'[k]|
      ensures waves'[k][i] in level' && level'[waves'[k][i]] == k
    {
      if k < |waves| {
        assert waves'[k] == waves[k] && waves[k][i] !in wave;
      } else {
        assert wave[i] in wave;
      }
    }
  }

  lemma AddWaveKeys(waves: seq<seq<string>>, level: map<string, nat>, wave: seq<string>)
    ensures AddWave(waves, level, wave).Keys == level.Keys + Elements(wave)
  {
  }

  /** What becomes ready next waited for the wave just recorded. */
  lemma NextFollows(nodes: Nodes, waves: seq<seq<string>>, level: map<string, nat>, wave: seq<string>,
                    next: seq<string>)
    requires Recorded(nodes, waves, level) && ReadyExactly(nodes, wave, level.Keys, level.Keys)
    requires ReadyExactly(nodes, next, level.Keys + Elements(wave), level.Keys + Elements(wave))
    ensures FollowsLastWave(nodes, waves + [wave], AddWave(waves, level, wave), next)
  {
    var level' := AddWave(waves, level, wave);
    ReadyWaitsForNothing(nodes, next, level.Keys + Elements(wave), level.Keys + Elements(wave));
    forall id | id in next
      ensures exists d :: d in nodes[id].dependencies && d in level' && level'[d] == |waves|
    {
      assert id !in wave;
      MissingNone(nodes[id].dependencies, level.Keys);
      var d :| d in nodes[id].dependencies && d !in level;
      assert d in level' && level'[d] == |waves|;
    }
  }

  /** A pass that ends with every node recorded has produced the wave plan. */
  lemma RecordedAll(nodes: Nodes, waves: seq<seq<string>>, level: map<string, nat>)
    requires Recorded(nodes, waves, level) && level.Keys == nodes.Keys
    ensures IsWavePlan(nodes, waves) && !Cyclic(nodes)
  {
    LevelledIsAcyclic(nodes, level);
    forall k, i | 0 <= k < |waves| && 0 <= i < |waves[k]| ensures LongestPath(nodes, waves[k][i], k) {
      LevelIsLongestPath(nodes, level, waves[k][i]);
    }
  }

  /** A pass that runs dry before every node is recorded has met a cycle. */
  lemma RanDry(nodes: Nodes, done: set<string>)
    requires WellLinked(nodes) && Closed(nodes, done) && done != nodes.Keys
    requires ReadyExactly(nodes, [], done, done)
    ensures Cyclic(nodes)
  {
    var stuck := nodes.Keys - done;
    forall id | id in stuck ensures WaitsWithin(nodes, stuck, id) {
      RanDryNode(nodes, done, id);
    }
    var id :| id in nodes.Keys && id !in done;
    StuckMeansCycle(nodes, stuck, [id]);
  }

  lemma RanDryNode(nodes: Nodes, done: set<string>, id: string)
    requires WellLinked(nodes) && ReadyExactly(nodes, [], done, done)
    requires id in nodes && id !in done
    ensures WaitsWithin(nodes, nodes.Keys - done, id)
  {
    var none: seq<string> := [];
    assert id !in none && Waits(nodes, done)[id] != 0;
    MissingNone(nodes[id].dependencies, done);
    var d :| d in nodes[id].dependencies && d !in done;
    assert d in nodes.Keys - done && DependsOn(nodes, id, d);
  }

  /** One row's dependencies: its own count rises by their number, and each lists it as a child. */
  method CountOne(row: PlanNode, ghost nodes: Nodes, indegree: map<string, int>, children: map<string, seq<string>>)
    returns (indegree': map<string, int>, children': map<string, seq<string>>)
    requires indegree.Keys == nodes.Keys && children.Keys == nodes.Keys
    requires row.nodeId in nodes && !HasRepeat(row.dependencies)
    requires forall d :: d in row.dependencies ==> d in nodes
    ensures indegree' == indegree[row.nodeId := indegree[row.nodeId] + |row.dependencies|]
    ensures children'.Keys == nodes.Keys
    ensures forall d :: d in nodes ==>
      children'[d] == children[d] + if d in row.dependencies then [row.nodeId] else []
  {
    HasRepeatFinds(row.dependencies);
    indegree', children' := indegree, children;
    for i := 0 to |row.dependencies|
      invariant indegree' == indegree[row.nodeId := indegree[row.nodeId] + i]
      invariant children'.Keys == nodes.Keys
      invariant forall d :: d in nodes ==>
        children'[d] == children[d] + if d in row.dependencies[..i] then [row.nodeId] else []
    {
      var dep := row.dependencies[i];
      assert dep in row.dependencies && dep !in row.dependencies[..i];
      assert row.dependencies[..i + 1] == row.dependencies[..i] + [dep];
      indegree' := indegree'[row.nodeId := indegree'[row.nodeId] + 1];
      children' := children'[dep := children'[dep] + [row.nodeId]];
    }
    assert row.dependencies[..|row.dependencies|] == row.dependencies;
  }

  /** The counts and child lists the pass starts from. */
  method CountDependencies(rows: seq<PlanNode>, nodes: Nodes)
    returns (indegree: map<string, int>, children: map<string, seq<string>>)
    requires RowsIn(rows, nodes) && WellLinked(nodes) && NoRepeats(nodes)
    ensures CountedTo(rows, nodes, |rows|, indegree) && ListedTo(rows, nodes, |rows|, children)
  {
    indegree := map id | id in nodes :: 0;
    children := map id | id in nodes :: [];
    for i := 0 to |rows|
      invariant CountedTo(rows, nodes, i, indegree) && ListedTo(rows, nodes, i, children)
    {
      ghost var before, lists := indegree, children;
      indegree, children := CountOne(rows[i], nodes, indegree, children);
      CountedNext(rows, nodes, i, before, indegree);
      ListedNext(rows, nodes, i, lists, children);
    }
  }

  lemma CountedAll(rows: seq<PlanNode>, nodes: Nodes, indegree: map<string, int>, children: map<string, seq<string>>)
    requires Indexes(rows, nodes)
    requires CountedTo(rows, nodes, |rows|, indegree) && ListedTo(rows, nodes, |rows|, children)
    ensures indegree == Waits(nodes, {}) && ChildLists(nodes, children)
  {
    assert rows[..|rows|] == rows;
    CountsAreWaits(rows, nodes, indegree);
    DependentsAreChildren(rows, nodes, children);
  }

  /** The counts when the first `i` rows have been read. */
  ghost predicate CountedTo(rows: seq<PlanNode>, nodes: Nodes, i: nat, indegree: map<string, int>)
    requires RowsIn(rows, nodes)
  {
    indegree.Keys == nodes.Keys &&
    forall j :: 0 <= j < |rows| ==> indegree[rows[j].nodeId] == if j < i then |rows[j].dependencies| else 0
  }

  ghost predicate ListedTo(rows: seq<PlanNode>, nodes: Nodes, i: nat, children: map<string, seq<string>>)
    requires i <= |rows|
  {
    children.Keys == nodes.Keys && forall d :: d in nodes ==> children[d] == Dependents(rows[..i], d)
  }

  lemma CountedNext(rows: seq<PlanNode>, nodes: Nodes, i: nat, indegree: map<string, int>, indegree': map<string, int>)
    requires RowsIn(rows, nodes) && i < |rows| && CountedTo(rows, nodes, i, indegree)
    requires indegree' == indegree[rows[i].nodeId := indegree[rows[i].nodeId] + |rows[i].dependencies|]
    ensures CountedTo(rows, nodes, i + 1, indegree')
  {
  }

  lemma ListedNext(rows: seq<PlanNode>, nodes: Nodes, i: nat, children: map<string, seq<string>>,
                   children': map<string, seq<string>>)
    requires i < |rows| && ListedTo(rows, nodes, i, children) && children'.Keys == nodes.Keys
    requires forall d :: d in nodes ==>
      children'[d] == children[d] + if d in rows[i].dependencies then [rows[i].nodeId] else []
    ensures ListedTo(rows, nodes, i + 1, children')
  {
    assert rows[..i + 1][..i] == rows[..i];
  }

  lemma CountsAreWaits(rows: seq<PlanNode>, nodes: Nodes, indegree: map<string, int>)
    requires Indexes(rows, nodes) && indegree.Keys == nodes.Keys
    requires forall j :: 0 <= j < |rows| ==> indegree[rows[j].nodeId] == |rows[j].dependencies|
    ensures indegree == Waits(nodes, {})
  {
    forall id | id in nodes ensures indegree[id] == Missing(nodes[id].dependencies, {}) {
      MissingAll(nodes[id].dependencies);
      assert nodes[id] in rows;
    }
  }

  lemma DependentsAreChildren(rows: seq<PlanNode>, nodes: Nodes, children: map<string, seq<string>>)
    requires Indexes(rows, nodes) && children.Keys == nodes.Keys
    requires forall d :: d in nodes ==> children[d] == Dependents(rows, d)
    ensures ChildLists(nodes, children)
  {
    forall d | d in nodes
      ensures Distinct(children[d]) && forall id :: id in children[d] <==> id in nodes && d in nodes[id].dependencies
    {
      DependentsSpec(rows, d);
      forall id | id in nodes && d in nodes[id].dependencies ensures id in children[d] {
        assert nodes[id] in rows;
      }
    }
  }

  /** The row checks, in row order; the first complaint wins. */
  method CheckLinks(rows: seq<PlanNode>, nodes: Nodes) returns (error: Option<PlanError>)
    ensures error == LinkError(rows, nodes)
  {
    for i := 0 to |rows|
      invariant LinkError(rows, nodes) == LinkError(rows[i..], nodes)
    {
      var node := rows[i];
      assert rows[i..][0] == node && rows[i..][1..] == rows[i + 1..];
      for j := 0 to |node.dependencies|
        invariant forall d :: d in node.dependencies[..j] ==> d in nodes
      {
        assert node.dependencies[..j + 1] == node.dependencies[..j] + [node.dependencies[j]];
        if node.dependencies[j] !in nodes {
          return Some(UnknownDependency);
        }
      }
      assert node.dependencies[..|node.dependencies|] == node.dependencies;
      if node.parentId.Some? && node.parentId.value !in node.dependencies {
        return Some(ParentDependencyRequired);
      }
    }
    error := None;
  }

  /** The ids of the rows that wait for nothing, in row order. */
  function ZeroDegree(rows: seq<PlanNode>, indegree: map<string, int>): seq<string>
    requires forall i :: 0 <= i < |rows| ==> rows[i].nodeId in indegree
  {
    if rows == [] then []
    else (if indegree[rows[0].nodeId] == 0 then [rows[0].nodeId] else []) + ZeroDegree(rows[1..], indegree)
  }

  lemma {:induction false} ZeroDegreeSpec(rows: seq<PlanNode>, indegree: map<string, int>)
    requires forall i :: 0 <= i < |rows| ==> rows[i].nodeId in indegree
    requires DistinctIds(rows)
    ensures Distinct(ZeroDegree(rows, indegree))
    ensures forall id :: id in ZeroDegree(rows, indegree) ==> id in indegree && indegree[id] == 0
    ensures forall i :: 0 <= i < |rows| && indegree[rows[i].nodeId] == 0 ==>
      rows[i].nodeId in ZeroDegree(rows, indegree)
    ensures forall id :: id in ZeroDegree(rows, indegree) ==> exists i :: 0 <= i < |rows| && rows[i].nodeId == id
  {
    if rows == [] {
    } else {
      var rest := rows[1..];
      assert forall i :: 0 <= i < |rest| ==> rest[i] == rows[i + 1];
      ZeroDegreeSpec(rest, indegree);
      forall i | 0 < i < |rows| && indegree[rows[i].nodeId] == 0 ensures rows[i].nodeId in ZeroDegree(rows, indegree) {
        assert rest[i - 1].nodeId in ZeroDegree(rest, indegree);
      }
      forall id | id in ZeroDegree(rest, indegree) ensures exists i :: 0 <= i < |rows| && rows[i].nodeId == id {
        var i :| 0 <= i < |rest| && rest[i].nodeId == id;
        assert rows[i + 1].nodeId == id;
      }
      assert rows[0].nodeId !in ZeroDegree(rest, indegree);
    }
  }

  /** The whole pass: waves come out exactly when the links are sound and no dependency cycle
      exists, and then they are the wave plan. */
  method ValidateDependencies(rows: seq<PlanNode>, nodes: Nodes) returns (r: Result<seq<seq<string>>, PlanError>)
    requires Indexes(rows, nodes) && BasicsHold(rows)
    ensures r.Ok? <==> WellLinked(nodes) && !Cyclic(nodes)
    ensures r.Ok? ==> IsWavePlan(nodes, r.value)
    ensures r == Err(DependencyCycle) <==> WellLinked(nodes) && Cyclic(nodes)
    ensures r.Err? && r.error != DependencyCycle ==> exists i :: FirstUnlinked(rows, nodes, i, r.error)
  {
    WellLinkedByRows(rows, nodes);
    LinkErrorSpec(rows, nodes);
    var links := CheckLinks(rows, nodes);
    if links.Some? {
      return Err(links.value);
    }
    r := WavePass(rows, nodes);
  }

  /** Wave after wave of well-linked nodes, until none is ready. */
  method WavePass(rows: seq<PlanNode>, nodes: Nodes) returns (r: Result<seq<seq<string>>, PlanError>)
    requires Indexes(rows, nodes) && BasicsHold(rows) && WellLinked(nodes)
    ensures r.Ok? ==> !Cyclic(nodes) && IsWavePlan(nodes, r.value)
    ensures r.Err? ==> Cyclic(nodes) && r.error == DependencyCycle
  {
    BasicsMeanNoRepeats(rows, nodes);
    var indegree, children := CountDependencies(rows, nodes);
    CountedAll(rows, nodes, indegree, children);
    var current := SortStrings(ZeroDegree(rows, indegree));
    PassStart(rows, nodes, indegree);
    var waves: seq<seq<string>> := [];
    var visited: nat := 0;
    ghost var level: map<string, nat> := map[];
    while current != []
      invariant PassState(nodes, waves, level, current, indegree, visited)
      decreases nodes.Keys - level.Keys
    {
      var next: seq<string>;
      indegree, next := ReleaseWave(nodes, children, current, level.Keys, indegree);
      PassStep(nodes, waves, level, current, visited, indegree, next);
      level := AddWave(waves, level, current);
      waves := waves + [current];
      visited := visited + |current|;
      current := SortStrings(next);
    }
    PassEnd(nodes, waves, level, indegree, visited);
    if visited != |nodes| {
      return Err(DependencyCycle);
    }
    r := Ok(waves);
  }

  lemma BasicsMeanNoRepeats(rows: seq<PlanNode>, nodes: Nodes)
    requires Indexes(rows, nodes) && BasicsHold(rows)
    ensures NoRepeats(nodes)
  {
    forall id | id in nodes ensures !HasRepeat(nodes[id].dependencies) {
      assert nodes[id] in rows;
      HasRepeatFinds(nodes[id].dependencies);
    }
  }

  lemma PassStart(rows: seq<PlanNode>, nodes: Nodes, indegree: map<string, int>)
    requires Indexes(rows, nodes) && indegree == Waits(nodes, {})
    ensures PassState(nodes, [], map[], SortStrings(ZeroDegree(rows, indegree)), indegree, 0)
  {
    var level: map<string, nat> := map[];
    assert level.Keys == {};
    var zero := ZeroDegree(rows, indegree);
    ZeroDegreeSpec(rows, indegree);
    SortStringsSpec(zero);
    forall id | id in nodes && indegree[id] == 0 ensures id in zero {
      assert nodes[id] in rows;
    }
    forall id | id in zero ensures forall d :: d in nodes[id].dependencies ==> d in level {
      MissingNone(nodes[id].dependencies, {});
    }
  }

  /** Where the pass stands between two waves. */
  ghost predicate PassState(nodes: Nodes, waves: seq<seq<string>>, level: map<string, nat>, current: seq<string>,
                            indegree: map<string, int>, visited: nat) {
    && Recorded(nodes, waves, level) && visited == |Flatten(waves)|
    && Closed(nodes, level.Keys) && indegree == Waits(nodes, level.Keys)
    && ReadyExactly(nodes, current, level.Keys, level.Keys)
    && FollowsLastWave(nodes, waves, level, current) && SortedBy(StrLe, current)
  }

  lemma PassStep(nodes: Nodes, waves: seq<seq<string>>, level: map<string, nat>, current: seq<string>, visited: nat,
                 indegree: map<string, int>, next: seq<string>)
    requires PassState(nodes, waves, level, current, Waits(nodes, level.Keys), visited) && current != []
    requires indegree == Waits(nodes, level.Keys + Elements(current))
    requires ReadyExactly(nodes, next, level.Keys + Elements(current), level.Keys + Elements(current))
    ensures PassState(nodes, waves + [current], AddWave(waves, level, current), SortStrings(next), indegree,
                      visited + |current|)
    ensures nodes.Keys - AddWave(waves, level, current).Keys < nodes.Keys - level.Keys
  {
    RecordWave(nodes, waves, level, current);
    NextFollows(nodes, waves, level, current, next);
    AddWaveKeys(waves, level, current);
    SortStringsSpec(next);
    ReadyWaitsForNothing(nodes, current, level.Keys, level.Keys);
    assert current[0] in current && current[0] in nodes;
  }

  /** When no wave is left, the count of visited nodes tells an acyclic graph from a cyclic one. */
  lemma PassEnd(nodes: Nodes, waves: seq<seq<string>>, level: map<string, nat>, indegree: map<string, int>,
                visited: nat)
    requires WellLinked(nodes) && PassState(nodes, waves, level, [], indegree, visited)
    ensures visited == |nodes| <==> !Cyclic(nodes)
    ensures visited == |nodes| ==> IsWavePlan(nodes, waves)
  {
    DistinctSize(Flatten(waves));
    assert Elements(Flatten(waves)) == level.Keys;
    if visited == |nodes| {
      SameSizeSubset(level.Keys, nodes.Keys);
      RecordedAll(nodes, waves, level);
    } else {
      RanDry(nodes, level.Keys);
    }
  }

  lemma SameSizeSubset(s: set<string>, t: set<string>)
    requires s <= t && |s| == |t|
    ensures s == t
  {
    if s != t {
      var x :| x in t && x !in s;
      assert s <= t - {x};
      SubsetSize(s, t - {x});
    }
  }

  lemma {:induction false} SubsetSize(s: set<string>, t: set<string>)
    requires s <= t
    ensures |s| <= |t|
  {
    assert t == s + (t - s);
  }
}
