/** The project truth graph: dependency trouble spreads until nothing changes. */
module TruthGraph {
  import opened Prelude
  import opened Evidence

  type Decisions = map<string, Decision>

  predicate Blocked(s: State) {
    s == Hold || s == Failed
  }

  /** A dependency nobody can build on: missing, held, failed or unverified. */
  predicate Unready(d: Decisions, project: string) {
    project !in d || Blocked(d[project].status) || d[project].status == Unverified
  }

  // ---- The decisions before propagation --------------------------------------------------

  ghost predicate Observed(items: seq<Observation>, project: string) {
    exists i :: 0 <= i < |items| && items[i].project == project
  }

  /** Two observations are about this project. */
  ghost predicate Conflicting(items: seq<Observation>, project: string) {
    exists i, j :: 0 <= i < j < |items| && items[i].project == project && items[j].project == project
  }

  /** Every observed project has a decision: on hold if its observations conflict, else what its evidence earns. */
  ghost predicate Initial(items: seq<Observation>, w: World, d: Decisions) {
    && (forall p :: p in d <==> Observed(items, p))
    && (forall p :: p in d && Conflicting(items, p) ==> d[p] == OnHold(ConflictingProjectObservations))
    && (forall i :: 0 <= i < |items| && items[i].project in d && !Conflicting(items, items[i].project) ==>
          d[items[i].project] == Judged(items[i], w))
  }

  function CountOf(items: seq<Observation>, project: string): nat {
    if items == [] then 0
    else CountOf(items[..|items| - 1], project) + if items[|items| - 1].project == project then 1 else 0
  }

  lemma {:induction false} CountOfSpec(items: seq<Observation>, project: string)
    ensures CountOf(items, project) > 0 <==> Observed(items, project)
    ensures CountOf(items, project) > 1 <==> Conflicting(items, project)
  {
    if items == [] {
    } else {
      var k := |items| - 1;
      CountOfSpec(items[..k], project);
      ObservedGrows(items, k, project);
      ConflictsGrow(items, k, project);
      assert project in Projects(items[..k]) <==> Observed(items[..k], project);
    }
  }

  lemma ObservedGrows(items: seq<Observation>, k: nat, project: string)
    requires |items| == k + 1
    ensures Observed(items, project) <==> Observed(items[..k], project) || items[k].project == project
  {
    if Observed(items[..k], project) {
      var i :| 0 <= i < k && items[..k][i].project == project;
      assert items[i].project == project;
    }
    if i :| 0 <= i < |items| && items[i].project == project {
      assert i < k ==> items[..k][i].project == project;
    }
  }

  function Projects(items: seq<Observation>): set<string> {
    set i | 0 <= i < |items| :: items[i].project
  }

  /** As many projects as observations: no conflict. */
  lemma {:induction false} NoConflictByCount(items: seq<Observation>)
    ensures |Projects(items)| <= |items|
    ensures |Projects(items)| == |items| <==> forall p :: !Conflicting(items, p)
  {
    if items == [] {
      assert Projects(items) == {};
    } else {
      var k := |items| - 1;
      NoConflictByCount(items[..k]);
      ProjectsGrow(items, k);
      forall q ensures Conflicting(items, q) <==>
        Conflicting(items[..k], q) || (q == items[k].project && q in Projects(items[..k]))
      {
        ConflictsGrow(items, k, q);
      }
    }
  }

  lemma ProjectsGrow(items: seq<Observation>, k: nat)
    requires |items| == k + 1
    ensures Projects(items) == Projects(items[..k]) + {items[k].project}
  {
  }

  /** One more observation conflicts with those before it exactly when its project has been observed. */
  lemma ConflictsGrow(items: seq<Observation>, k: nat, q: string)
    requires |items| == k + 1
    ensures Conflicting(items, q) <==>
      Conflicting(items[..k], q) || (q == items[k].project && q in Projects(items[..k]))
  {
    var init := items[..k];
    assert forall i :: 0 <= i < k ==> init[i] == items[i];
    if Conflicting(items, q) {
      var i, j :| 0 <= i < j < |items| && items[i].project == q && items[j].project == q;
      assert init[i].project == q;
      assert j < k ==> init[j].project == q;
    }
    if Conflicting(init, q) {
      var i, j :| 0 <= i < j < k && init[i].project == q && init[j].project == q;
      assert items[i].project == q && items[j].project == q;
    }
    if q in Projects(init) && q == items[k].project {
      var i :| 0 <= i < k && init[i].project == q;
      assert items[i].project == q && items[k].project == q;
    }
  }

  /** The projects decided in the first pass are exactly the conflicting ones. */
  ghost predicate ConflictsHeld(items: seq<Observation>, d: Decisions) {
    forall p :: (p in d <==> Conflicting(items, p)) && (p in d ==> d[p] == OnHold(ConflictingProjectObservations))
  }

  method HoldConflicts(items: seq<Observation>) returns (d: Decisions)
    ensures ConflictsHeld(items, d)
  {
    d := map[];
    NoConflictByCount(items);
    if |Projects(items)| != |items| {
      for i := 0 to |items|
        invariant forall p :: p in d ==> Conflicting(items, p) && d[p] == OnHold(ConflictingProjectObservations)
        invariant forall j :: 0 <= j < i && Conflicting(items, items[j].project) ==> items[j].project in d
      {
        CountOfSpec(items, items[i].project);
        if CountOf(items, items[i].project) > 1 {
          d := d[items[i].project := OnHold(ConflictingProjectObservations)];
        }
      }
    }
  }

  /** Conflicting projects first, then every project without a decision yet by its own evidence. */
  method DecideAll(items: seq<Observation>, w: World) returns (d: Decisions)
    ensures Initial(items, w, d)
  {
    d := HoldConflicts(items);
    ghost var held := d;
    for i := 0 to |items|
      invariant forall p :: p in held ==> p in d && d[p] == held[p]
      invariant forall p :: p in d && p !in held ==> exists j :: 0 <= j < i && items[j].project == p
      invariant forall j :: 0 <= j < i ==> Settled(items[j], w, held, d)
    {
      if items[i].project !in d {
        var own := DecideEvidence(items[i], w);
        d := d[items[i].project := own];
      }
    }
    DecidedIsInitial(items, w, held, d);
  }

  /** The item's project has a decision: its own unless it was held before. */
  ghost predicate Settled(item: Observation, w: World, held: Decisions, d: Decisions) {
    item.project in d && (item.project !in held ==> d[item.project] == Judged(item, w))
  }

  lemma DecidedIsInitial(items: seq<Observation>, w: World, held: Decisions, d: Decisions)
    requires ConflictsHeld(items, held) && forall p :: p in held ==> p in d && d[p] == held[p]
    requires forall p :: p in d && p !in held ==> exists j :: 0 <= j < |items| && items[j].project == p
    requires forall j :: 0 <= j < |items| ==> Settled(items[j], w, held, d)
    ensures Initial(items, w, d)
  {
    forall p | Conflicting(items, p) ensures Observed(items, p) {
    }
  }

  // ---- Propagation -----------------------------------------------------------------------

  /** The first dependency that is not ready. */
  function FirstUnready(d: Decisions, dependencies: seq<string>): (r: Option<string>)
    ensures r.Some? ==> r.value in dependencies && Unready(d, r.value)
    ensures r.None? <==> forall q :: q in dependencies ==> !Unready(d, q)
  {
    if dependencies == [] then None
    else if Unready(d, dependencies[0]) then Some(dependencies[0])
    else FirstUnready(d, dependencies[1..])
  }

  /** One project in one sweep: held for its first unready dependency, unless it is blocked already. */
  function Visit(d: Decisions, item: Observation): Decisions {
    if item.project !in d || Blocked(d[item.project].status) then d
    else
      var blamed := FirstUnready(d, item.dependencies);
      if blamed.None? then d else d[item.project := Decision(Hold, DependencyNotReady, blamed)]
  }

  /** One sweep, in the order of the observations; each project sees what the sweep has already changed. */
  function Sweep(items: seq<Observation>, d: Decisions): Decisions {
    if items == [] then d else Visit(Sweep(items[..|items| - 1], d), items[|items| - 1])
  }

  function Open(d: Decisions): set<string> {
    set p | p in d && !Blocked(d[p].status)
  }

  lemma {:induction false} SweepCloses(items: seq<Observation>, d: Decisions)
    ensures Open(Sweep(items, d)) <= Open(d) && Sweep(items, d).Keys == d.Keys
    ensures Sweep(items, d) != d ==> |Open(Sweep(items, d))| < |Open(d)|
    ensures forall p :: p in d && (Blocked(d[p].status) || Sweep(items, d)[p].status == d[p].status) ==>
      Sweep(items, d)[p] == d[p]
  {
    if items == [] {
    } else {
      SweepCloses(items[..|items| - 1], d);
      VisitCloses(Sweep(items[..|items| - 1], d), items[|items| - 1]);
    }
  }

  lemma VisitCloses(d: Decisions, item: Observation)
    ensures Open(Visit(d, item)) <= Open(d) && Visit(d, item).Keys == d.Keys
    ensures Visit(d, item) != d ==> |Open(Visit(d, item))| < |Open(d)|
    ensures forall p :: p in d && (Blocked(d[p].status) || Visit(d, item)[p].status == d[p].status) ==>
      Visit(d, item)[p] == d[p]
  {
    if Visit(d, item) != d {
      assert Open(Visit(d, item)) == Open(d) - {item.project};
    }
  }

  /** Sweeping until a sweep changes nothing. */
  function Settle(items: seq<Observation>, d: Decisions): (r: Decisions)
    ensures r.Keys == d.Keys
    decreases |Open(d)|
  {
    SweepCloses(items, d);
    if Sweep(items, d) == d then d else Settle(items, Sweep(items, d))
  }

  /** One pass over the observations, in place. */
  method SweepOnce(items: seq<Observation>, before: Decisions) returns (d: Decisions, changed: bool)
    requires forall i :: 0 <= i < |items| ==> items[i].project in before
    ensures d == Sweep(items, before) && d.Keys == before.Keys && (changed <==> d != before)
    ensures changed ==> |Open(d)| < |Open(before)|
  {
    d, changed := before, false;
    for i := 0 to |items|
      invariant d == Sweep(items[..i], before) && d.Keys == before.Keys
      invariant changed <==> d != before
      invariant Open(d) <= Open(before) && (changed ==> |Open(d)| < |Open(before)|)
    {
      assert items[..i + 1][..i] == items[..i];
      VisitCloses(d, items[i]);
      if !Blocked(d[items[i].project].status) {
        var blamed := FirstUnready(d, items[i].dependencies);
        if blamed.Some? {
          d := d[items[i].project := Decision(Hold, DependencyNotReady, blamed)];
          changed := true;
        }
      }
    }
    assert items[..|items|] == items;
  }

  method Propagate(items: seq<Observation>, initial: Decisions) returns (d: Decisions)
    requires forall i :: 0 <= i < |items| ==> items[i].project in initial
    ensures d == Settle(items, initial)
  {
    d := initial;
    var changed := true;
    while changed
      invariant forall i :: 0 <= i < |items| ==> items[i].project in d
      invariant Settle(items, initial) == Settle(items, d)
      invariant !changed ==> Sweep(items, d) == d
      decreases |Open(d)|, changed
    {
      d, changed := SweepOnce(items, d);
    }
  }

  // ---- Propagation is reachability -------------------------------------------------------

  ghost predicate DependsOn(items: seq<Observation>, p: string, q: string) {
    exists i :: 0 <= i < |items| && items[i].project == p && q in items[i].dependencies
  }

  /** A path of one or more dependency edges. */
  ghost predicate IsPath(items: seq<Observation>, path: seq<string>) {
    |path| >= 2 && forall i, j :: 0 <= i && j == i + 1 && j < |path| ==> DependsOn(items, path[i], path[j])
  }

  /** A path of dependencies leads from `p` to a project that was not ready before propagation. */
  ghost predicate Doomed(items: seq<Observation>, d: Decisions, p: string) {
    exists path :: IsPath(items, path) && path[0] == p && Unready(d, path[|path| - 1])
  }

  /** What propagation makes of `d`: blocked projects stay as they are; an open project is held exactly when it is
      doomed, blaming one of its own dependencies that is not ready in the end; the others stay as they are. */
  ghost predicate Propagated(items: seq<Observation>, d: Decisions, r: Decisions) {
    && r.Keys == d.Keys
    && forall p :: p in d ==>
         if Blocked(d[p].status) || !Doomed(items, d, p) then r[p] == d[p]
         else r[p].status == Hold && r[p].reason == DependencyNotReady && r[p].dependency.Some?
              && DependsOn(items, p, r[p].dependency.value) && Unready(r, r[p].dependency.value)
  }

  /** Half of it, kept by every step: only doomed projects are touched. */
  ghost predicate OnlyDoomed(items: seq<Observation>, d: Decisions, r: Decisions) {
    && r.Keys == d.Keys
    && forall p :: p in d && r[p] != d[p] ==>
         && !Blocked(d[p].status) && Doomed(items, d, p)
         && r[p].status == Hold && r[p].reason == DependencyNotReady && r[p].dependency.Some?
         && DependsOn(items, p, r[p].dependency.value) && Unready(r, r[p].dependency.value)
  }

  lemma PathStep(items: seq<Observation>, d: Decisions, p: string, q: string)
    requires DependsOn(items, p, q) && (Unready(d, q) || Doomed(items, d, q))
    ensures Doomed(items, d, p)
  {
    if Unready(d, q) {
      assert IsPath(items, [p, q]);
    } else {
      var path :| IsPath(items, path) && path[0] == q && Unready(d, path[|path| - 1]);
      var longer := [p] + path;
      forall i, j | 0 <= i && j == i + 1 && j < |longer| ensures DependsOn(items, longer[i], longer[j]) {
        if i > 0 {
          assert DependsOn(items, path[i - 1], path[j - 1]);
        }
      }
      assert IsPath(items, longer);
    }
  }

  lemma VisitKeeps(items: seq<Observation>, d: Decisions, r: Decisions, item: Observation)
    requires OnlyDoomed(items, d, r) && item in items
    ensures OnlyDoomed(items, d, Visit(r, item))
  {
    var p, r' := item.project, Visit(r, item);
    if r' != r {
      var q := FirstUnready(r, item.dependencies).value;
      assert DependsOn(items, p, q);
      assert Unready(d, q) || Doomed(items, d, q);
      PathStep(items, d, p, q);
      assert forall x :: Unready(r, x) ==> Unready(r', x);
    }
  }

  lemma {:induction false} SweepKeeps(all: seq<Observation>, items: seq<Observation>, d: Decisions, r: Decisions)
    requires OnlyDoomed(all, d, r) && forall item :: item in items ==> item in all
    ensures OnlyDoomed(all, d, Sweep(items, r))
  {
    if items == [] {
    } else {
      SweepKeeps(all, items[..|items| - 1], d, r);
      VisitKeeps(all, d, Sweep(items[..|items| - 1], r), items[|items| - 1]);
    }
  }

  lemma {:induction false} SettleKeeps(items: seq<Observation>, d: Decisions, r: Decisions)
    requires OnlyDoomed(items, d, r)
    ensures OnlyDoomed(items, d, Settle(items, r)) && Sweep(items, Settle(items, r)) == Settle(items, r)
    decreases |Open(r)|
  {
    SweepCloses(items, r);
    if Sweep(items, r) != r {
      SweepKeeps(items, items, d, r);
      SettleKeeps(items, d, Sweep(items, r));
    }
  }

  /** In a sweep that changes nothing, every visit changes nothing. */
  lemma {:induction false} StillSweep(items: seq<Observation>, d: Decisions, i: nat)
    requires Sweep(items, d) == d && i < |items|
    ensures Visit(d, items[i]) == d
    decreases |items|
  {
    var k := |items| - 1;
    SweepCloses(items[..k], d);
    VisitCloses(Sweep(items[..k], d), items[k]);
    if i < k {
      StillSweep(items[..k], d, i);
    }
  }

  /** Where nothing moves any more, an observed project at the head of a path to trouble is blocked. */
  lemma {:induction false} PathIsBlocked(items: seq<Observation>, r: Decisions, path: seq<string>)
    requires Sweep(items, r) == r && IsPath(items, path) && Unready(r, path[|path| - 1])
    requires forall i :: 0 <= i < |items| ==> items[i].project in r
    ensures path[0] in r && Blocked(r[path[0]].status)
  {
    if |path| > 2 {
      var rest := path[1..];
      forall i, j | 0 <= i && j == i + 1 && j < |rest| ensures DependsOn(items, rest[i], rest[j]) {
        assert DependsOn(items, path[i + 1], path[j + 1]);
      }
      PathIsBlocked(items, r, rest);
    }
    assert DependsOn(items, path[0], path[1]) && Unready(r, path[1]);
    var i :| 0 <= i < |items| && items[i].project == path[0] && path[1] in items[i].dependencies;
    StillSweep(items, r, i);
  }

  /** Propagation is reachability. */
  lemma SettleIsReachability(items: seq<Observation>, d: Decisions)
    requires forall i :: 0 <= i < |items| ==> items[i].project in d
    ensures Propagated(items, d, Settle(items, d))
  {
    var r := Settle(items, d);
    SettleKeeps(items, d, d);
    forall p | p in d && !Blocked(d[p].status) && Doomed(items, d, p) ensures r[p] != d[p] {
      var path :| IsPath(items, path) && path[0] == p && Unready(d, path[|path| - 1]);
      assert Unready(r, path[|path| - 1]);
      PathIsBlocked(items, r, path);
    }
  }

  /** Final statuses do not depend on the order of the observations. */
  lemma StatusesIgnoreOrder(items: seq<Observation>, items': seq<Observation>, w: World, d: Decisions, d': Decisions)
    requires multiset(items) == multiset(items') && Initial(items, w, d) && Initial(items', w, d')
    ensures Settle(items, d).Keys == Settle(items', d').Keys
    ensures forall p :: p in Settle(items, d) ==> Settle(items, d)[p].status == Settle(items', d')[p].status
  {
    InitialIgnoresOrder(items, items', w, d, d');
    InitialCovers(items, w, d);
    InitialCovers(items', w, d');
    SettleIsReachability(items, d);
    SettleIsReachability(items', d');
    SameMultisetSameElements(items, items');
    SameStatuses(items, items', d, Settle(items, d), Settle(items', d'));
  }

  lemma InitialCovers(items: seq<Observation>, w: World, d: Decisions)
    requires Initial(items, w, d)
    ensures forall i :: 0 <= i < |items| ==> items[i].project in d
  {
    forall i | 0 <= i < |items| ensures items[i].project in d {
      assert Observed(items, items[i].project);
    }
  }

  lemma SameStatuses(items: seq<Observation>, items': seq<Observation>, d: Decisions, r: Decisions, r': Decisions)
    requires Propagated(items, d, r) && Propagated(items', d, r')
    requires forall x :: x in items <==> x in items'
    ensures r.Keys == r'.Keys && forall p :: p in r ==> r[p].status == r'[p].status
  {
    forall p | p in d ensures r[p].status == r'[p].status {
      SameStatus(items, items', d, r, r', p);
    }
  }

  lemma SameStatus(items: seq<Observation>, items': seq<Observation>, d: Decisions, r: Decisions, r': Decisions,
                   p: string)
    requires Propagated(items, d, r) && Propagated(items', d, r') && p in d
    requires forall x :: x in items <==> x in items'
    ensures r[p].status == r'[p].status
  {
    DoomIgnoresOrder(items, items', d, p);
    DoomIgnoresOrder(items', items, d, p);
  }

  lemma DoomIgnoresOrder(items: seq<Observation>, items': seq<Observation>, d: Decisions, p: string)
    requires forall x :: x in items ==> x in items'
    ensures Doomed(items, d, p) ==> Doomed(items', d, p)
  {
    if Doomed(items, d, p) {
      var path :| IsPath(items, path) && path[0] == p && Unready(d, path[|path| - 1]);
      forall i, j | 0 <= i && j == i + 1 && j < |path| ensures DependsOn(items', path[i], path[j]) {
        assert DependsOn(items, path[i], path[j]);
        var k :| 0 <= k < |items| && items[k].project == path[i] && path[j] in items[k].dependencies;
        assert items[k] in items';
      }
      assert IsPath(items', path);
    }
  }

  lemma {:induction false} CountByMultiset(items: seq<Observation>, items': seq<Observation>, project: string)
    requires multiset(items) == multiset(items')
    ensures CountOf(items, project) == CountOf(items', project)
  {
    if items == [] {
      SameMultisetSameElements(items, items');
    } else {
      var k := |items| - 1;
      var last := items[k];
      SameMultisetSameElements(items, items');
      assert last in items';
      var j :| 0 <= j < |items'| && items'[j] == last;
      var rest := items'[..j] + items'[j + 1..];
      assert items' == items'[..j] + [last] + items'[j + 1..];
      WithoutLast(items, items', j);
      CountByMultiset(items[..k], rest, project);
      CountAppend(items'[..j], items'[j + 1..], project);
      CountAppend(items'[..j] + [last], items'[j + 1..], project);
      CountAppend(items'[..j], [last], project);
    }
  }

  lemma WithoutLast<T>(s: seq<T>, t: seq<T>, j: nat)
    requires s != [] && multiset(s) == multiset(t) && j < |t| && t[j] == s[|s| - 1]
    ensures multiset(s[..|s| - 1]) == multiset(t[..j] + t[j + 1..])
  {
    assert s == s[..|s| - 1] + [s[|s| - 1]];
    assert t == t[..j] + [s[|s| - 1]] + t[j + 1..];
    CancelOne(s[..|s| - 1], t[..j], t[j + 1..], s[|s| - 1]);
  }

  lemma CancelOne<T>(a: seq<T>, b: seq<T>, c: seq<T>, x: T)
    requires multiset(a + [x]) == multiset(b + [x] + c)
    ensures multiset(a) == multiset(b + c)
  {
    assert multiset(a + [x]) == multiset(a) + multiset{x};
    assert multiset(b + [x] + c) == multiset(b) + multiset{x} + multiset(c);
    assert multiset(a) == multiset(a + [x]) - multiset{x};
  }

  lemma {:induction false} CountAppend(a: seq<Observation>, b: seq<Observation>, project: string)
    ensures CountOf(a + b, project) == CountOf(a, project) + CountOf(b, project)
  {
    if b == [] {
      assert a + b == a;
    } else {
      var k := |b| - 1;
      assert (a + b)[..|a + b| - 1] == a + b[..k];
      CountAppend(a, b[..k], project);
    }
  }

  lemma InitialIgnoresOrder(items: seq<Observation>, items': seq<Observation>, w: World, d: Decisions, d': Decisions)
    requires multiset(items) == multiset(items') && Initial(items, w, d) && Initial(items', w, d')
    ensures d == d'
  {
    forall p ensures Observed(items, p) <==> Observed(items', p) {
      SameObserved(items, items', p);
    }
    assert d.Keys == d'.Keys;
    forall p | p in d ensures d[p] == d'[p] {
      SameDecision(items, items', w, d, d', p);
    }
  }

  lemma SameDecision(items: seq<Observation>, items': seq<Observation>, w: World, d: Decisions, d': Decisions,
                     p: string)
    requires multiset(items) == multiset(items') && Initial(items, w, d) && Initial(items', w, d') && p in d && p in d'
    ensures d[p] == d'[p]
  {
    SameObserved(items, items', p);
    var i :| 0 <= i < |items| && items[i].project == p;
    assert items[i] in multiset(items);
    assert items[i] in multiset(items');
    var j :| 0 <= j < |items'| && items'[j] == items[i];
    SameInitial(items, items', w, d, d', i, j);
  }

  lemma SameObserved(items: seq<Observation>, items': seq<Observation>, project: string)
    requires multiset(items) == multiset(items')
    ensures Observed(items, project) <==> Observed(items', project)
    ensures Conflicting(items, project) <==> Conflicting(items', project)
  {
    CountByMultiset(items, items', project);
    CountOfSpec(items, project);
    CountOfSpec(items', project);
  }

  lemma SameInitial(items: seq<Observation>, items': seq<Observation>, w: World, d: Decisions, d': Decisions, i: nat,
                    j: nat)
    requires Initial(items, w, d) && Initial(items', w, d') && i < |items| && j < |items'| && items[i] == items'[j]
    requires Conflicting(items, items[i].project) <==> Conflicting(items', items[i].project)
    requires items[i].project in d && items[i].project in d'
    ensures d[items[i].project] == d'[items[i].project]
  {
  }

  // ---- The blamed dependency does depend on the order ------------------------------------

  /** A project once held keeps its decision in every later sweep. */
  lemma {:induction false} HeldStays(items: seq<Observation>, d: Decisions, p: string)
    requires p in d && Blocked(d[p].status)
    ensures Settle(items, d)[p] == d[p]
    decreases |Open(d)|
  {
    SweepCloses(items, d);
    if Sweep(items, d) != d {
      HeldStays(items, Sweep(items, d), p);
    }
  }

  lemma SweepNext(items: seq<Observation>, x: Observation, d: Decisions)
    ensures Sweep(items + [x], d) == Visit(Sweep(items, d), x)
  {
    assert (items + [x])[..|items|] == items;
  }

  lemma ThreeVisits(x: Observation, y: Observation, z: Observation, d: Decisions)
    ensures Sweep([x, y, z], d) == Visit(Visit(Visit(d, x), y), z)
  {
    SweepNext([], x, d);
    SweepNext([x], y, d);
    SweepNext([x, y], z, d);
    assert [] + [x] == [x] && [x] + [y] == [x, y] && [x, y] + [z] == [x, y, z];
  }

  /** Project a needs b and c, b needs c, and c is held. Observed in the order a, b the blame for a falls on c;
      observed in the order b, a it falls on b. */
  lemma BlameFollowsOrder(a: Observation, b: Observation, c: Observation, w: World, d: Decisions)
    requires a.project != b.project && b.project != c.project && c.project != a.project
    requires a.dependencies == [b.project, c.project] && b.dependencies == [c.project]
    requires Earns(a, w) && Earns(b, w) && a.state == Verified && b.state == Verified && Judged(c, w).status == Hold
    requires Initial([c, a, b], w, d)
    ensures Initial([c, b, a], w, d)
    ensures a.project in d
    ensures Settle([c, a, b], d)[a.project].dependency == Some(c.project)
    ensures Settle([c, b, a], d)[a.project].dependency == Some(b.project)
  {
    ThreeProjects(a, b, c, w, d);
    Blames(a, b, c, d);
    var left, right := Sweep([c, a, b], d), Sweep([c, b, a], d);
    ThreeVisits(c, a, b, d);
    ThreeVisits(c, b, a, d);
    SweepCloses([c, a, b], d);
    SweepCloses([c, b, a], d);
    HeldAfter([c, a, b], d, a.project);
    HeldAfter([c, b, a], d, a.project);
  }

  lemma HeldAfter(items: seq<Observation>, d: Decisions, p: string)
    requires p in d && p in Sweep(items, d) && Blocked(Sweep(items, d)[p].status)
    ensures Settle(items, d)[p] == Sweep(items, d)[p]
  {
    SweepCloses(items, d);
    HeldStays(items, Sweep(items, d), p);
  }

  lemma Blames(a: Observation, b: Observation, c: Observation, d: Decisions)
    requires a.project != b.project && b.project != c.project && c.project != a.project
    requires a.dependencies == [b.project, c.project] && b.dependencies == [c.project]
    requires a.project in d && b.project in d && c.project in d
    requires d[a.project].status == Verified && d[b.project].status == Verified && d[c.project].status == Hold
    ensures
      var held := (q: string) => Decision(Hold, DependencyNotReady, Some(q));
      && Visit(d, c) == d
      && Visit(Visit(d, a), b) == d[a.project := held(c.project)][b.project := held(c.project)]
      && Visit(Visit(d, b), a) == d[b.project := held(c.project)][a.project := held(b.project)]
  {
    assert FirstUnready(d, a.dependencies) == Some(c.project) by {
      assert !Unready(d, a.dependencies[0]) && Unready(d, a.dependencies[1]);
      assert a.dependencies[1..] == [c.project];
    }
    assert FirstUnready(d, b.dependencies) == Some(c.project);
  }

  lemma ThreeProjects(a: Observation, b: Observation, c: Observation, w: World, d: Decisions)
    requires a.project != b.project && b.project != c.project && c.project != a.project
    requires Earns(a, w) && Earns(b, w) && Initial([c, a, b], w, d)
    ensures Initial([c, b, a], w, d)
    ensures a.project in d && b.project in d && c.project in d
    ensures d[a.project].status == a.state && d[b.project].status == b.state && d[c.project] == Judged(c, w)
  {
    var items := [c, a, b];
    NoneConflict(c, a, b);
    NoneConflict(c, b, a);
    assert items[0] == c && items[1] == a && items[2] == b;
    assert Observed(items, items[0].project) && Observed(items, items[1].project) && Observed(items, items[2].project);
    StandsWhenEarned(a, w);
    StandsWhenEarned(b, w);
    forall p ensures Observed([c, b, a], p) <==> Observed(items, p) {
      assert [c, b, a][0] == c && [c, b, a][1] == b && [c, b, a][2] == a;
      ObservedThree(c, a, b, p);
      ObservedThree(c, b, a, p);
    }
  }

  lemma ObservedThree(x: Observation, y: Observation, z: Observation, p: string)
    ensures Observed([x, y, z], p) <==> p == x.project || p == y.project || p == z.project
  {
    var items := [x, y, z];
    assert items[0] == x && items[1] == y && items[2] == z;
  }

  lemma NoneConflict(x: Observation, y: Observation, z: Observation)
    requires x.project != y.project && y.project != z.project && z.project != x.project
    ensures forall p :: !Conflicting([x, y, z], p)
  {
  }

  /** A concrete portfolio: c has no evidence, b needs c, a needs b and c; a and b have one good record each. */
  function GoodRecord(id: string, project: string): Record {
    Record(id, project, "o", "test", Pass, "s", 0, 0, "actor", true, false, false, Some("h"))
  }

  function ExampleWorld(): World {
    World(map["ea" := GoodRecord("ea", "a"), "eb" := GoodRecord("eb", "b")], Ledger(true, {"h"}), 0)
  }

  function ExampleA(): Observation {
    Observation("a", "o", Verified, ["ea"], 0, ["b", "c"], false)
  }

  function ExampleB(): Observation {
    Observation("b", "o", Verified, ["eb"], 0, ["c"], false)
  }

  function ExampleC(): Observation {
    Observation("c", "o", Verified, [], 0, [], false)
  }

  lemma ExampleEarns()
    ensures Earns(ExampleA(), ExampleWorld()) && Earns(ExampleB(), ExampleWorld())
    ensures Judged(ExampleC(), ExampleWorld()).status == Hold
  {
    assert "ea"[1] == 'a' && "eb"[1] == 'b';
    assert Supports(ExampleA(), "ea", ExampleWorld()) && Supports(ExampleB(), "eb", ExampleWorld());
    assert ExampleA().evidence[0] == "ea" && ExampleB().evidence[0] == "eb";
    assert SomeRecord(ExampleA(), ExampleWorld(), Independent) && SomeRecord(ExampleB(), ExampleWorld(), Independent);
  }

  /** The initial decisions of three projects without conflict. */
  function Three(x: Observation, y: Observation, z: Observation, w: World): Decisions {
    map[x.project := Judged(x, w), y.project := Judged(y, w), z.project := Judged(z, w)]
  }

  lemma ThreeIsInitial(x: Observation, y: Observation, z: Observation, w: World)
    requires x.project != y.project && y.project != z.project && z.project != x.project
    ensures Initial([x, y, z], w, Three(x, y, z, w))
  {
    NoneConflict(x, y, z);
    forall p ensures Observed([x, y, z], p) <==> p in Three(x, y, z, w) {
      ObservedThree(x, y, z, p);
    }
  }

  /** On the concrete portfolio the two orders blame differently. */
  lemma BlameFollowsOrderExample()
    ensures
      var a, b, c, w := ExampleA(), ExampleB(), ExampleC(), ExampleWorld();
      var d := Three(c, a, b, w);
      && Initial([c, a, b], w, d) && Initial([c, b, a], w, d)
      && Settle([c, a, b], d)["a"].dependency == Some("c") && Settle([c, b, a], d)["a"].dependency == Some("b")
  {
    var a, b, c, w := ExampleA(), ExampleB(), ExampleC(), ExampleWorld();
    assert "a"[0] == 'a' && "b"[0] == 'b' && "c"[0] == 'c';
    ExampleEarns();
    ThreeIsInitial(c, a, b, w);
    BlameFollowsOrder(a, b, c, w, Three(c, a, b, w));
  }

  // ---- Which dependency can be blamed ----------------------------------------------------

  /** A path of dependencies, possibly none, from its first project to one not ready before propagation. */
  ghost predicate Trace(items: seq<Observation>, d: Decisions, path: seq<string>) {
    && path != [] && Unready(d, path[|path| - 1])
    && forall i, j :: 0 <= i && j == i + 1 && j < |path| ==> DependsOn(items, path[i], path[j])
  }

  /** No project on the way, its end apart, is one of `avoided`. */
  ghost predicate Avoids(path: seq<string>, avoided: set<string>) {
    forall i :: 0 <= i < |path| - 1 ==> path[i] !in avoided
  }

  /** The project itself and the dependencies it lists before the `k`-th. */
  function Before(x: Observation, k: nat): set<string>
    requires k <= |x.dependencies|
  {
    (set q | q in x.dependencies[..k]) + {x.project}
  }

  /** What the observations must show for `q` to be blamed by the project of `x`: the dependencies listed before it
      were ready, and trouble can reach it by a way around the project and around those. */
  ghost predicate CanBlame(items: seq<Observation>, d: Decisions, x: Observation, q: string) {
    exists k: nat, path :: k < |x.dependencies| && x.dependencies[k] == q && IsWayTo(items, d, x, k, path)
  }

  ghost predicate IsWayTo(items: seq<Observation>, d: Decisions, x: Observation, k: nat, path: seq<string>) {
    && k < |x.dependencies| && Trace(items, d, path) && path[0] == x.dependencies[k]
    && Avoids(path, Before(x, k)) && forall e :: e in x.dependencies[..k] ==> !Unready(d, e)
  }

  // Whatever is blamed can be blamed.

  /** Whatever is not ready by now has a path to trouble through projects that became unready. */
  ghost predicate Traced(items: seq<Observation>, d: Decisions, r: Decisions) {
    forall s :: Unready(r, s) ==> exists path :: TraceOf(items, d, r, s, path)
  }

  ghost predicate TraceOf(items: seq<Observation>, d: Decisions, r: Decisions, s: string, path: seq<string>) {
    && Trace(items, d, path) && path[0] == s
    && forall i :: 0 <= i < |path| - 1 ==> Unready(r, path[i]) && !Unready(d, path[i])
  }

  /** The state of a sweep: traced, and the one observation `x` blames only what it can. */
  ghost predicate BlamesWell(items: seq<Observation>, d: Decisions, r: Decisions, x: Observation) {
    && r.Keys == d.Keys && Traced(items, d, r) && (forall s :: Unready(d, s) ==> Unready(r, s))
    && (x.project in r && r[x.project] != d[x.project] ==>
          Blocked(r[x.project].status) && r[x.project].dependency.Some?
          && CanBlame(items, d, x, r[x.project].dependency.value))
  }

  lemma TraceGrows(items: seq<Observation>, d: Decisions, r: Decisions, r': Decisions, s: string, path: seq<string>)
    requires TraceOf(items, d, r, s, path) && forall q :: Unready(r, q) ==> Unready(r', q)
    ensures TraceOf(items, d, r', s, path)
  {
  }

  lemma TraceStep(items: seq<Observation>, d: Decisions, r: Decisions, s: string, q: string, path: seq<string>)
    requires TraceOf(items, d, r, q, path) && DependsOn(items, s, q) && Unready(r, s) && !Unready(d, s)
    ensures TraceOf(items, d, r, s, [s] + path)
  {
    var longer := [s] + path;
    forall i, j | 0 <= i && j == i + 1 && j < |longer| ensures DependsOn(items, longer[i], longer[j]) {
      assert i > 0 ==> longer[i] == path[i - 1] && longer[j] == path[j - 1];
    }
    forall i | 0 <= i < |longer| - 1 ensures Unready(r, longer[i]) && !Unready(d, longer[i]) {
      assert i > 0 ==> longer[i] == path[i - 1];
    }
  }

  lemma VisitTraces(items: seq<Observation>, d: Decisions, r: Decisions, item: Observation)
    requires Traced(items, d, r) && item in items && (forall s :: Unready(d, s) ==> Unready(r, s))
    ensures Traced(items, d, Visit(r, item)) && forall s :: Unready(r, s) ==> Unready(Visit(r, item), s)
  {
    var r' := Visit(r, item);
    assert forall s :: Unready(r, s) ==> Unready(r', s);
    forall s | Unready(r', s) ensures exists path :: TraceOf(items, d, r', s, path) {
      if Unready(r, s) {
        var path :| TraceOf(items, d, r, s, path);
        TraceGrows(items, d, r, r', s, path);
      } else {
        var q := FirstUnready(r, item.dependencies).value;
        var path :| TraceOf(items, d, r, q, path);
        TraceGrows(items, d, r, r', q, path);
        assert DependsOn(items, s, q);
        TraceStep(items, d, r', s, q, path);
      }
    }
  }

  lemma FirstUnreadyAt(d: Decisions, deps: seq<string>) returns (k: nat)
    requires FirstUnready(d, deps).Some?
    ensures k < |deps| && FirstUnready(d, deps) == Some(deps[k]) && forall e :: e in deps[..k] ==> !Unready(d, e)
  {
    if Unready(d, deps[0]) {
      k := 0;
    } else {
      k := FirstUnreadyAt(d, deps[1..]);
      k := k + 1;
      assert deps[..k] == [deps[0]] + deps[1..][..k - 1];
    }
  }

  lemma BlamedCanBe(items: seq<Observation>, d: Decisions, r: Decisions, x: Observation)
    requires Traced(items, d, r) && (forall s :: Unready(d, s) ==> Unready(r, s))
    requires x.project in r && x.project in d && r[x.project] == d[x.project]
    requires FirstUnready(r, x.dependencies).Some?
    ensures CanBlame(items, d, x, FirstUnready(r, x.dependencies).value)
  {
    var k := FirstUnreadyAt(r, x.dependencies);
    var path :| TraceOf(items, d, r, x.dependencies[k], path);
    assert IsWayTo(items, d, x, k, path);
  }

  lemma VisitBlamesWell(items: seq<Observation>, d: Decisions, r: Decisions, x: Observation, item: Observation)
    requires BlamesWell(items, d, r, x) && item in items && (item.project == x.project ==> item == x)
    ensures BlamesWell(items, d, Visit(r, item), x)
  {
    VisitTraces(items, d, r, item);
    if item == x && Visit(r, x) != r && r[x.project] == d[x.project] {
      BlamedCanBe(items, d, r, x);
    }
  }

  lemma {:induction false} SweepBlamesWell(all: seq<Observation>, items: seq<Observation>, d: Decisions, r: Decisions,
                                           x: Observation)
    requires BlamesWell(all, d, r, x) && forall y :: y in items ==> y in all && (y.project == x.project ==> y == x)
    ensures BlamesWell(all, d, Sweep(items, r), x)
  {
    if items == [] {
    } else {
      SweepBlamesWell(all, items[..|items| - 1], d, r, x);
      VisitBlamesWell(all, d, Sweep(items[..|items| - 1], r), x, items[|items| - 1]);
    }
  }

  lemma {:induction false} SettleBlamesWell(items: seq<Observation>, d: Decisions, r: Decisions, x: Observation)
    requires BlamesWell(items, d, r, x) && forall y :: y in items ==> (y.project == x.project ==> y == x)
    ensures BlamesWell(items, d, Settle(items, r), x)
    decreases |Open(r)|
  {
    SweepCloses(items, r);
    if Sweep(items, r) == r {
    } else {
      SweepBlamesWell(items, items, d, r, x);
      SettleBlamesWell(items, d, Sweep(items, r), x);
    }
  }

  lemma StartsTraced(items: seq<Observation>, d: Decisions)
    ensures Traced(items, d, d)
  {
    forall s | Unready(d, s) ensures exists path :: TraceOf(items, d, d, s, path) {
      assert TraceOf(items, d, d, s, [s]);
    }
  }

  // Whatever can be blamed is blamed under some order.

  /** `pre` are observations whose visits leave exactly their own projects unready. */
  ghost predicate Prepared(items: seq<Observation>, d: Decisions, pre: seq<Observation>, avoided: set<string>) {
    && multiset(pre) <= multiset(items)
    && Sweep(pre, d).Keys == d.Keys
    && (forall y :: y in pre ==> y.project !in avoided && Unready(Sweep(pre, d), y.project))
    && (forall s :: s in d && Sweep(pre, d)[s] != d[s] ==> exists y :: y in pre && y.project == s)
  }

  lemma OneMoreOf<T>(pre: seq<T>, items: seq<T>, y: T)
    requires multiset(pre) <= multiset(items) && y in items && y !in pre
    ensures multiset(pre + [y]) <= multiset(items)
  {
    assert y in multiset(items) && y !in multiset(pre);
    assert multiset(pre + [y]) == multiset(pre) + multiset{y};
  }

  lemma PrepareOne(items: seq<Observation>, d: Decisions, pre: seq<Observation>, avoided: set<string>, y: Observation,
                   q: string)
    requires Prepared(items, d, pre, avoided) && y in items && y.project !in avoided && y.project in d
    requires !Unready(Sweep(pre, d), y.project) && q in y.dependencies && Unready(Sweep(pre, d), q)
    ensures Prepared(items, d, pre + [y], avoided) && Unready(Sweep(pre + [y], d), y.project)
  {
    var r := Sweep(pre, d);
    assert y !in pre;
    OneMoreOf(pre, items, y);
    SweepNext(pre, y, d);
    var r' := Visit(r, y);
    assert FirstUnready(r, y.dependencies).Some?;
    forall z | z in pre + [y] ensures z.project !in avoided && Unready(r', z.project) {
    }
    forall s | s in d && r'[s] != d[s] ensures exists z :: z in pre + [y] && z.project == s {
      if s == y.project {
        assert y in pre + [y];
      } else {
        var z :| z in pre && z.project == s;
        assert z in pre + [y];
      }
    }
  }

  /** Visiting a path to trouble from its end makes its first project unready, and touches nothing off it. */
  lemma {:induction false} Prepare(items: seq<Observation>, d: Decisions, path: seq<string>, avoided: set<string>)
    returns (pre: seq<Observation>)
    requires forall i :: 0 <= i < |items| ==> items[i].project in d
    requires Trace(items, d, path) && Avoids(path, avoided)
    ensures Prepared(items, d, pre, avoided) && Unready(Sweep(pre, d), path[0])
    decreases |path|
  {
    if |path| == 1 {
      pre := [];
    } else {
      var rest := path[1..];
      forall i, j | 0 <= i && j == i + 1 && j < |rest| ensures DependsOn(items, rest[i], rest[j]) {
        assert rest[i] == path[i + 1] && rest[j] == path[j + 1];
      }
      forall i | 0 <= i < |rest| - 1 ensures rest[i] !in avoided {
        assert rest[i] == path[i + 1];
      }
      pre := Prepare(items, d, rest, avoided);
      assert DependsOn(items, path[0], path[1]) && path[0] !in avoided;
      if !Unready(Sweep(pre, d), path[0]) {
        var i :| 0 <= i < |items| && items[i].project == path[0] && path[1] in items[i].dependencies;
        PrepareOne(items, d, pre, avoided, items[i], path[1]);
        pre := pre + [items[i]];
      }
    }
  }

  lemma {:induction false} Remainder<T>(pre: seq<T>, items: seq<T>) returns (rest: seq<T>)
    requires multiset(pre) <= multiset(items)
    ensures multiset(pre + rest) == multiset(items)
    decreases |pre|
  {
    if pre == [] {
      rest := items;
      assert pre + rest == items;
    } else {
      var x, init := pre[|pre| - 1], pre[..|pre| - 1];
      assert pre == init + [x];
      assert multiset(pre) == multiset(init) + multiset{x};
      var more := Remainder(init, items);
      assert multiset(init + more) == multiset(init) + multiset(more);
      assert multiset(items)[x] >= multiset(pre)[x];
      assert multiset(more)[x] > 0;
      assert x in multiset(more);
      var j :| 0 <= j < |more| && more[j] == x;
      rest := more[..j] + more[j + 1..];
      assert more == more[..j] + [x] + more[j + 1..];
      assert multiset(pre + rest) == multiset(init) + multiset{x} + multiset(rest);
    }
  }

  lemma {:induction false} SweepConcat(a: seq<Observation>, b: seq<Observation>, d: Decisions)
    ensures Sweep(a + b, d) == Sweep(b, Sweep(a, d))
  {
    if b == [] {
      assert a + b == a;
    } else {
      var k := |b| - 1;
      assert (a + b)[..|a + b| - 1] == a + b[..k];
      SweepConcat(a, b[..k], d);
    }
  }

  /** A project held after part of a sweep keeps that decision to the end. */
  lemma HeldToTheEnd(a: seq<Observation>, b: seq<Observation>, d: Decisions, p: string)
    requires p in d && p in Sweep(a, d) && Blocked(Sweep(a, d)[p].status)
    ensures Settle(a + b, d)[p] == Sweep(a, d)[p]
  {
    SweepConcat(a, b, d);
    SweepCloses(b, Sweep(a, d));
    HeldAfter(a + b, d, p);
  }

  /** With the path prepared, the project blames the dependency at its head. */
  lemma VisitAfter(items: seq<Observation>, d: Decisions, x: Observation, k: nat, pre: seq<Observation>)
    requires x.project in d && !Blocked(d[x.project].status) && k < |x.dependencies|
    requires Prepared(items, d, pre, Before(x, k)) && Unready(Sweep(pre, d), x.dependencies[k])
    requires forall e :: e in x.dependencies[..k] ==> !Unready(d, e)
    ensures
      var held := Decision(Hold, DependencyNotReady, Some(x.dependencies[k]));
      Sweep(pre + [x], d) == Sweep(pre, d)[x.project := held]
  {
    var r := Sweep(pre, d);
    SweepNext(pre, x, d);
    forall e | e in Before(x, k) && e in d ensures r[e] == d[e] {
      assert forall y :: y in pre ==> y.project != e;
    }
    FirstIs(r, x.dependencies, k);
  }

  lemma {:induction false} FirstIs(d: Decisions, deps: seq<string>, k: nat)
    requires k < |deps| && Unready(d, deps[k]) && forall e :: e in deps[..k] ==> !Unready(d, e)
    ensures FirstUnready(d, deps) == Some(deps[k])
  {
    if k == 0 {
    } else {
      assert deps[..k][0] == deps[0];
      assert deps[1..][..k - 1] == deps[..k][1..];
      FirstIs(d, deps[1..], k - 1);
    }
  }

  /** `items'` are the same observations in another order. */
  ghost predicate Reordered(items: seq<Observation>, items': seq<Observation>) {
    multiset(items) == multiset(items')
  }

  lemma BlamedUnderSomeOrder(items: seq<Observation>, d: Decisions, x: Observation, q: string)
    returns (items': seq<Observation>)
    requires (forall i :: 0 <= i < |items| ==> items[i].project in d) && x in items
    requires !Blocked(d[x.project].status) && CanBlame(items, d, x, q)
    ensures Reordered(items, items') && Settle(items', d)[x.project].dependency == Some(q)
  {
    var k: nat, path :| k < |x.dependencies| && x.dependencies[k] == q && IsWayTo(items, d, x, k, path);
    var pre := Prepare(items, d, path, Before(x, k));
    assert x !in pre;
    OneMoreOf(pre, items, x);
    var rest := Remainder(pre + [x], items);
    items' := pre + [x] + rest;
    VisitAfter(items, d, x, k, pre);
    HeldToTheEnd(pre + [x], rest, d, x.project);
  }

  /** The one observation of a project that is open at first and doomed. */
  ghost predicate OneDoomed(items: seq<Observation>, d: Decisions, x: Observation) {
    && (forall i :: 0 <= i < |items| ==> items[i].project in d)
    && x in items && (forall y :: y in items && y.project == x.project ==> y == x)
    && !Blocked(d[x.project].status) && Doomed(items, d, x.project)
  }

  lemma DoomedIsHeld(items: seq<Observation>, d: Decisions, x: Observation)
    requires OneDoomed(items, d, x)
    ensures x.project in d && Settle(items, d)[x.project] != d[x.project]
    ensures Settle(items, d)[x.project].dependency.Some?
    ensures CanBlame(items, d, x, Settle(items, d)[x.project].dependency.value)
  {
    SettleIsReachability(items, d);
    StartsTraced(items, d);
    SettleBlamesWell(items, d, d, x);
  }

  lemma SameElementsSameBlame(items: seq<Observation>, items': seq<Observation>, d: Decisions, x: Observation,
                              q: string)
    requires (forall y :: y in items ==> y in items') && CanBlame(items, d, x, q)
    ensures CanBlame(items', d, x, q)
  {
    var k: nat, path :| k < |x.dependencies| && x.dependencies[k] == q && IsWayTo(items, d, x, k, path);
    forall i, j | 0 <= i && j == i + 1 && j < |path| ensures DependsOn(items', path[i], path[j]) {
      assert DependsOn(items, path[i], path[j]);
      var h :| 0 <= h < |items| && items[h].project == path[i] && path[j] in items[h].dependencies;
      assert items[h] in items';
    }
    assert IsWayTo(items', d, x, k, path);
  }

  lemma OneDoomedReordered(items: seq<Observation>, items': seq<Observation>, d: Decisions, x: Observation)
    requires OneDoomed(items, d, x) && Reordered(items, items')
    ensures OneDoomed(items', d, x)
  {
    SameMultisetSameElements(items, items');
    DoomIgnoresOrder(items, items', d, x.project);
    forall i | 0 <= i < |items'| ensures items'[i].project in d {
      assert items'[i] in items;
    }
  }

  /** Exactly the dependencies that can be blamed are blamed under some order of the observations. */
  lemma BlamedExactlyWhen(items: seq<Observation>, d: Decisions, x: Observation, q: string)
    requires OneDoomed(items, d, x)
    ensures CanBlame(items, d, x, q) <==>
      exists items' :: Reordered(items, items') && Settle(items', d)[x.project].dependency == Some(q)
  {
    if CanBlame(items, d, x, q) {
      var items' := BlamedUnderSomeOrder(items, d, x, q);
    }
    forall items' | Reordered(items, items') && Settle(items', d)[x.project].dependency == Some(q)
      ensures CanBlame(items, d, x, q)
    {
      OneDoomedReordered(items, items', d, x);
      DoomedIsHeld(items', d, x);
      SameMultisetSameElements(items, items');
      SameElementsSameBlame(items', items, d, x, q);
    }
  }

  /** The exact condition: the blame is the same under every order exactly when only one dependency can be blamed. */
  lemma BlameIsFixedExactlyWhen(items: seq<Observation>, d: Decisions, x: Observation)
    requires OneDoomed(items, d, x)
    ensures x.project in d
    ensures (forall items' :: Reordered(items, items') ==>
               Settle(items', d)[x.project].dependency == Settle(items, d)[x.project].dependency) <==>
            (forall q, q' :: CanBlame(items, d, x, q) && CanBlame(items, d, x, q') ==> q == q')
  {
    if forall q, q' :: CanBlame(items, d, x, q) && CanBlame(items, d, x, q') ==> q == q' {
      forall items' | Reordered(items, items')
        ensures Settle(items', d)[x.project].dependency == Settle(items, d)[x.project].dependency
      {
        DoomedIsHeld(items, d, x);
        OneDoomedReordered(items, items', d, x);
        DoomedIsHeld(items', d, x);
        BlamedExactlyWhen(items, d, x, Settle(items', d)[x.project].dependency.value);
      }
    } else {
      var q, q' :| CanBlame(items, d, x, q) && CanBlame(items, d, x, q') && q != q';
      BlamedExactlyWhen(items, d, x, q);
      BlamedExactlyWhen(items, d, x, q');
    }
  }

  /** Two cases in which the blame is fixed: the first dependency that ends unready was unready before propagation,
      or it is the only one that ends unready. */
  lemma FirstUnreadyIsBlamed(items: seq<Observation>, d: Decisions, x: Observation, items': seq<Observation>, k: nat)
    requires OneDoomed(items, d, x) && Reordered(items, items') && k < |x.dependencies|
    requires Unready(Settle(items, d), x.dependencies[k])
    requires forall e :: e in x.dependencies[..k] ==> !Unready(Settle(items, d), e)
    requires Unready(d, x.dependencies[k])
      || forall e :: e in x.dependencies && Unready(Settle(items, d), e) ==> e == x.dependencies[k]
    ensures x.project in d && Settle(items', d)[x.project].dependency == Some(x.dependencies[k])
  {
    OneDoomedReordered(items, items', d, x);
    BlameIsUnready(items, items', d, x);
    OnlyFirstCanBe(items, d, Settle(items, d), x, Settle(items', d)[x.project].dependency.value, k);
  }

  lemma OnlyFirstCanBe(items: seq<Observation>, d: Decisions, r: Decisions, x: Observation, q: string, k: nat)
    requires CanBlame(items, d, x, q) && Unready(r, q) && q in x.dependencies && k < |x.dependencies|
    requires forall e :: e in x.dependencies[..k] ==> !Unready(r, e)
    requires Unready(d, x.dependencies[k])
      || forall e :: e in x.dependencies && Unready(r, e) ==> e == x.dependencies[k]
    ensures q == x.dependencies[k]
  {
    var h: nat, path :| h < |x.dependencies| && x.dependencies[h] == q && IsWayTo(items, d, x, h, path);
    Listed(x.dependencies, k, h);
    Listed(x.dependencies, h, k);
  }

  lemma Listed(deps: seq<string>, a: nat, b: nat)
    requires a < |deps| && b <= |deps|
    ensures a < b ==> deps[a] in deps[..b]
  {
    assert a < b ==> deps[..b][a] == deps[a];
  }

  /** What is blamed under one order can be blamed, and ends unready, under every order. */
  lemma BlameIsUnready(items: seq<Observation>, items': seq<Observation>, d: Decisions, x: Observation)
    requires OneDoomed(items, d, x) && OneDoomed(items', d, x) && Reordered(items, items')
    ensures x.project in d && Settle(items', d)[x.project].dependency.Some?
    ensures Settle(items', d)[x.project].dependency.value in x.dependencies
    ensures Unready(Settle(items, d), Settle(items', d)[x.project].dependency.value)
    ensures CanBlame(items, d, x, Settle(items', d)[x.project].dependency.value)
  {
    DoomedIsHeld(items', d, x);
    BlamedExactlyWhen(items, d, x, Settle(items', d)[x.project].dependency.value);
    SettleIsReachability(items, d);
    SettleIsReachability(items', d);
    SameMultisetSameElements(items, items');
    SameStatuses(items, items', d, Settle(items, d), Settle(items', d));
  }

  // ---- The snapshot ----------------------------------------------------------------------

  datatype Overall = OverallFailed | OverallHold | Monitor

  function OverallOf(d: Decisions): Overall {
    if exists p :: p in d && d[p].status == Failed then OverallFailed
    else if exists p :: p in d && d[p].status == Hold then OverallHold
    else Monitor
  }

  method BuildSnapshot(items: seq<Observation>, w: World)
    returns (d: Decisions, overall: Overall, ghost initial: Decisions)
    ensures Initial(items, w, initial) && d == Settle(items, initial) && Propagated(items, initial, d)
    ensures overall == OverallOf(d)
  {
    var decided := DecideAll(items, w);
    initial := decided;
    InitialCovers(items, w, decided);
    d := Propagate(items, decided);
    SettleIsReachability(items, initial);
    overall := OverallOf(d);
  }

  lemma NextReady(items: seq<Observation>, initial: Decisions, d: Decisions, p: string, q: string)
    requires Propagated(items, initial, d) && DependsOn(items, p, q) && p in d && !Blocked(d[p].status)
    ensures !Unready(d, q)
  {
    if Unready(d, q) {
      PathStep(items, initial, p, q);
    }
  }

  /** The one observation of the project, whose state its evidence earns and the snapshot shows. */
  ghost predicate StandsOn(items: seq<Observation>, w: World, d: Decisions, p: string) {
    && p in d && !Conflicting(items, p)
    && exists i :: 0 <= i < |items| && items[i].project == p && Earns(items[i], w) && d[p].status == items[i].state
  }

  lemma OpenIsEarned(items: seq<Observation>, w: World, initial: Decisions, d: Decisions, p: string)
    requires Initial(items, w, initial) && Propagated(items, initial, d) && p in d && !Blocked(d[p].status)
    ensures StandsOn(items, w, d, p)
  {
    assert d[p] == initial[p] && Observed(items, p);
    var i :| 0 <= i < |items| && items[i].project == p;
    assert initial[p] == Judged(items[i], w);
    StandsWhenEarned(items[i], w);
  }

  /** A project the snapshot does not block stands on its own evidence, and so does every project any path of
      dependencies leads to, each observed once and none of them merely unverified. */
  lemma {:induction false} ReadyAllTheWay(items: seq<Observation>, w: World, initial: Decisions, d: Decisions,
                                          path: seq<string>, k: nat)
    requires Initial(items, w, initial) && Propagated(items, initial, d)
    requires IsPath(items, path) && path[0] in d && !Blocked(d[path[0]].status) && k < |path|
    ensures StandsOn(items, w, d, path[k]) && !Blocked(d[path[k]].status)
    ensures k > 0 ==> !Unready(d, path[k])
  {
    if k > 0 {
      ReadyAllTheWay(items, w, initial, d, path, k - 1);
      assert DependsOn(items, path[k - 1], path[k]);
      NextReady(items, initial, d, path[k - 1], path[k]);
    }
    OpenIsEarned(items, w, initial, d, path[k]);
  }

  /** The portfolio is only monitored when every project stands and can build on all it depends on. */
  lemma MonitoredStands(items: seq<Observation>, w: World, initial: Decisions, d: Decisions)
    requires Initial(items, w, initial) && Propagated(items, initial, d) && OverallOf(d) == Monitor
    ensures forall p :: p in d ==> StandsOn(items, w, d, p)
    ensures forall p, q :: DependsOn(items, p, q) ==> !Unready(d, q)
  {
    forall p | p in d ensures StandsOn(items, w, d, p) {
      OpenIsEarned(items, w, initial, d, p);
    }
    forall p, q | DependsOn(items, p, q) ensures !Unready(d, q) {
      assert Observed(items, p);
      NextReady(items, initial, d, p, q);
    }
  }
}
