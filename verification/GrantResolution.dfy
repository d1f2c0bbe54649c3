/** Resolving a persisted grant: the walk up its delegation chain and the checks between neighbours. */
module GrantResolution {
  import opened Prelude

  /** The capabilities the policy tells apart; `Unstated` is the empty text. */
  datatype Capability =
    | SpecRead | SpecPropose | FactoryPlan | FactoryEnqueue | ArtifactRead | QaExecute | CertificationPropose
    | ReleaseRequestApproval
    | ProductionApprove | ProductionPromote | OtherProduction(rest: string)
    | ConnectorInvoke(connector: string) | Unstated | OtherCapability(text: string)

  datatype DenyReason =
    | PolicyUnavailable | DelegationEscalation | ExpiredAction | ScopeMismatch
    | MissingProvenance | Replay | UnknownCapability | CapabilityNotGranted

  /** A stored point in time; text without a time, or without a time zone, is unreadable. */
  datatype Stamp = Unreadable | At(time: int)

  /** A stored mapping, or something else in its place; a missing one reads as the empty mapping. */
  datatype Field<T> = Malformed | Given(value: T)

  type Scope = map<string, string>

  datatype Budget = Budget(timeoutSeconds: Option<int>, maxRetries: Option<int>, maxCostMinor: Option<int>)

  datatype Grant = Grant(statedId: string, agent: string, capabilities: set<Capability>, scope: Field<Scope>,
                         budget: Field<Budget>, validFrom: Option<Stamp>, validUntil: Option<Stamp>, revoked: bool,
                         delegatedFrom: string)

  /** The grants on record; a row that is not a mapping counts as absent. */
  type Grants = map<string, Grant>

  datatype ResolvedGrant = ResolvedGrant(id: string, agent: string, capabilities: set<Capability>, scope: Scope,
                                         budget: Budget, chain: seq<string>)

  // ---- One link --------------------------------------------------------------------------

  predicate NotYet(from: Option<Stamp>, now: int) {
    from.Some? && (from.value.Unreadable? || from.value.time > now)
  }

  /** The row is the grant it is filed as, in force at `now`: not revoked, begun if it states a start, not over if it
      states an end. */
  predicate InForce(row: Grant, id: string, now: int) {
    && (row.statedId == "" || row.statedId == id) && !row.revoked
    && (row.validFrom.Some? ==> row.validFrom.value.At? && row.validFrom.value.time <= now)
    && (row.validUntil.Some? ==> row.validUntil.value.At? && now < row.validUntil.value.time)
  }

  /** A row that is not in force is refused; one that has merely run out, as such. */
  function RowFault(row: Grant, id: string, now: int): (fault: Option<DenyReason>)
    ensures fault.None? <==> InForce(row, id, now)
    ensures fault == Some(ExpiredAction) <==>
      && InForce(row.(validUntil := None), id, now)
      && row.validUntil.Some? && row.validUntil.value.At? && row.validUntil.value.time <= now
    ensures fault.Some? && fault.value != ExpiredAction ==> fault.value == PolicyUnavailable
  {
    if row.statedId != "" && row.statedId != id then Some(PolicyUnavailable)
    else if row.revoked then Some(PolicyUnavailable)
    else if NotYet(row.validFrom, now) then Some(PolicyUnavailable)
    else if row.validUntil.Some? && row.validUntil.value.Unreadable? then Some(PolicyUnavailable)
    else if row.validUntil.Some? && row.validUntil.value.time <= now then Some(ExpiredAction)
    else None
  }

  /** What stops the walk, having come up `ids`, from taking `id` next. */
  function LinkFault(grants: Grants, ids: seq<string>, id: string, now: int, maxDepth: int)
    : (fault: Option<DenyReason>)
    ensures fault == Some(DelegationEscalation) <==> id in ids || |ids| >= maxDepth
    ensures fault.None? <==> id !in ids && |ids| < maxDepth && id in grants && InForce(grants[id], id, now)
    ensures fault == Some(ExpiredAction) ==> id in grants && RowFault(grants[id], id, now) == fault
    ensures id !in grants && fault != Some(DelegationEscalation) ==> fault == Some(PolicyUnavailable)
  {
    if id in ids || |ids| >= maxDepth then Some(DelegationEscalation)
    else if id !in grants then Some(PolicyUnavailable)
    else RowFault(grants[id], id, now)
  }

  function ParentOf(row: Grant): Option<string> {
    if row.delegatedFrom == "" then None else Some(row.delegatedFrom)
  }

  // ---- The walk --------------------------------------------------------------------------

  /** The grant is on record, not revoked, and valid at `now`. */
  predicate Live(grants: Grants, id: string, now: int) {
    id in grants && InForce(grants[id], id, now)
  }

  /** Distinct live grants, each delegated from the next, beginning at `start`. */
  ghost predicate Trail(grants: Grants, start: string, ids: seq<string>, now: int, maxDepth: int) {
    && (ids != [] ==> ids[0] == start && |ids| <= maxDepth)
    && Distinct(ids)
    && (forall i :: 0 <= i < |ids| ==> Live(grants, ids[i], now))
    && (forall i, j :: 0 <= i && j == i + 1 && j < |ids| ==> ParentOf(grants[ids[i]]) == Some(ids[j]))
  }

  function NextOf(grants: Grants, start: string, ids: seq<string>): Option<string> {
    if ids == [] then Some(start)
    else if ids[|ids| - 1] in grants then ParentOf(grants[ids[|ids| - 1]])
    else None
  }

  /** The trail reaches a grant delegated from no other. */
  ghost predicate Complete(grants: Grants, start: string, ids: seq<string>, now: int, maxDepth: int) {
    Trail(grants, start, ids, now, maxDepth) && ids != [] && NextOf(grants, start, ids) == None
  }

  /** The trail cannot be continued, for this reason. */
  ghost predicate Stuck(grants: Grants, start: string, ids: seq<string>, now: int, maxDepth: int, reason: DenyReason) {
    && Trail(grants, start, ids, now, maxDepth)
    && NextOf(grants, start, ids).Some?
    && LinkFault(grants, ids, NextOf(grants, start, ids).value, now, maxDepth) == Some(reason)
  }

  lemma {:induction false} TrailsAgree(grants: Grants, start: string, a: seq<string>, b: seq<string>, now: int,
                                       maxDepth: int, i: nat)
    requires Trail(grants, start, a, now, maxDepth) && Trail(grants, start, b, now, maxDepth) && i < |a| && i < |b|
    ensures a[i] == b[i]
  {
    if i == 0 {
    } else {
      TrailsAgree(grants, start, a, b, now, maxDepth, i - 1);
      assert ParentOf(grants[a[i - 1]]) == Some(a[i]) && ParentOf(grants[b[i - 1]]) == Some(b[i]);
    }
  }

  lemma StepOf(grants: Grants, start: string, ids: seq<string>, now: int, maxDepth: int, i: nat)
    requires Trail(grants, start, ids, now, maxDepth) && i + 1 < |ids|
    ensures ids[i] in grants && ParentOf(grants[ids[i]]) == Some(ids[i + 1])
  {
    assert Live(grants, ids[i], now);
  }

  /** A chain that completes is the only way up, and it never gets stuck. */
  lemma CompleteIsOnlyWay(grants: Grants, start: string, a: seq<string>, b: seq<string>, now: int, maxDepth: int)
    requires Complete(grants, start, a, now, maxDepth) && Trail(grants, start, b, now, maxDepth)
    ensures |b| <= |a| && b == a[..|b|]
    ensures forall reason :: !Stuck(grants, start, b, now, maxDepth, reason)
  {
    forall i | 0 <= i < |a| && i < |b| ensures a[i] == b[i] {
      TrailsAgree(grants, start, a, b, now, maxDepth, i);
    }
    if |b| > |a| {
      StepOf(grants, start, b, now, maxDepth, |a| - 1);
    }
    if |b| < |a| {
      if b != [] {
        assert ParentOf(grants[a[|b| - 1]]) == Some(a[|b|]);
      }
      assert NextOf(grants, start, b) == Some(a[|b|]);
      assert Live(grants, a[|b|], now) && a[|b|] !in b;
    }
  }

  method Walk(grants: Grants, start: string, now: int, maxDepth: int) returns (r: Result<seq<string>, DenyReason>)
    ensures r.Ok? ==> Complete(grants, start, r.value, now, maxDepth)
    ensures r.Err? ==> exists trail :: Stuck(grants, start, trail, now, maxDepth, r.error)
  {
    var ids: seq<string>, seen: set<string>, current := [], {}, Some(start);
    while current.Some?
      invariant Trail(grants, start, ids, now, maxDepth) && current == NextOf(grants, start, ids)
      invariant forall id :: id in seen <==> id in ids
      decreases maxDepth - |ids|, current.Some?
    {
      var id := current.value;
      if id in seen || |ids| >= maxDepth {
        assert Stuck(grants, start, ids, now, maxDepth, DelegationEscalation);
        return Err(DelegationEscalation);
      }
      seen := seen + {id};
      if id !in grants {
        assert Stuck(grants, start, ids, now, maxDepth, PolicyUnavailable);
        return Err(PolicyUnavailable);
      }
      var fault := RowFault(grants[id], id, now);
      if fault.Some? {
        assert Stuck(grants, start, ids, now, maxDepth, fault.value);
        return Err(fault.value);
      }
      ids := ids + [id];
      current := ParentOf(grants[id]);
    }
    r := Ok(ids);
  }

  // ---- The leaf and the neighbours -------------------------------------------------------

  function Named(capabilities: set<Capability>): set<Capability> {
    capabilities - {Unstated}
  }

  /** The leaf belongs to the expected agent, and grants something somewhere. */
  predicate Usable(leaf: Grant, expected: Option<string>) {
    && leaf.agent != "" && (expected.None? || leaf.agent == expected.value)
    && (exists c :: c in leaf.capabilities && c != Unstated)
    && leaf.scope.Given? && (exists k :: k in leaf.scope.value) && leaf.budget.Given?
  }

  /** A leaf of another agent is a mismatch of scope; any other fault makes the policy unavailable. */
  function LeafFault(leaf: Grant, expected: Option<string>): (fault: Option<DenyReason>)
    ensures fault.None? <==> Usable(leaf, expected)
    ensures fault == Some(ScopeMismatch) <==> leaf.agent != "" && expected.Some? && leaf.agent != expected.value
    ensures fault.Some? ==> fault.value == ScopeMismatch || fault.value == PolicyUnavailable
  {
    assert Named(leaf.capabilities) == {} <==> forall c :: c in leaf.capabilities ==> c == Unstated by {
      if Named(leaf.capabilities) == {} {
        forall c | c in leaf.capabilities ensures c == Unstated {
          assert c !in Named(leaf.capabilities);
        }
      }
    }
    assert leaf.scope.Given? && leaf.scope.value != map[] ==> leaf.scope.value.Keys != {};
    if leaf.agent == "" then Some(PolicyUnavailable)
    else if expected.Some? && leaf.agent != expected.value then Some(ScopeMismatch)
    else if Named(leaf.capabilities) == {} || leaf.scope.Malformed? || leaf.scope.value == map[]
      || leaf.budget.Malformed? then
      Some(PolicyUnavailable)
    else None
  }

  predicate ScopeSubset(child: Scope, parent: Scope) {
    child != map[] && forall k :: k in child ==> k in parent && parent[k] == child[k]
  }

  /** Where the parent states a figure, the child states one no larger. */
  predicate FigureNotWider(child: Option<int>, parent: Option<int>) {
    parent.Some? ==> child.Some? && child.value <= parent.value
  }

  predicate BudgetNotWider(child: Budget, parent: Budget) {
    && FigureNotWider(child.timeoutSeconds, parent.timeoutSeconds)
    && FigureNotWider(child.maxRetries, parent.maxRetries)
    && FigureNotWider(child.maxCostMinor, parent.maxCostMinor)
  }

  function TimeOf(s: Option<Stamp>): Option<int> {
    if s.Some? && s.value.At? then Some(s.value.time) else None
  }

  /** The child's capabilities are its parent's, or fewer. */
  predicate CapabilitiesNarrow(child: Grant, parent: Grant) {
    forall c :: c in child.capabilities ==> c in parent.capabilities
  }

  /** Both scopes are given, and the child's is some of its parent's entries. */
  predicate ScopeNarrows(child: Grant, parent: Grant) {
    && child.scope.Given? && parent.scope.Given? && (exists k :: k in child.scope.value)
    && forall k :: k in child.scope.value ==> k in parent.scope.value && parent.scope.value[k] == child.scope.value[k]
  }

  /** Both budgets are given, and whatever the parent limits the child limits too, as much or more. */
  predicate BudgetNarrows(child: Grant, parent: Grant) {
    && child.budget.Given? && parent.budget.Given?
    && FigureNotWider(child.budget.value.timeoutSeconds, parent.budget.value.timeoutSeconds)
    && FigureNotWider(child.budget.value.maxRetries, parent.budget.value.maxRetries)
    && FigureNotWider(child.budget.value.maxCostMinor, parent.budget.value.maxCostMinor)
  }

  /** The child does not begin before its parent, where both say when, and ends when its parent does or sooner. */
  predicate TimeNarrows(child: Grant, parent: Grant) {
    && (TimeOf(child.validFrom).Some? && TimeOf(parent.validFrom).Some? ==>
          TimeOf(parent.validFrom).value <= TimeOf(child.validFrom).value)
    && FigureNotWider(TimeOf(child.validUntil), TimeOf(parent.validUntil))
  }

  /** The child is delegated no more than its parent has. */
  predicate Narrows(child: Grant, parent: Grant) {
    && CapabilitiesNarrow(child, parent) && ScopeNarrows(child, parent) && BudgetNarrows(child, parent)
    && TimeNarrows(child, parent)
  }

  /** A pair is refused exactly when it does not narrow; only a scope that does not is a mismatch of scope. */
  function PairFault(child: Grant, parent: Grant): (fault: Option<DenyReason>)
    ensures fault.None? <==> Narrows(child, parent)
    ensures fault == Some(ScopeMismatch) <==> CapabilitiesNarrow(child, parent) && !ScopeNarrows(child, parent)
    ensures fault.Some? ==> fault.value == ScopeMismatch || fault.value == DelegationEscalation
  {
    assert child.scope.Given? && child.scope.value != map[] ==> child.scope.value.Keys != {};
    if !(child.capabilities <= parent.capabilities) then Some(DelegationEscalation)
    else if child.scope.Malformed? || parent.scope.Malformed? then Some(ScopeMismatch)
    else if !ScopeSubset(child.scope.value, parent.scope.value) then Some(ScopeMismatch)
    else if child.budget.Malformed? || parent.budget.Malformed? then Some(DelegationEscalation)
    else if !BudgetNotWider(child.budget.value, parent.budget.value) then Some(DelegationEscalation)
    else if TimeOf(child.validFrom).Some? && TimeOf(parent.validFrom).Some?
            && TimeOf(child.validFrom).value < TimeOf(parent.validFrom).value then Some(DelegationEscalation)
    else if !FigureNotWider(TimeOf(child.validUntil), TimeOf(parent.validUntil)) then Some(DelegationEscalation)
    else None
  }

  // ---- Resolution ------------------------------------------------------------------------

  ghost predicate PairsHold(grants: Grants, ids: seq<string>) {
    forall i, j :: 0 <= i && j == i + 1 && j < |ids| ==> PairHolds(grants, ids[i], ids[j])
  }

  predicate PairHolds(grants: Grants, child: string, parent: string) {
    child in grants && parent in grants && Narrows(grants[child], grants[parent])
  }

  /** `ids` is the whole chain of the grant, the leaf is usable by the expected agent, and every link only narrows. */
  ghost predicate Authorised(grants: Grants, id: string, ids: seq<string>, expected: Option<string>, now: int,
                             maxDepth: int) {
    && id != "" && Complete(grants, id, ids, now, maxDepth)
    && Usable(grants[ids[0]], expected) && PairsHold(grants, ids)
  }

  /** Why a grant is refused: the walk gets stuck, or the leaf is not usable, or else the first pair of
      neighbours that does not only narrow. */
  ghost predicate Refused(grants: Grants, id: string, ids: seq<string>, expected: Option<string>, now: int,
                          maxDepth: int, reason: DenyReason) {
    if id == "" then reason == PolicyUnavailable
    else if Complete(grants, id, ids, now, maxDepth) then
      var leaf := LeafFault(grants[ids[0]], expected);
      if leaf.Some? then reason == leaf.value
      else exists k :: FirstBadPair(grants, ids, k, reason)
    else Stuck(grants, id, ids, now, maxDepth, reason)
  }

  ghost predicate FirstBadPair(grants: Grants, ids: seq<string>, k: nat, reason: DenyReason) {
    && k + 1 < |ids| && PairsHold(grants, ids[..k + 1])
    && ids[k] in grants && ids[k + 1] in grants && PairFault(grants[ids[k]], grants[ids[k + 1]]) == Some(reason)
  }

  method CheckPairs(grants: Grants, ids: seq<string>) returns (fault: Option<DenyReason>)
    requires ids != [] && forall i :: 0 <= i < |ids| ==> ids[i] in grants
    ensures fault.None? ==> PairsHold(grants, ids)
    ensures fault.Some? ==> exists k :: FirstBadPair(grants, ids, k, fault.value)
  {
    for k := 0 to |ids| - 1
      invariant PairsHold(grants, ids[..k + 1])
    {
      fault := PairFault(grants[ids[k]], grants[ids[k + 1]]);
      if fault.Some? {
        assert FirstBadPair(grants, ids, k, fault.value);
        return;
      }
      assert PairHolds(grants, ids[k], ids[k + 1]);
    }
    assert ids[..|ids| - 1 + 1] == ids;
    fault := None;
  }

  /** A grant resolves exactly when it has an authorised chain, and then the answer is the leaf with that chain. */
  method ResolveGrant(id: string, grants: Grants, expected: Option<string>, now: int, maxDepth: int)
    returns (r: Result<ResolvedGrant, DenyReason>, ghost trail: seq<string>)
    ensures r.Ok? <==> exists ids :: Authorised(grants, id, ids, expected, now, maxDepth)
    ensures r.Ok? ==> Authorised(grants, id, r.value.chain, expected, now, maxDepth)
    ensures r.Ok? ==> Represents(r.value, grants[r.value.chain[0]], id)
    ensures r.Err? ==> Refused(grants, id, trail, expected, now, maxDepth, r.error)
  {
    if id == "" {
      return Err(PolicyUnavailable), [];
    }
    var walked := Walk(grants, id, now, maxDepth);
    if walked.Ok? {
      trail := walked.value;
    } else {
      trail :| Stuck(grants, id, trail, now, maxDepth, walked.error);
    }
    forall ids | Complete(grants, id, ids, now, maxDepth)
      ensures walked.Ok? && ids == trail
    {
      CompleteIsOnlyWay(grants, id, ids, trail, now, maxDepth);
      if walked.Ok? {
        CompleteIsOnlyWay(grants, id, trail, ids, now, maxDepth);
      }
    }
    if walked.Err? {
      return Err(walked.error), trail;
    }
    var ids := walked.value;
    var leaf := grants[ids[0]];
    var fault := LeafFault(leaf, expected);
    if fault.Some? {
      return Err(fault.value), trail;
    }
    fault := CheckPairs(grants, ids);
    if fault.Some? {
      ghost var k: nat :| FirstBadPair(grants, ids, k, fault.value);
      assert !PairHolds(grants, ids[k], ids[k + 1]);
      return Err(fault.value), trail;
    }
    assert Authorised(grants, id, ids, expected, now, maxDepth);
    r := Ok(ResolvedGrant(id, leaf.agent, Named(leaf.capabilities), leaf.scope.value, leaf.budget.value, ids));
  }

  ghost predicate Represents(r: ResolvedGrant, leaf: Grant, id: string) {
    && r.id == id && r.agent == leaf.agent && r.capabilities == Named(leaf.capabilities)
    && leaf.scope == Given(r.scope) && leaf.budget == Given(r.budget)
  }

  // ---- What neighbours keep, the whole chain keeps ---------------------------------------

  /** `child` is in every respect no wider than `parent`. */
  ghost predicate Within(child: Grant, parent: Grant) {
    && child.capabilities <= parent.capabilities
    && child.scope.Given? && parent.scope.Given?
    && (forall k :: k in child.scope.value ==> k in parent.scope.value && parent.scope.value[k] == child.scope.value[k])
    && child.budget.Given? && parent.budget.Given? && BudgetNotWider(child.budget.value, parent.budget.value)
    && FigureNotWider(TimeOf(child.validUntil), TimeOf(parent.validUntil))
  }

  lemma PairIsWithin(child: Grant, parent: Grant)
    requires PairFault(child, parent).None?
    ensures Within(child, parent)
  {
  }

  lemma WithinIsTransitive(a: Grant, b: Grant, c: Grant)
    requires Within(a, b) && Within(b, c)
    ensures Within(a, c)
  {
  }

  /** Every grant on an authorised chain lies within each of its ancestors, however far up. */
  lemma {:induction false} ChainOnlyNarrows(grants: Grants, id: string, ids: seq<string>, expected: Option<string>,
                                            now: int, maxDepth: int, i: nat, j: nat)
    requires Authorised(grants, id, ids, expected, now, maxDepth) && i <= j < |ids|
    ensures ids[i] in grants && ids[j] in grants
    ensures Within(grants[ids[i]], grants[ids[j]])
    decreases j - i
  {
    assert Live(grants, ids[i], now) && Live(grants, ids[j], now);
    if i == j {
      if i > 0 {
        assert PairHolds(grants, ids[i - 1], ids[i]);
      }
    } else {
      assert PairHolds(grants, ids[j - 1], ids[j]);
      PairIsWithin(grants[ids[j - 1]], grants[ids[j]]);
      if i < j - 1 {
        ChainOnlyNarrows(grants, id, ids, expected, now, maxDepth, i, j - 1);
        WithinIsTransitive(grants[ids[i]], grants[ids[j - 1]], grants[ids[j]]);
      }
    }
  }

  /** Every grant on an authorised chain is in force at the moment of resolution. */
  lemma ChainIsLive(grants: Grants, id: string, ids: seq<string>, expected: Option<string>, now: int, maxDepth: int,
                    i: nat)
    requires Authorised(grants, id, ids, expected, now, maxDepth) && i < |ids|
    ensures ids[i] in grants
    ensures
      var g := grants[ids[i]];
      && (g.statedId == "" || g.statedId == ids[i]) && !g.revoked
      && (g.validFrom.Some? ==> g.validFrom.value.At? && g.validFrom.value.time <= now)
      && (g.validUntil.Some? ==> g.validUntil.value.At? && now < g.validUntil.value.time)
  {
    assert Live(grants, ids[i], now);
  }

  /** Where neighbours both state a start of validity, the child does not start before its parent. */
  lemma NeighboursStartInOrder(grants: Grants, id: string, ids: seq<string>, expected: Option<string>, now: int,
                               maxDepth: int, i: nat)
    requires Authorised(grants, id, ids, expected, now, maxDepth) && i + 1 < |ids|
    ensures ids[i] in grants && ids[i + 1] in grants
    ensures
      var child, parent := TimeOf(grants[ids[i]].validFrom), TimeOf(grants[ids[i + 1]].validFrom);
      child.Some? && parent.Some? ==> parent.value <= child.value
  {
    assert PairHolds(grants, ids[i], ids[i + 1]);
  }

  // ---- When the start of validity narrows too --------------------------------------------

  /** The start of validity that the `i`-th link of the chain states, if it states one. */
  function StartOf(grants: Grants, ids: seq<string>, i: nat): Option<int>
    requires i < |ids| && ids[i] in grants
  {
    TimeOf(grants[ids[i]].validFrom)
  }

  /** No link strictly between the two is silent about its start. */
  ghost predicate NoneSilent(grants: Grants, ids: seq<string>, i: nat, j: nat) {
    forall k: nat :: i < k < j && k < |ids| && ids[k] in grants ==> grants[ids[k]].validFrom.Some?
  }

  lemma LinkOnRecord(grants: Grants, id: string, ids: seq<string>, expected: Option<string>, now: int, maxDepth: int,
                     i: nat)
    requires Authorised(grants, id, ids, expected, now, maxDepth) && i < |ids|
    ensures ids[i] in grants
    ensures StartOf(grants, ids, i).Some? <==> grants[ids[i]].validFrom.Some?
    ensures StartOf(grants, ids, i).Some? ==> StartOf(grants, ids, i).value <= now
  {
    ChainIsLive(grants, id, ids, expected, now, maxDepth, i);
  }

  /** Where every link from one to another above it states a start, the upper one does not start later. */
  lemma {:induction false} StartsInOrder(grants: Grants, id: string, ids: seq<string>, expected: Option<string>,
                                         now: int, maxDepth: int, i: nat, j: nat)
    requires Authorised(grants, id, ids, expected, now, maxDepth) && i <= j < |ids|
    requires ids[i] in grants && StartOf(grants, ids, i).Some? && ids[j] in grants && StartOf(grants, ids, j).Some?
    requires NoneSilent(grants, ids, i, j)
    ensures StartOf(grants, ids, j).value <= StartOf(grants, ids, i).value
    decreases j - i
  {
    if i == j {
    } else {
      LinkOnRecord(grants, id, ids, expected, now, maxDepth, j - 1);
      NeighboursStartInOrder(grants, id, ids, expected, now, maxDepth, j - 1);
      StartsInOrder(grants, id, ids, expected, now, maxDepth, i, j - 1);
    }
  }

  /** The same grants with other starts: none is added, and none is left out. */
  ghost predicate Redated(grants: Grants, grants': Grants) {
    && grants'.Keys == grants.Keys
    && forall x :: x in grants ==>
         && grants'[x] == grants[x].(validFrom := grants'[x].validFrom)
         && (grants'[x].validFrom.Some? <==> grants[x].validFrom.Some?)
  }

  function Dated(g: Grant, start: int): Grant {
    if g.validFrom.Some? then g.(validFrom := Some(At(start))) else g
  }

  /** The links below the `k`-th started two ticks ago, the others one. */
  function SplitDates(grants: Grants, ids: seq<string>, k: nat, now: int): Grants
    requires k <= |ids|
  {
    map x | x in grants :: Dated(grants[x], if x in ids[..k] then now - 2 else now - 1)
  }

  lemma SplitDate(grants: Grants, ids: seq<string>, k: nat, now: int, m: nat)
    requires k <= |ids| && m < |ids| && Distinct(ids) && ids[m] in grants
    ensures SplitDates(grants, ids, k, now)[ids[m]] == Dated(grants[ids[m]], if m < k then now - 2 else now - 1)
  {
    assert m < k ==> ids[m] == ids[..k][m];
  }

  lemma DatedPair(child: Grant, parent: Grant, childStart: int, parentStart: int)
    requires PairFault(child, parent).None?
    requires child.validFrom.Some? && parent.validFrom.Some? ==> parentStart <= childStart
    ensures PairFault(Dated(child, childStart), Dated(parent, parentStart)).None?
  {
  }

  /** Split at a silent link, the chain is authorised as before. */
  lemma SplitIsAuthorised(grants: Grants, id: string, ids: seq<string>, expected: Option<string>, now: int,
                          maxDepth: int, k: nat)
    requires Authorised(grants, id, ids, expected, now, maxDepth) && k < |ids|
    requires ids[k] in grants && grants[ids[k]].validFrom.None?
    ensures Authorised(SplitDates(grants, ids, k, now), id, ids, expected, now, maxDepth)
    ensures Redated(grants, SplitDates(grants, ids, k, now))
  {
    var grants' := SplitDates(grants, ids, k, now);
    forall m: nat | m < |ids|
      ensures ids[m] in grants && grants'[ids[m]] == Dated(grants[ids[m]], if m < k then now - 2 else now - 1)
      ensures Live(grants', ids[m], now)
    {
      assert Live(grants, ids[m], now);
      SplitDate(grants, ids, k, now, m);
    }
    forall i, j | 0 <= i && j == i + 1 && j < |ids|
      ensures ParentOf(grants'[ids[i]]) == Some(ids[j]) && PairHolds(grants', ids[i], ids[j])
    {
      assert PairHolds(grants, ids[i], ids[j]);
      DatedPair(grants[ids[i]], grants[ids[j]], if i < k then now - 2 else now - 1, if j < k then now - 2 else now - 1);
    }
  }

  /** The exact condition: whatever the dates, two links of an authorised chain that state their starts start in
      order, exactly when no link between them is silent. */
  lemma StartsNarrowExactlyWhen(grants: Grants, id: string, ids: seq<string>, expected: Option<string>, now: int,
                                maxDepth: int, i: nat, j: nat)
    requires Authorised(grants, id, ids, expected, now, maxDepth) && i < j < |ids|
    requires ids[i] in grants && StartOf(grants, ids, i).Some? && ids[j] in grants && StartOf(grants, ids, j).Some?
    ensures NoneSilent(grants, ids, i, j) <==>
      forall grants' :: Redated(grants, grants') && Authorised(grants', id, ids, expected, now, maxDepth) ==>
        StartsOrdered(grants', ids, i, j)
  {
    if NoneSilent(grants, ids, i, j) {
      forall grants' | Redated(grants, grants') && Authorised(grants', id, ids, expected, now, maxDepth)
        ensures StartsOrdered(grants', ids, i, j)
      {
        LinkOnRecord(grants', id, ids, expected, now, maxDepth, i);
        LinkOnRecord(grants', id, ids, expected, now, maxDepth, j);
        StartsInOrder(grants', id, ids, expected, now, maxDepth, i, j);
      }
    } else {
      var k: nat :| i < k < j && ids[k] in grants && grants[ids[k]].validFrom.None?;
      SplitIsAuthorised(grants, id, ids, expected, now, maxDepth, k);
      SplitDate(grants, ids, k, now, i);
      SplitDate(grants, ids, k, now, j);
      assert !StartsOrdered(SplitDates(grants, ids, k, now), ids, i, j);
    }
  }

  /** Both links state a start, and the upper one does not start later. */
  ghost predicate StartsOrdered(grants: Grants, ids: seq<string>, i: nat, j: nat) {
    && i < |ids| && j < |ids| && ids[i] in grants && ids[j] in grants
    && StartOf(grants, ids, i).Some? && StartOf(grants, ids, j).Some?
    && StartOf(grants, ids, j).value <= StartOf(grants, ids, i).value
  }

  /** A grant of reading rights in one tenant, with the start and parent given. */
  function Reading(start: Option<Stamp>, parent: string): Grant {
    Grant("", "agent", {SpecRead}, Given(map["tenant" := "t"]), Given(Budget(None, None, None)), start, None, false,
          parent)
  }

  /** A chain the resolver accepts at time 10 although its leaf starts at 3 and its root at 5: the link between
      them states no start. */
  lemma StartMayWiden()
    ensures
      var grants := map["a" := Reading(Some(At(5)), ""), "b" := Reading(None, "a"), "c" := Reading(Some(At(3)), "b")];
      && Authorised(grants, "c", ["c", "b", "a"], None, 10, 16)
      && StartOf(grants, ["c", "b", "a"], 0) == Some(3) && StartOf(grants, ["c", "b", "a"], 2) == Some(5)
  {
    var grants := map["a" := Reading(Some(At(5)), ""), "b" := Reading(None, "a"), "c" := Reading(Some(At(3)), "b")];
    var ids := ["c", "b", "a"];
    assert "a"[0] == 'a' && "b"[0] == 'b' && "c"[0] == 'c';
    assert Distinct(ids);
    assert "tenant" in Reading(None, "").scope.value;
    assert SpecRead in Named({SpecRead});
    assert PairHolds(grants, ids[0], ids[1]) && PairHolds(grants, ids[1], ids[2]);
    assert Live(grants, ids[0], 10) && Live(grants, ids[1], 10) && Live(grants, ids[2], 10);
  }
}
