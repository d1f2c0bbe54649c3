/** The tenant-fair scheduler: one slot for every tenant first, then the rest by rank. */
module FairSchedule {
  import opened Prelude

  datatype WorkItem = WorkItem(id: string, tenant: string, priority: int, payload: string)

  /** Rank: higher priority first, then by tenant, then by id. */
  predicate WorkLe(a: WorkItem, b: WorkItem) {
    if a.priority != b.priority then a.priority > b.priority
    else if a.tenant != b.tenant then StrLe(a.tenant, b.tenant)
    else StrLe(a.id, b.id)
  }

  /** The item comes before the other by rank: more urgent, or as urgent and of an earlier tenant, or of the same with
      an earlier id. */
  predicate Outranks(a: WorkItem, b: WorkItem) {
    || a.priority > b.priority
    || (a.priority == b.priority && a.tenant != b.tenant && StrLe(a.tenant, b.tenant))
    || (a.priority == b.priority && a.tenant == b.tenant && a.id != b.id && StrLe(a.id, b.id))
  }

  lemma RankByFields(a: WorkItem, b: WorkItem)
    requires WorkLe(a, b)
    ensures !Outranks(b, a)
  {
    if Outranks(b, a) {
      if a.tenant != b.tenant {
        StrLeAntisymmetric(a.tenant, b.tenant);
      } else {
        StrLeAntisymmetric(a.id, b.id);
      }
    }
  }

  lemma WorkLeTransitive(a: WorkItem, b: WorkItem, c: WorkItem)
    requires WorkLe(a, b) && WorkLe(b, c)
    ensures WorkLe(a, c)
  {
    if a.priority == b.priority == c.priority {
      if a.tenant == b.tenant == c.tenant {
        StrLeTransitive(a.id, b.id, c.id);
      } else {
        if a.tenant == c.tenant {
          StrLeAntisymmetric(a.tenant, b.tenant);
        }
        if a.tenant != b.tenant && b.tenant != c.tenant {
          StrLeTransitive(a.tenant, b.tenant, c.tenant);
        }
      }
    }
  }

  lemma WorkLeIsTotalPreorder()
    ensures TotalPreorder(WorkLe)
  {
    forall a: WorkItem, b: WorkItem ensures WorkLe(a, b) || WorkLe(b, a) {
      StrLeTotal(a.tenant, b.tenant);
      StrLeTotal(a.id, b.id);
    }
    forall a: WorkItem, b: WorkItem, c: WorkItem | WorkLe(a, b) && WorkLe(b, c) ensures WorkLe(a, c) {
      WorkLeTransitive(a, b, c);
    }
  }

  function Ordered(items: seq<WorkItem>): seq<WorkItem> {
    SortBy(items, WorkLe)
  }

  function Tenants(items: seq<WorkItem>): set<string> {
    set x | x in items :: x.tenant
  }

  /** The first item of every tenant. */
  function Firsts(items: seq<WorkItem>): seq<WorkItem> {
    if items == [] then []
    else
      var before, last := Firsts(items[..|items| - 1]), items[|items| - 1];
      if last.tenant in Tenants(before) then before else before + [last]
  }

  /** What is taken already, then every item that is not among it, in order. */
  function Fill(taken: seq<WorkItem>, items: seq<WorkItem>): seq<WorkItem> {
    if items == [] then taken
    else
      var before, last := Fill(taken, items[..|items| - 1]), items[|items| - 1];
      if last in before then before else before + [last]
  }

  /** The schedule with no limit on its length. */
  function Unlimited(ordered: seq<WorkItem>): seq<WorkItem> {
    Fill(Firsts(ordered), ordered)
  }

  function Take(items: seq<WorkItem>, n: int): seq<WorkItem> {
    if n < 0 then [] else if n < |items| then items[..n] else items
  }

  /** The second pass: whatever was not taken, in order, while there is room. */
  method SecondPass(firsts: seq<WorkItem>, ordered: seq<WorkItem>, maxItems: int) returns (result: seq<WorkItem>)
    requires |firsts| < maxItems
    ensures result == Take(Fill(firsts, ordered), maxItems)
  {
    result := firsts;
    for i := 0 to |ordered|
      invariant result == Fill(firsts, ordered[..i]) && |result| < maxItems
    {
      assert ordered[..i + 1][..i] == ordered[..i];
      if ordered[i] !in result {
        result := result + [ordered[i]];
        if |result| >= maxItems {
          FillExtends(firsts, ordered, i + 1);
          return;
        }
      }
    }
    assert ordered[..|ordered|] == ordered;
  }

  /** The two passes, each stopping as soon as the schedule is full. */
  method Schedule(items: seq<WorkItem>, maxItems: int) returns (result: seq<WorkItem>)
    ensures result == Take(Unlimited(Ordered(items)), maxItems)
  {
    if maxItems < 1 {
      return [];
    }
    var ordered := Ordered(items);
    result := FirstPass(ordered, maxItems);
    FillExtends(Firsts(ordered), ordered, 0);
    if |result| >= maxItems {
      return;
    }
    result := SecondPass(result, ordered, maxItems);
  }

  method FirstPass(ordered: seq<WorkItem>, maxItems: int) returns (result: seq<WorkItem>)
    requires maxItems >= 1
    ensures result == Take(Firsts(ordered), maxItems)
  {
    var seen: set<string>;
    result, seen := [], {};
    for i := 0 to |ordered|
      invariant result == Firsts(ordered[..i]) && |result| < maxItems && seen == Tenants(result)
    {
      assert ordered[..i + 1][..i] == ordered[..i];
      if ordered[i].tenant !in seen {
        result := result + [ordered[i]];
        seen := seen + {ordered[i].tenant};
        if |result| >= maxItems {
          FirstsExtend(ordered, i + 1);
          return;
        }
      }
    }
    assert ordered[..|ordered|] == ordered;
  }

  lemma {:induction false} FirstsExtend(items: seq<WorkItem>, k: nat)
    requires k <= |items|
    ensures Firsts(items[..k]) <= Firsts(items)
    decreases |items|
  {
    if k < |items| {
      assert items[..|items| - 1][..k] == items[..k];
      FirstsExtend(items[..|items| - 1], k);
    } else {
      assert items[..k] == items;
    }
  }

  lemma {:induction false} FillExtends(taken: seq<WorkItem>, items: seq<WorkItem>, k: nat)
    requires k <= |items|
    ensures Fill(taken, items[..k]) <= Fill(taken, items)
    ensures taken <= Fill(taken, items)
    decreases |items|
  {
    if k < |items| {
      assert items[..|items| - 1][..k] == items[..k];
      FillExtends(taken, items[..|items| - 1], k);
    } else {
      assert items[..k] == items;
      if k > 0 {
        FillExtends(taken, items[..k - 1], k - 1);
      }
    }
  }

  // ---- Fairness --------------------------------------------------------------------------

  lemma {:induction false} FirstsSpec(items: seq<WorkItem>)
    ensures Tenants(Firsts(items)) == Tenants(items)
    ensures forall x :: x in Firsts(items) ==> x in items
    ensures forall i, j :: 0 <= i < j < |Firsts(items)| ==> Firsts(items)[i].tenant != Firsts(items)[j].tenant
  {
    if items == [] {
    } else {
      var k := |items| - 1;
      FirstsSpec(items[..k]);
      assert items == items[..k] + [items[k]];
      assert Tenants(items) == Tenants(items[..k]) + {items[k].tenant};
      assert items[k].tenant !in Tenants(Firsts(items[..k])) ==>
        Tenants(Firsts(items)) == Tenants(Firsts(items[..k])) + {items[k].tenant};
    }
  }

  lemma {:induction false} FillSpec(taken: seq<WorkItem>, items: seq<WorkItem>)
    requires Distinct(taken)
    ensures Distinct(Fill(taken, items))
    ensures forall x :: x in Fill(taken, items) <==> x in taken || x in items
  {
    if items == [] {
    } else {
      var k := |items| - 1;
      FillSpec(taken, items[..k]);
      assert items == items[..k] + [items[k]];
    }
  }

  lemma UnlimitedSpec(ordered: seq<WorkItem>)
    ensures Distinct(Unlimited(ordered)) && forall x :: x in Unlimited(ordered) <==> x in ordered
  {
    FirstsSpec(ordered);
    FillSpec(Firsts(ordered), ordered);
  }

  /** As many items as allowed and available are scheduled, none twice. */
  lemma ScheduledCount(items: seq<WorkItem>, maxItems: int)
    requires maxItems >= 1
    ensures
      var result := Take(Unlimited(Ordered(items)), maxItems);
      var different := |set x | x in items|;
      && Distinct(result) && (forall x :: x in result ==> x in items)
      && |result| == if maxItems < different then maxItems else different
    ensures Distinct(items) ==> |set x | x in items| == |items|
  {
    var ordered := Ordered(items);
    UnlimitedSpec(ordered);
    SameMultisetSameElements(items, ordered);
    DistinctCardinality(Unlimited(ordered), set x | x in items);
    if Distinct(items) {
      DistinctCardinality(items, set x | x in items);
    }
  }

  /** Every tenant has a slot of the first pass. */
  lemma SlotOf(ordered: seq<WorkItem>, x: WorkItem) returns (k: nat)
    requires x in ordered
    ensures k < |Firsts(ordered)| && Firsts(ordered)[k].tenant == x.tenant
  {
    FirstsSpec(ordered);
    assert x.tenant in Tenants(Firsts(ordered));
    var first :| first in Firsts(ordered) && first.tenant == x.tenant;
    k :| 0 <= k < |Firsts(ordered)| && Firsts(ordered)[k] == first;
  }

  /** And no tenant has two. */
  lemma SecondSlotIsLate(ordered: seq<WorkItem>, i: nat, j: nat)
    requires i < j < |Unlimited(ordered)| && Unlimited(ordered)[i].tenant == Unlimited(ordered)[j].tenant
    ensures j >= |Firsts(ordered)|
  {
    FirstsSpec(ordered);
    FillExtends(Firsts(ordered), ordered, 0);
    assert forall k :: 0 <= k < |Firsts(ordered)| ==> Unlimited(ordered)[k] == Firsts(ordered)[k];
  }

  /** No tenant has a second slot before every tenant has its first. */
  lemma EveryTenantFirst(items: seq<WorkItem>, maxItems: int, i: nat, j: nat, x: WorkItem)
    requires i < j < |Take(Unlimited(Ordered(items)), maxItems)| && x in items
    requires Unlimited(Ordered(items))[i].tenant == Unlimited(Ordered(items))[j].tenant
    ensures exists k :: 0 <= k < j && Take(Unlimited(Ordered(items)), maxItems)[k].tenant == x.tenant
  {
    var ordered := Ordered(items);
    FillExtends(Firsts(ordered), ordered, 0);
    SecondSlotIsLate(ordered, i, j);
    SameMultisetSameElements(items, ordered);
    var k := SlotOf(ordered, x);
    assert Unlimited(ordered)[k] == Firsts(ordered)[k];
  }

  /** What is filled in comes in order. */
  lemma {:induction false} FillInOrder(taken: seq<WorkItem>, items: seq<WorkItem>, p: nat, i: nat, j: nat)
    requires Distinct(items) && i < j < |items| && p <= |Fill(taken, items)|
    requires items[j] in Fill(taken, items)[..p] && items[j] !in taken && Distinct(taken)
    ensures items[i] in Fill(taken, items)[..p]
    decreases |items|
  {
    var k := |items| - 1;
    var before := Fill(taken, items[..k]);
    FillSpec(taken, items[..k]);
    assert items[k] !in items[..k];
    if p <= |before| {
      assert Fill(taken, items)[..p] == before[..p];
      if j < k {
        FillInOrder(taken, items[..k], p, i, j);
      }
    } else {
      assert Fill(taken, items)[..p] == Fill(taken, items);
      assert items[i] in items[..k];
      assert items[i] in before;
    }
  }

  /** An item taken in the first pass has no item of its tenant before it. */
  lemma {:induction false} FirstIsFirst(items: seq<WorkItem>, i: nat, j: nat)
    requires Distinct(items) && i < j < |items| && items[i].tenant == items[j].tenant
    ensures items[j] !in Firsts(items)
    decreases |items|
  {
    var k := |items| - 1;
    FirstsSpec(items[..k]);
    if j < k {
      FirstIsFirst(items[..k], i, j);
    } else {
      assert items[i] in items[..k];
      assert items[k] !in items[..k];
    }
  }

  /** A scheduled item has every item of its tenant that outranks it scheduled beside it. */
  lemma TenantInRankOrder(items: seq<WorkItem>, maxItems: int, x: WorkItem, y: WorkItem)
    requires Distinct(items) && x in Take(Unlimited(Ordered(items)), maxItems)
    requires y in items && y.tenant == x.tenant && Outranks(y, x)
    ensures y in Take(Unlimited(Ordered(items)), maxItems)
  {
    var ordered := Ordered(items);
    var p := |Take(Unlimited(ordered), maxItems)|;
    assert Take(Unlimited(ordered), maxItems) == Unlimited(ordered)[..p];
    UnlimitedSpec(ordered);
    SameMultisetSameElements(items, ordered);
    DistinctByMultiset(items, ordered);
    assert x in Unlimited(ordered);
    var i :| 0 <= i < |ordered| && ordered[i] == y;
    var j :| 0 <= j < |ordered| && ordered[j] == x;
    WorkLeIsTotalPreorder();
    SortBySorts(items, WorkLe);
    if j < i {
      RankByFields(x, y);
    }
    FirstIsFirst(ordered, i, j);
    FirstsSpec(ordered);
    FillInOrder(Firsts(ordered), ordered, p, i, j);
  }

  // ---- The order of the slots ------------------------------------------------------------

  lemma {:induction false} FirstsSorted(items: seq<WorkItem>)
    requires SortedBy(WorkLe, items)
    ensures SortedBy(WorkLe, Firsts(items))
  {
    if items == [] {
    } else {
      var k := |items| - 1;
      FirstsSorted(items[..k]);
      FirstsSpec(items[..k]);
      forall x | x in Firsts(items[..k]) ensures WorkLe(x, items[k]) {
        var i :| 0 <= i < k && items[..k][i] == x;
      }
    }
  }

  lemma {:induction false} FillSorted(taken: seq<WorkItem>, items: seq<WorkItem>)
    requires SortedBy(WorkLe, items)
    ensures taken <= Fill(taken, items) && SortedBy(WorkLe, Fill(taken, items)[|taken|..])
    ensures forall x :: x in Fill(taken, items)[|taken|..] ==> x in items
  {
    if items == [] {
    } else {
      var k := |items| - 1;
      FillSorted(taken, items[..k]);
      var before := Fill(taken, items[..k])[|taken|..];
      forall x | x in before ensures WorkLe(x, items[k]) {
        var i :| 0 <= i < k && items[..k][i] == x;
      }
      var after := Fill(taken, items)[|taken|..];
      assert after == before || after == before + [items[k]];
    }
  }

  /** What the first pass takes of a tenant leads all its items. */
  lemma {:induction false} FirstsLead(items: seq<WorkItem>, x: WorkItem, y: WorkItem)
    requires SortedBy(WorkLe, items) && x in Firsts(items) && y in items && y.tenant == x.tenant
    ensures x == y || WorkLe(x, y)
  {
    var k := |items| - 1;
    FirstsSpec(items[..k]);
    if x in Firsts(items[..k]) {
      if y in items[..k] {
        FirstsLead(items[..k], x, y);
      } else {
        var i :| 0 <= i < k && items[..k][i] == x;
      }
    } else {
      TenantSeen(items[..k], y);
    }
  }

  lemma TenantSeen(items: seq<WorkItem>, x: WorkItem)
    ensures x in items ==> x.tenant in Tenants(items)
  {
  }

  lemma OneMoreTenant(items: seq<WorkItem>, k: nat)
    requires |items| == k + 1
    ensures Tenants(items) == Tenants(items[..k]) + {items[k].tenant}
  {
    assert items == items[..k] + [items[k]];
  }

  lemma OneMoreFirst(items: seq<WorkItem>, k: nat)
    requires |items| == k + 1
    ensures |Firsts(items)| == |Firsts(items[..k])| + if items[k].tenant in Tenants(items[..k]) then 0 else 1
  {
    FirstsSpec(items[..k]);
  }

  lemma OneMoreMember(tenants: set<string>, t: string)
    ensures |tenants + {t}| == |tenants| + if t in tenants then 0 else 1
  {
    if t in tenants {
      assert tenants + {t} == tenants;
    }
  }

  lemma {:induction false} FirstsCount(items: seq<WorkItem>)
    ensures |Firsts(items)| == |Tenants(items)|
  {
    if items == [] {
      NoTenants();
    } else {
      var k := |items| - 1;
      FirstsCount(items[..k]);
      OneMoreFirst(items, k);
      OneMoreTenant(items, k);
      OneMoreMember(Tenants(items[..k]), items[k].tenant);
    }
  }

  lemma NoTenants()
    ensures Tenants([]) == {}
  {
  }

  /** As many slots as there are tenants come first, each with an item that none of its tenant outranks; among these
      slots, and among those after them, no item outranks one before it. */
  lemma SlotsByRank(items: seq<WorkItem>, maxItems: int, i: nat, j: nat)
    requires i < j < |Take(Unlimited(Ordered(items)), maxItems)|
    ensures
      var result, tenants := Take(Unlimited(Ordered(items)), maxItems), |Tenants(items)|;
      && (j < tenants || tenants <= i ==> !Outranks(result[j], result[i]))
      && (i < tenants ==> forall y :: y in items && y.tenant == result[i].tenant ==> !Outranks(y, result[i]))
  {
    var ordered := Ordered(items);
    OrderedHasAll(items);
    FirstsCount(ordered);
    SlotsSorted(ordered, i, j);
    if i < |Firsts(ordered)| {
      FillSorted(Firsts(ordered), ordered);
      forall y | y in items && y.tenant == Firsts(ordered)[i].tenant ensures !Outranks(y, Firsts(ordered)[i]) {
        LeadsTenant(ordered, i, y);
      }
    }
  }

  lemma LeadsTenant(ordered: seq<WorkItem>, i: nat, y: WorkItem)
    requires SortedBy(WorkLe, ordered) && i < |Firsts(ordered)| && y in ordered
    requires y.tenant == Firsts(ordered)[i].tenant
    ensures !Outranks(y, Firsts(ordered)[i])
  {
    FirstsLead(ordered, Firsts(ordered)[i], y);
    WorkLeIsTotalPreorder();
    RankByFields(Firsts(ordered)[i], y);
  }

  lemma OrderedHasAll(items: seq<WorkItem>)
    ensures SortedBy(WorkLe, Ordered(items)) && Tenants(items) == Tenants(Ordered(items))
    ensures forall x :: x in items <==> x in Ordered(items)
  {
    WorkLeIsTotalPreorder();
    SortBySorts(items, WorkLe);
    SameMultisetSameElements(items, Ordered(items));
  }

  lemma SlotsSorted(ordered: seq<WorkItem>, i: nat, j: nat)
    requires SortedBy(WorkLe, ordered) && i < j < |Unlimited(ordered)|
    ensures j < |Firsts(ordered)| || |Firsts(ordered)| <= i ==> !Outranks(Unlimited(ordered)[j], Unlimited(ordered)[i])
  {
    var firsts, all := Firsts(ordered), Unlimited(ordered);
    FirstsSorted(ordered);
    FillSorted(firsts, ordered);
    if j < |firsts| {
      assert all[i] == firsts[i] && all[j] == firsts[j];
      RankByFields(all[i], all[j]);
    } else if |firsts| <= i {
      assert all[i] == all[|firsts|..][i - |firsts|] && all[j] == all[|firsts|..][j - |firsts|];
      RankByFields(all[i], all[j]);
    }
  }
}
