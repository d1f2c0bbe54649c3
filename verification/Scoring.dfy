/** The scorer registry: untrusted scorers, asked in the order of their names, and a weighted verdict. */
module Scoring {
  import opened Prelude
  import opened RealArithmetic

  datatype Spec = Spec(threshold: real, weight: real, hardGate: bool)

  /** What a scorer does when asked: it raises, or it answers; an infinite answer or a NaN is no number. */
  datatype Reading = Raises | NotANumber | Score(value: real)

  datatype Item = Item(name: string, score: real, spec: Spec, passed: bool)

  datatype Verdict =
    | NoScorersRegistered | ScorerError(name: string) | ScorerInvalid(name: string)
    | HardGateFailed(names: seq<string>) | OverallBelowThreshold | ScoringPassed

  datatype Report = Report(passed: bool, overall: real, items: seq<Item>, verdict: Verdict)

  datatype RegistryError = ScorerNameRequired | DuplicateScorer | InvalidScorerThreshold | InvalidScorerWeight

  predicate InUnit(x: real) {
    0.0 <= x <= 1.0
  }

  predicate Usable(r: Reading) {
    r.Score? && InUnit(r.value)
  }

  ghost predicate Registered(specs: map<string, Spec>) {
    forall n :: n in specs ==> !Blank(n) && InUnit(specs[n].threshold) && specs[n].weight > 0.0
  }

  function ItemOf(name: string, spec: Spec, r: Reading): Item {
    var score := if r.Score? then r.value else 0.0;
    Item(name, score, spec, score >= spec.threshold)
  }

  /** The items of the first `k` scorers. */
  ghost predicate ItemsOf(specs: map<string, Spec>, names: seq<string>, read: string -> Reading, k: nat,
                          items: seq<Item>) {
    && k <= |names| && |items| == k
    && forall i :: 0 <= i < k ==> names[i] in specs && IsItem(items[i], names[i], specs[names[i]], read(names[i]))
  }

  /** A usable answer, filed with its scorer; it passes by reaching the threshold. */
  predicate IsItem(item: Item, name: string, spec: Spec, r: Reading) {
    && Usable(r) && item.name == name && item.spec == spec && item.score == r.value
    && (item.passed <==> spec.threshold <= r.value)
  }

  function Weighted(items: seq<Item>): real {
    if items == [] then 0.0
    else Weighted(items[..|items| - 1]) + items[|items| - 1].score * items[|items| - 1].spec.weight
  }

  function Weight(items: seq<Item>): real {
    if items == [] then 0.0 else Weight(items[..|items| - 1]) + items[|items| - 1].spec.weight
  }

  lemma OneMoreItem(items: seq<Item>, item: Item)
    ensures Weighted(items + [item]) == Weighted(items) + item.score * item.spec.weight
    ensures Weight(items + [item]) == Weight(items) + item.spec.weight
  {
    assert (items + [item])[..|items|] == items;
  }

  /** The weighted mean, before rounding. */
  function Mean(items: seq<Item>): real {
    if Weight(items) == 0.0 then 0.0 else Weighted(items) / Weight(items)
  }

  function FailedGates(items: seq<Item>): seq<string> {
    if items == [] then []
    else
      var last := items[|items| - 1];
      FailedGates(items[..|items| - 1]) + if last.spec.hardGate && !last.passed then [last.name] else []
  }

  /** What a registry judges by. */
  datatype Rules = Rules(specs: map<string, Spec>, threshold: real, round4: real -> real)

  /** What the scorers, asked in the order of `names`, make of it: without any there is nothing to pass; the first
      that cannot be used ends it; otherwise the rounded mean and the hard gates decide. */
  ghost predicate ReportOn(rules: Rules, names: seq<string>, read: string -> Reading, r: Report) {
    if rules.specs == map[] then r == Report(false, 0.0, [], NoScorersRegistered)
    else
      && ItemsOf(rules.specs, names, read, |r.items|, r.items)
      && if |r.items| < |names| then !r.passed && r.overall == 0.0 && Unusable(read, names[|r.items|], r.verdict)
         else r.overall == rules.round4(Mean(r.items)) && Decides(r, rules.threshold)
  }

  predicate NoGateFails(items: seq<Item>) {
    forall i :: 0 <= i < |items| && items[i].spec.hardGate ==> items[i].passed
  }

  /** The verdict on a full set of items; a failed hard gate comes before the overall score. */
  predicate Decides(r: Report, threshold: real) {
    match r.verdict
    case HardGateFailed(names) => !r.passed && !NoGateFails(r.items) && names == FailedGates(r.items)
    case OverallBelowThreshold => !r.passed && NoGateFails(r.items) && r.overall < threshold
    case ScoringPassed => r.passed && NoGateFails(r.items) && threshold <= r.overall
    case _ => false
  }

  /** The report of a registry on what its scorers answer. */
  ghost predicate IsReport(rules: Rules, read: string -> Reading, r: Report) {
    exists names :: IsSortedList(names, rules.specs.Keys) && ReportOn(rules, names, read, r)
  }

  class ScorerRegistry {
    const overallThreshold: real
    const round4: real -> real
    var specs: map<string, Spec>

    constructor (overallThreshold: real, round4: real -> real)
      ensures this.overallThreshold == overallThreshold && this.round4 == round4 && specs == map[]
    {
      this.overallThreshold, this.round4 := overallThreshold, round4;
      specs := map[];
    }

    function JudgesBy(): Rules reads this {
      Rules(specs, overallThreshold, round4)
    }

    method Register(name: string, spec: Spec) returns (error: Option<RegistryError>)
      requires Registered(specs)
      modifies this
      ensures Registered(specs)
      ensures error.None? <==>
        && !Blank(name) && name !in old(specs) && 0.0 <= spec.threshold && spec.threshold <= 1.0
        && 0.0 < spec.weight
      ensures error.Some? ==>
        match error.value
        case ScorerNameRequired => Blank(name)
        case DuplicateScorer => !Blank(name) && name in old(specs)
        case InvalidScorerThreshold => name !in old(specs) && !(0.0 <= spec.threshold && spec.threshold <= 1.0)
        case InvalidScorerWeight => name !in old(specs) && spec.weight <= 0.0
      ensures specs == if error.None? then old(specs)[name := spec] else old(specs)
    {
      if Blank(name) {
        return Some(ScorerNameRequired);
      }
      if name in specs {
        return Some(DuplicateScorer);
      }
      if !InUnit(spec.threshold) {
        return Some(InvalidScorerThreshold);
      }
      if spec.weight <= 0.0 {
        return Some(InvalidScorerWeight);
      }
      specs := specs[name := spec];
      error := None;
    }

    /** One more item on the two running sums. */
    method Tally(ghost items: seq<Item>, item: Item, weighted: real, weight: real)
      returns (weighted': real, weight': real)
      requires weighted == Weighted(items) && weight == Weight(items) && weight >= 0.0 && item.spec.weight > 0.0
      ensures weighted' == Weighted(items + [item]) && weight' == Weight(items + [item]) && weight' > 0.0
    {
      OneMoreItem(items, item);
      weighted', weight' := weighted + item.score * item.spec.weight, weight + item.spec.weight;
    }

    /** Asks the scorers one after the other, up to the first that cannot be used. */
    method Ask(order: seq<string>, read: string -> Reading)
      returns (items: seq<Item>, blamed: Option<Verdict>, weighted: real, weight: real)
      requires Registered(specs) && forall i :: 0 <= i < |order| ==> order[i] in specs
      ensures ItemsOf(specs, order, read, |items|, items)
      ensures blamed.None? <==> |items| == |order|
      ensures blamed.Some? ==> Unusable(read, order[|items|], blamed.value)
      ensures weighted == Weighted(items) && weight == Weight(items) && (items != [] ==> weight > 0.0)
    {
      items, weighted, weight := [], 0.0, 0.0;
      for i := 0 to |order|
        invariant ItemsOf(specs, order, read, i, items)
        invariant weighted == Weighted(items) && weight == Weight(items) && (i > 0 ==> weight > 0.0) && weight >= 0.0
      {
        var reading := read(order[i]);
        if reading.Raises? {
          return items, Some(ScorerError(order[i])), weighted, weight;
        }
        if !Usable(reading) {
          return items, Some(ScorerInvalid(order[i])), weighted, weight;
        }
        var item := ItemOf(order[i], specs[order[i]], reading);
        weighted, weight := Tally(items, item, weighted, weight);
        items := items + [item];
      }
      blamed := None;
    }

    /** The scorers are asked in the order of their names. The first that raises or leaves the unit interval ends
        the evaluation with what was scored before it; otherwise the report passes exactly when no hard gate
        failed and the rounded weighted mean reaches the threshold. */
    method Evaluate(read: string -> Reading) returns (r: Report)
      requires Registered(specs)
      ensures IsReport(JudgesBy(), read, r)
    {
      var order := SortedIds(specs.Keys);
      if specs == map[] {
        NoNames(order, specs);
        r := Report(false, 0.0, [], NoScorersRegistered);
        assert ReportOn(JudgesBy(), order, read, r);
        return;
      }
      SomeNames(order, specs);
      forall i | 0 <= i < |order| ensures order[i] in specs {
        assert order[i] in order;
      }
      var items, blamed, weighted, weight := Ask(order, read);
      if blamed.Some? {
        r := Report(false, 0.0, items, blamed.value);
        assert ReportOn(JudgesBy(), order, read, r);
        return;
      }
      FailedGatesExactly(items);
      var overall := round4(weighted / weight);
      var verdict := Judge(items, overall, overallThreshold);
      r := Report(verdict == ScoringPassed, overall, items, verdict);
      assert ReportOn(JudgesBy(), order, read, r);
    }
  }

  /** A failed hard gate comes before the overall score. */
  function Judge(items: seq<Item>, overall: real, threshold: real): Verdict {
    if FailedGates(items) != [] then HardGateFailed(FailedGates(items))
    else if overall < threshold then OverallBelowThreshold
    else ScoringPassed
  }

  /** Scorer `name` is the one the verdict blames. */
  predicate Unusable(read: string -> Reading, name: string, verdict: Verdict) {
    if read(name).Raises? then verdict == ScorerError(name) else !Usable(read(name)) && verdict == ScorerInvalid(name)
  }

  lemma NoNames(names: seq<string>, specs: map<string, Spec>)
    requires IsSortedList(names, specs.Keys) && specs == map[]
    ensures names == []
  {
    DistinctFits(names, specs.Keys);
  }

  lemma SomeNames(names: seq<string>, specs: map<string, Spec>)
    requires IsSortedList(names, specs.Keys) && specs != map[]
    ensures names != []
  {
    assert specs.Keys != {};
    var n :| n in specs.Keys;
    assert n in names;
  }

  // ---- The weighted mean -----------------------------------------------------------------

  lemma {:induction false} WeightedBetween(items: seq<Item>, lo: real, hi: real)
    requires forall i :: 0 <= i < |items| ==> lo <= items[i].score <= hi && items[i].spec.weight > 0.0
    ensures lo * Weight(items) <= Weighted(items) <= hi * Weight(items)
    ensures if items == [] then Weight(items) == 0.0 else Weight(items) > 0.0
  {
    if items == [] {
    } else {
      var k := |items| - 1;
      WeightedBetween(items[..k], lo, hi);
      WeightStep(lo, hi, items[k].score, items[k].spec.weight, Weighted(items[..k]), Weight(items[..k]));
    }
  }

  /** The mean lies between any bounds on the scores: it is a score itself, and scorers that all reach a mark
      reach it together. */
  lemma MeanBetween(items: seq<Item>, lo: real, hi: real)
    requires items != [] && forall i :: 0 <= i < |items| ==> lo <= items[i].score <= hi && items[i].spec.weight > 0.0
    ensures lo <= Mean(items) <= hi
  {
    WeightedBetween(items, lo, hi);
    Quotient(lo, hi, Weighted(items), Weight(items));
  }

  predicate FailsHardGate(item: Item, name: string) {
    item.name == name && item.spec.hardGate && !item.passed
  }

  /** The gates that failed are exactly the hard ones below their thresholds. */
  lemma {:induction false} FailedGatesSpec(items: seq<Item>, name: string)
    ensures name in FailedGates(items) <==> exists i :: 0 <= i < |items| && FailsHardGate(items[i], name)
  {
    if items == [] {
    } else {
      var k := |items| - 1;
      FailedGatesSpec(items[..k], name);
      FailedGatesStep(items, k, name);
    }
  }

  lemma FailedGatesStep(items: seq<Item>, k: nat, name: string)
    requires |items| == k + 1
    ensures name in FailedGates(items) <==> name in FailedGates(items[..k]) || FailsHardGate(items[k], name)
  {
  }

  lemma FailedGatesExactly(items: seq<Item>)
    ensures FailedGates(items) == [] <==> NoGateFails(items)
  {
    if FailedGates(items) != [] {
      FailedGatesSpec(items, FailedGates(items)[0]);
    }
    if !NoGateFails(items) {
      var i :| 0 <= i < |items| && items[i].spec.hardGate && !items[i].passed;
      FailedGatesSpec(items, items[i].name);
    }
  }

  // ---- What a report says ----------------------------------------------------------------

  /** A registry gives one report on what its scorers answer. */
  lemma ReportIsUnique(rules: Rules, read: string -> Reading, r: Report, r': Report)
    requires IsReport(rules, read, r) && IsReport(rules, read, r')
    ensures r == r'
  {
    var names :| IsSortedList(names, rules.specs.Keys) && ReportOn(rules, names, read, r);
    var names' :| IsSortedList(names', rules.specs.Keys) && ReportOn(rules, names', read, r');
    SortedListUnique(names, names', rules.specs.Keys);
    SameReport(rules, names, read, r, r');
  }

  lemma SameReport(rules: Rules, names: seq<string>, read: string -> Reading, r: Report, r': Report)
    requires ReportOn(rules, names, read, r) && ReportOn(rules, names, read, r')
    ensures r == r'
  {
    if rules.specs != map[] {
      assert |r.items| == |r'.items|;
      assert forall i :: 0 <= i < |r.items| ==> r.items[i] == r'.items[i];
      assert r.items == r'.items;
    }
  }

  /** The scorer answers within the unit interval and, with a hard gate, reaches its threshold. */
  predicate Meets(spec: Spec, r: Reading) {
    && r.Score? && 0.0 <= r.value && r.value <= 1.0
    && (spec.hardGate ==> spec.threshold <= r.value)
  }

  /** A report passes exactly when there are scorers, every one of them answers within the unit interval, those with
      a hard gate reach their thresholds, and the rounded mean reaches the registry's. */
  lemma PassesExactlyWhen(rules: Rules, read: string -> Reading, r: Report)
    requires IsReport(rules, read, r)
    ensures r.passed <==>
      && rules.specs != map[]
      && (forall n :: n in rules.specs ==> Meets(rules.specs[n], read(n)))
      && rules.threshold <= rules.round4(Mean(r.items))
  {
    var names :| IsSortedList(names, rules.specs.Keys) && ReportOn(rules, names, read, r);
    if rules.specs != map[] {
      if r.passed {
        AllPassed(rules, names, read, r);
      } else {
        OneFailed(rules, names, read, r);
      }
    }
  }

  lemma AllPassed(rules: Rules, names: seq<string>, read: string -> Reading, r: Report)
    requires IsSortedList(names, rules.specs.Keys) && ReportOn(rules, names, read, r) && r.passed
    ensures forall n :: n in rules.specs ==> Meets(rules.specs[n], read(n))
  {
    forall n | n in rules.specs ensures Meets(rules.specs[n], read(n)) {
      assert n in names;
      var i :| 0 <= i < |names| && names[i] == n;
      assert IsItem(r.items[i], n, rules.specs[n], read(n));
    }
  }

  lemma OneFailed(rules: Rules, names: seq<string>, read: string -> Reading, r: Report)
    requires IsSortedList(names, rules.specs.Keys) && ReportOn(rules, names, read, r) && !r.passed
    requires rules.specs != map[]
    ensures
      || rules.round4(Mean(r.items)) < rules.threshold
      || exists n :: n in rules.specs && !Meets(rules.specs[n], read(n))
  {
    if |r.items| < |names| {
      assert names[|r.items|] in names;
    } else if r.verdict.HardGateFailed? {
      var i :| 0 <= i < |r.items| && r.items[i].spec.hardGate && !r.items[i].passed;
      assert names[i] in names && IsItem(r.items[i], names[i], rules.specs[names[i]], read(names[i]));
    }
  }
}
