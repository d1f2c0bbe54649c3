/** Choosing excerpts under a character budget: every resource is covered, the rest is filled by rank. */
module Compaction {
  import opened Prelude
  import opened Chunking

  /** An item as offered; content that is not text is `None`. */
  datatype RawItem = RawItem(kind: string, name: string, dataClass: string, content: Option<string>)

  datatype Key = Key(kind: string, name: string, dataClass: string)

  datatype Resource = Resource(key: Key, content: string)

  /** A candidate: one chunk of a resource, with the digest of the whole content and the task terms it holds. */
  datatype Excerpt = Excerpt(key: Key, source: string, index: nat, chunk: Chunk, hits: nat)

  datatype HoldReason =
    | PositiveContextBudgetRequired | PositiveChunkBudgetNeeded | AllowedContextRequired | ItemInvalid
    | DuplicateResource
    | InsufficientForCoverage

  function SizeOf(e: Excerpt): nat {
    |e.chunk.content|
  }

  function Size(es: seq<Excerpt>): nat {
    if es == [] then 0 else Size(es[..|es| - 1]) + SizeOf(es[|es| - 1])
  }

  // ---- Orders ----------------------------------------------------------------------------

  predicate KeyLe(a: Key, b: Key) {
    if a.kind != b.kind then StrLe(a.kind, b.kind)
    else if a.name != b.name then StrLe(a.name, b.name)
    else StrLe(a.dataClass, b.dataClass)
  }

  lemma KeyLeTotal(a: Key, b: Key)
    ensures KeyLe(a, b) || KeyLe(b, a)
  {
    StrLeTotal(a.kind, b.kind);
    StrLeTotal(a.name, b.name);
    StrLeTotal(a.dataClass, b.dataClass);
  }

  lemma KeyLeAntisymmetric(a: Key, b: Key)
    requires KeyLe(a, b) && KeyLe(b, a)
    ensures a == b
  {
    if a.kind != b.kind {
      StrLeAntisymmetric(a.kind, b.kind);
    } else if a.name != b.name {
      StrLeAntisymmetric(a.name, b.name);
    } else {
      StrLeAntisymmetric(a.dataClass, b.dataClass);
    }
  }

  lemma KeyLeTransitive(a: Key, b: Key, c: Key)
    requires KeyLe(a, b) && KeyLe(b, c)
    ensures KeyLe(a, c)
  {
    if a.kind != b.kind || b.kind != c.kind {
      LexTransitive(a.kind, b.kind, c.kind);
    } else if a.name != b.name || b.name != c.name {
      LexTransitive(a.name, b.name, c.name);
    } else {
      StrLeTransitive(a.dataClass, b.dataClass, c.dataClass);
    }
  }

  lemma LexTransitive(a: string, b: string, c: string)
    requires (a == b || StrLe(a, b)) && (b == c || StrLe(b, c)) && (a != b || b != c)
    ensures a != c && StrLe(a, c)
  {
    if a == c {
      StrLeAntisymmetric(a, b);
    }
    if a != b && b != c {
      StrLeTransitive(a, b, c);
    }
  }

  /** Source order: by resource, then by position. */
  predicate PlaceLe(a: Excerpt, b: Excerpt) {
    if a.key != b.key then KeyLe(a.key, b.key) else a.index <= b.index
  }

  /** Relevance order: more task terms first, then shorter, then source order. */
  predicate RankLe(a: Excerpt, b: Excerpt) {
    if a.hits != b.hits then a.hits > b.hits
    else if SizeOf(a) != SizeOf(b) then SizeOf(a) < SizeOf(b)
    else PlaceLe(a, b)
  }

  /** One resource is listed before another: its kind, its name or its class is the first to differ, and is lower. */
  predicate KeyBefore(a: Key, b: Key) {
    || (a.kind != b.kind && StrLe(a.kind, b.kind))
    || (a.kind == b.kind && a.name != b.name && StrLe(a.name, b.name))
    || (a.kind == b.kind && a.name == b.name && a.dataClass != b.dataClass && StrLe(a.dataClass, b.dataClass))
  }

  /** In source order one excerpt comes before another: of an earlier resource, or further up in the same. */
  predicate Before(a: Excerpt, b: Excerpt) {
    if a.key == b.key then a.index < b.index else KeyBefore(a.key, b.key)
  }

  /** More relevant to the task: with more of its terms, or as many in a shorter text. */
  predicate Outranks(a: Excerpt, b: Excerpt) {
    a.hits > b.hits || (a.hits == b.hits && |a.chunk.content| < |b.chunk.content|)
  }

  /** The candidate to keep of a group: none outranks it, and none that is as relevant comes earlier. */
  ghost predicate Leads(e: Excerpt, group: seq<Excerpt>) {
    && e in group
    && forall other :: other in group ==> !Outranks(other, e) && (Outranks(e, other) || e.index <= other.index)
  }

  ghost predicate IsLeader(groups: seq<seq<Excerpt>>, e: Excerpt) {
    exists g :: 0 <= g < |groups| && Leads(e, groups[g])
  }

  /** The orders the program sorts by are these. */
  lemma OrdersByFields(a: Excerpt, b: Excerpt)
    ensures PlaceLe(a, b) && !PlaceLe(b, a) ==> Before(a, b)
    ensures RankLe(a, b) ==> !Outranks(b, a)
    ensures RankLe(a, b) && a.key == b.key ==> Outranks(a, b) || a.index <= b.index
  {
    if a.key != b.key && KeyLe(a.key, b.key) && !KeyBefore(a.key, b.key) {
      KeyLeAntisymmetric(a.key, b.key);
    }
  }

  lemma PlaceLeIsTotalPreorder()
    ensures TotalPreorder(PlaceLe)
  {
    forall a: Excerpt, b: Excerpt ensures PlaceLe(a, b) || PlaceLe(b, a) {
      KeyLeTotal(a.key, b.key);
    }
    forall a: Excerpt, b: Excerpt, c: Excerpt | PlaceLe(a, b) && PlaceLe(b, c) ensures PlaceLe(a, c) {
      PlaceLeTransitive(a, b, c);
    }
  }

  lemma PlaceLeTransitive(a: Excerpt, b: Excerpt, c: Excerpt)
    requires PlaceLe(a, b) && PlaceLe(b, c)
    ensures PlaceLe(a, c)
  {
    if a.key != b.key && b.key != c.key {
      if a.key == c.key {
        KeyLeAntisymmetric(a.key, b.key);
      }
      KeyLeTransitive(a.key, b.key, c.key);
    }
  }

  lemma RankLeIsTotalPreorder()
    ensures TotalPreorder(RankLe)
  {
    PlaceLeIsTotalPreorder();
    forall a: Excerpt, b: Excerpt, c: Excerpt | RankLe(a, b) && RankLe(b, c) ensures RankLe(a, c) {
      if a.hits == b.hits == c.hits && SizeOf(a) == SizeOf(b) == SizeOf(c) {
        PlaceLeTransitive(a, b, c);
      }
    }
  }

  predicate ResourceLe(a: Resource, b: Resource) {
    KeyLe(a.key, b.key)
  }

  lemma ResourceLeIsTotalPreorder()
    ensures TotalPreorder(ResourceLe)
  {
    forall a: Resource, b: Resource ensures ResourceLe(a, b) || ResourceLe(b, a) {
      KeyLeTotal(a.key, b.key);
    }
    forall a: Resource, b: Resource, c: Resource | ResourceLe(a, b) && ResourceLe(b, c) ensures ResourceLe(a, c) {
      KeyLeTransitive(a.key, b.key, c.key);
    }
  }

  // ---- Normalising the items -------------------------------------------------------------

  /** An item is taken when it has content and three names that are not blank. */
  function Normal(item: RawItem): (r: Option<Resource>)
    ensures r.None? <==>
      || Blank(item.kind) || Blank(item.name) || Blank(item.dataClass)
      || item.content.None? || item.content.value == []
  {
    StripStrips(item.kind);
    StripStrips(item.name);
    StripStrips(item.dataClass);
    var key := Key(Strip(item.kind), Strip(item.name), Strip(item.dataClass));
    if key.kind == [] || key.name == [] || key.dataClass == [] then None
    else if item.content.None? || item.content.value == [] then None
    else Some(Resource(key, item.content.value))
  }

  /** It is taken by its stripped names, with its content as it is. */
  lemma NormalStrips(item: RawItem)
    requires Normal(item).Some?
    ensures
      var r := Normal(item).value;
      && Some(r.content) == item.content && Strips(item.kind, r.key.kind) && Strips(item.name, r.key.name)
      && Strips(item.dataClass, r.key.dataClass)
  {
    StripStrips(item.kind);
    StripStrips(item.name);
    StripStrips(item.dataClass);
  }

  ghost predicate DistinctKeys(resources: seq<Resource>) {
    forall i, j :: 0 <= i < j < |resources| ==> resources[i].key != resources[j].key
  }

  /** `resources` are the items, normalised and in their order. */
  ghost predicate NormalOf(items: seq<RawItem>, resources: seq<Resource>) {
    |resources| == |items| && forall i :: 0 <= i < |items| ==> Normal(items[i]) == Some(resources[i])
  }

  predicate Acceptable(item: RawItem) {
    Normal(item).Some?
  }

  /** Two acceptable items name one resource. */
  predicate Clash(a: RawItem, b: RawItem) {
    Acceptable(a) && Acceptable(b) && Normal(a).value.key == Normal(b).value.key
  }

  /** Every item is acceptable and no two name one resource. */
  ghost predicate Sound(items: seq<RawItem>) {
    && (forall i :: 0 <= i < |items| ==> Acceptable(items[i]))
    && forall i, j :: 0 <= i < j < |items| ==> !Clash(items[i], items[j])
  }

  /** The first item that cannot be taken is item `i`, for the given reason. */
  ghost predicate FirstFlaw(items: seq<RawItem>, i: nat, reason: HoldReason) {
    && i < |items| && Sound(items[..i])
    && if Acceptable(items[i]) then reason == DuplicateResource && (exists j :: 0 <= j < i && Clash(items[j], items[i]))
       else reason == ItemInvalid
  }

  lemma SoundNext(items: seq<RawItem>, i: nat)
    requires i < |items| && Sound(items[..i])
    ensures Sound(items[..i + 1]) <==> Acceptable(items[i]) && forall j :: 0 <= j < i ==> !Clash(items[j], items[i])
  {
    if Sound(items[..i + 1]) {
      assert Acceptable(items[..i + 1][i]);
      forall j | 0 <= j < i ensures !Clash(items[j], items[i]) {
        assert !Clash(items[..i + 1][j], items[..i + 1][i]);
      }
    }
    assert forall j :: 0 <= j < i ==> items[..i][j] == items[j];
  }

  ghost predicate Taken(resources: seq<Resource>, key: Key) {
    exists j :: 0 <= j < |resources| && resources[j].key == key
  }

  lemma KeyTaken(item: RawItem, key: Key, earlier: seq<RawItem>, resources: seq<Resource>)
    requires NormalOf(earlier, resources) && Acceptable(item) && Normal(item).value.key == key
    ensures Taken(resources, key) <==> (exists j :: 0 <= j < |earlier| && Clash(earlier[j], item))
  {
    forall j | 0 <= j < |earlier| ensures Clash(earlier[j], item) <==> resources[j].key == key {
      assert Normal(earlier[j]) == Some(resources[j]);
    }
  }

  /** An item that cannot be read, or names a resource already taken, is the first flaw. */
  lemma NextIsFlawed(items: seq<RawItem>, i: nat, resources: seq<Resource>)
    requires i < |items| && NormalOf(items[..i], resources) && Sound(items[..i])
    requires Acceptable(items[i]) ==> Taken(resources, Normal(items[i]).value.key)
    ensures FirstFlaw(items, i, if Acceptable(items[i]) then DuplicateResource else ItemInvalid)
    ensures !Sound(items)
  {
    SoundNext(items, i);
    if Acceptable(items[i]) {
      KeyTaken(items[i], Normal(items[i]).value.key, items[..i], resources);
      var j :| 0 <= j < i && Clash(items[..i][j], items[i]);
      assert Clash(items[j], items[i]);
    }
  }

  /** Any other item is taken as it is. */
  lemma NextIsSound(items: seq<RawItem>, i: nat, resources: seq<Resource>)
    requires i < |items| && NormalOf(items[..i], resources) && Sound(items[..i])
    requires Acceptable(items[i]) && !Taken(resources, Normal(items[i]).value.key)
    ensures Sound(items[..i + 1]) && NormalOf(items[..i + 1], resources + [Normal(items[i]).value])
  {
    SoundNext(items, i);
    KeyTaken(items[i], Normal(items[i]).value.key, items[..i], resources);
    forall j | 0 <= j < i ensures !Clash(items[j], items[i]) {
      assert !Clash(items[..i][j], items[i]);
    }
  }

  lemma OneMoreKey(resources: seq<Resource>, r: Resource, key: Key)
    ensures Taken(resources + [r], key) <==> Taken(resources, key) || r.key == key
  {
    assert (resources + [r])[|resources|] == r;
    if Taken(resources, key) {
      var j :| 0 <= j < |resources| && resources[j].key == key;
      assert (resources + [r])[j].key == key;
    }
  }

  method Note(resources: seq<Resource>, seen: set<Key>, r: Resource)
    returns (resources': seq<Resource>, seen': set<Key>)
    requires DistinctKeys(resources) && r.key !in seen && forall k :: k in seen <==> Taken(resources, k)
    ensures resources' == resources + [r] && DistinctKeys(resources')
    ensures forall k :: k in seen' <==> Taken(resources', k)
  {
    forall k ensures Taken(resources + [r], k) <==> Taken(resources, k) || r.key == k {
      OneMoreKey(resources, r, k);
    }
    forall i | 0 <= i < |resources| ensures resources[i].key != r.key {
      assert Taken(resources, resources[i].key);
    }
    resources', seen' := resources + [r], seen + {r.key};
  }

  method Normalize(items: seq<RawItem>) returns (r: Result<seq<Resource>, HoldReason>)
    ensures r.Ok? <==> Sound(items)
    ensures r.Ok? ==> NormalOf(items, r.value) && DistinctKeys(r.value)
    ensures r.Err? ==> exists i :: FirstFlaw(items, i, r.error)
  {
    var resources: seq<Resource>, seen: set<Key> := [], {};
    for i := 0 to |items|
      invariant NormalOf(items[..i], resources) && Sound(items[..i]) && DistinctKeys(resources)
      invariant forall k :: k in seen <==> Taken(resources, k)
    {
      var n := Normal(items[i]);
      if n.None? {
        NextIsFlawed(items, i, resources);
        return Err(ItemInvalid);
      }
      if n.value.key in seen {
        NextIsFlawed(items, i, resources);
        return Err(DuplicateResource);
      }
      NextIsSound(items, i, resources);
      resources, seen := Note(resources, seen, n.value);
    }
    assert items[..|items|] == items;
    r := Ok(resources);
  }

  // ---- Candidates ------------------------------------------------------------------------

  /** What the program reads off a text: its digest, and how many task terms it holds. */
  datatype Texts = Texts(digest: string -> string, hits: string -> nat)

  /** `e` is the candidate at position `i` of a resource. */
  predicate CutFrom(resource: Resource, limit: int, text: Texts, i: nat, e: Excerpt) {
    && e.key == resource.key && e.source == text.digest(resource.content) && e.index == i
    && e.hits == text.hits(e.chunk.content) && 0 < SizeOf(e) <= limit
  }

  /** The candidates of one resource: its chunks, in order. */
  ghost predicate GroupOf(resource: Resource, limit: int, text: Texts, group: seq<Excerpt>) {
    && group != []
    && (forall i :: 0 <= i < |group| ==> CutFrom(resource, limit, text, i, group[i]))
    && exists chunks: seq<Chunk> ::
         && |chunks| == |group| && (forall i :: 0 <= i < |group| ==> group[i].chunk == chunks[i])
         && Text(chunks) == resource.content && ExactSpans(SplitLines(resource.content), chunks, limit)
  }

  ghost predicate Grouped(resources: seq<Resource>, limit: int, text: Texts, groups: seq<seq<Excerpt>>) {
    |groups| == |resources| && forall g :: 0 <= g < |resources| ==> GroupOf(resources[g], limit, text, groups[g])
  }

  method MakeGroup(resource: Resource, limit: int, text: Texts) returns (group: seq<Excerpt>)
    requires limit > 0 && resource.content != []
    ensures GroupOf(resource, limit, text, group)
  {
    var chunked := ChunkContent(resource.content, limit);
    var chunks := chunked.value;
    group := [];
    for i := 0 to |chunks|
      invariant |group| == i
      invariant forall k :: 0 <= k < i ==>
        group[k] == Excerpt(resource.key, text.digest(resource.content), k, chunks[k], text.hits(chunks[k].content))
    {
      group := group +
        [Excerpt(resource.key, text.digest(resource.content), i, chunks[i], text.hits(chunks[i].content))];
    }
    forall i | 0 <= i < |group| ensures 0 < SizeOf(group[i]) <= limit {
      SpanAt(SplitLines(resource.content), chunks, limit, i);
    }
  }

  method MakeGroups(resources: seq<Resource>, limit: int, text: Texts) returns (groups: seq<seq<Excerpt>>)
    requires limit > 0 && forall i :: 0 <= i < |resources| ==> resources[i].content != []
    ensures Grouped(resources, limit, text, groups)
  {
    groups := [];
    for g := 0 to |resources|
      invariant |groups| == g && forall k :: 0 <= k < g ==> GroupOf(resources[k], limit, text, groups[k])
    {
      var group := MakeGroup(resources[g], limit, text);
      groups := groups + [group];
    }
  }

  // ---- Selection -------------------------------------------------------------------------

  /** The most relevant candidate of a group. */
  function Best(group: seq<Excerpt>): Excerpt
    requires group != []
  {
    SameMultisetSameElements(group, SortBy(group, RankLe));
    SortBy(group, RankLe)[0]
  }

  lemma BestIsBest(group: seq<Excerpt>)
    requires group != []
    ensures Best(group) in group && forall e :: e in group ==> RankLe(Best(group), e)
  {
    RankLeIsTotalPreorder();
    SortBySorts(group, RankLe);
    var ranked := SortBy(group, RankLe);
    SameMultisetSameElements(group, ranked);
    forall e | e in group ensures RankLe(Best(group), e) {
      var i :| 0 <= i < |ranked| && ranked[i] == e;
    }
  }

  ghost predicate NoneEmpty(groups: seq<seq<Excerpt>>) {
    forall g :: 0 <= g < |groups| ==> groups[g] != []
  }

  /** The best candidate of every group, in order. */
  function Bests(groups: seq<seq<Excerpt>>): (r: seq<Excerpt>)
    requires NoneEmpty(groups)
    ensures |r| == |groups|
  {
    seq(|groups|, g requires 0 <= g < |groups| => Best(groups[g]))
  }

  lemma BestsPrefix(groups: seq<seq<Excerpt>>, g: nat, i: nat)
    requires NoneEmpty(groups) && i < g <= |groups|
    ensures Bests(groups[..g])[i] == Best(groups[i])
  {
  }

  lemma OneLonger<T>(a: seq<T>, b: seq<T>, x: T)
    requires |b| == |a| + 1 && b[|a|] == x && forall i :: 0 <= i < |a| ==> b[i] == a[i]
    ensures b == a + [x]
  {
  }

  lemma BestsNext(groups: seq<seq<Excerpt>>, g: nat)
    requires NoneEmpty(groups) && g < |groups|
    ensures Bests(groups[..g + 1]) == Bests(groups[..g]) + [Best(groups[g])]
    ensures Size(Bests(groups[..g + 1])) == Size(Bests(groups[..g])) + SizeOf(Best(groups[g]))
  {
    var before, after := Bests(groups[..g]), Bests(groups[..g + 1]);
    var best := Best(groups[g]);
    forall i | 0 <= i < g ensures after[i] == before[i] {
      BestsPrefix(groups, g, i);
      BestsPrefix(groups, g + 1, i);
    }
    BestsPrefix(groups, g + 1, g);
    OneLonger(before, after, best);
    SizeAppend(before, [best]);
  }

  /** The candidates of the groups that are not among those already taken, in order. */
  function Remaining(groups: seq<seq<Excerpt>>, taken: set<(Key, nat)>): seq<Excerpt> {
    if groups == [] then [] else Remaining(groups[..|groups| - 1], taken) + Others(groups[|groups| - 1], taken)
  }

  function Others(group: seq<Excerpt>, taken: set<(Key, nat)>): seq<Excerpt> {
    if group == [] then []
    else
      var last := group[|group| - 1];
      Others(group[..|group| - 1], taken) + if (last.key, last.index) in taken then [] else [last]
  }

  function Ids(es: seq<Excerpt>): set<(Key, nat)> {
    set e | e in es :: (e.key, e.index)
  }

  /** Going down the ranking, each candidate that still fits is taken. */
  function Fill(ranked: seq<Excerpt>, used: nat, budget: int): seq<Excerpt> {
    if ranked == [] then []
    else
      var before, last := Fill(ranked[..|ranked| - 1], used, budget), ranked[|ranked| - 1];
      if used + Size(before) + SizeOf(last) <= budget then before + [last] else before
  }

  function Ranked(groups: seq<seq<Excerpt>>): seq<Excerpt>
    requires NoneEmpty(groups)
  {
    SortBy(Remaining(groups, Ids(Bests(groups))), RankLe)
  }

  /** What is chosen: the best of every group, then what fits of the rest by rank, in source order. */
  function Chosen(groups: seq<seq<Excerpt>>, budget: int): seq<Excerpt>
    requires NoneEmpty(groups)
  {
    SortBy(Bests(groups) + Fill(Ranked(groups), Size(Bests(groups)), budget), PlaceLe)
  }

  lemma {:induction false} SizeAppend(a: seq<Excerpt>, b: seq<Excerpt>)
    ensures Size(a + b) == Size(a) + Size(b)
  {
    if b == [] {
      assert a + b == a;
    } else {
      var k := |b| - 1;
      assert (a + b)[..|a + b| - 1] == a + b[..k];
      SizeAppend(a, b[..k]);
    }
  }

  /** Taking the best of every group stops, with nothing, exactly when together they exceed the budget. */
  method Cover(groups: seq<seq<Excerpt>>, budget: int) returns (r: Option<(seq<Excerpt>, nat)>)
    requires NoneEmpty(groups) && budget > 0
    ensures r.None? <==> Size(Bests(groups)) > budget
    ensures r.Some? ==> r.value == (Bests(groups), Size(Bests(groups)))
  {
    var selected: seq<Excerpt>, used := [], 0;
    for g := 0 to |groups|
      invariant selected == Bests(groups[..g]) && used == Size(selected) <= budget
    {
      BestsNext(groups, g);
      var best := Best(groups[g]);
      if used + SizeOf(best) > budget {
        BestsGrow(groups, g + 1);
        return None;
      }
      selected := selected + [best];
      used := used + SizeOf(best);
    }
    assert groups[..|groups|] == groups;
    r := Some((selected, used));
  }

  lemma {:induction false} BestsGrow(groups: seq<seq<Excerpt>>, g: nat)
    requires NoneEmpty(groups) && g <= |groups|
    ensures Size(Bests(groups[..g])) <= Size(Bests(groups))
    decreases |groups| - g
  {
    if g < |groups| {
      BestsNext(groups, g);
      BestsGrow(groups, g + 1);
    } else {
      assert groups[..g] == groups;
    }
  }

  method FillUp(ranked: seq<Excerpt>, used: nat, budget: int) returns (filled: seq<Excerpt>, used': nat)
    ensures filled == Fill(ranked, used, budget) && used' == used + Size(filled)
  {
    filled, used' := [], used;
    for i := 0 to |ranked|
      invariant filled == Fill(ranked[..i], used, budget) && used' == used + Size(filled)
    {
      assert ranked[..i + 1][..i] == ranked[..i];
      if used' + SizeOf(ranked[i]) <= budget {
        SizeAppend(filled, [ranked[i]]);
        filled := filled + [ranked[i]];
        used' := used' + SizeOf(ranked[i]);
      }
    }
    assert ranked[..|ranked|] == ranked;
  }

  /** The best of every group, then what else fits, in source order, with the characters used. */
  method Choose(groups: seq<seq<Excerpt>>, budget: int) returns (r: Option<(seq<Excerpt>, nat)>)
    requires NoneEmpty(groups) && budget > 0
    ensures r.None? <==> Size(Bests(groups)) > budget
    ensures r.Some? ==> r.value.0 == Chosen(groups, budget) && r.value.1 == Size(Chosen(groups, budget))
  {
    var covered := Cover(groups, budget);
    if covered.None? {
      return None;
    }
    var filled, used := FillUp(Ranked(groups), covered.value.1, budget);
    SizeAppend(covered.value.0, filled);
    SortSize(covered.value.0 + filled, PlaceLe);
    r := Some((SortBy(covered.value.0 + filled, PlaceLe), used));
  }

  // ---- What the selection guarantees -----------------------------------------------------

  lemma {:induction false} FillFits(ranked: seq<Excerpt>, used: nat, budget: int)
    requires used <= budget
    ensures used + Size(Fill(ranked, used, budget)) <= budget
    ensures forall e :: e in Fill(ranked, used, budget) ==> e in ranked
  {
    if ranked == [] {
    } else {
      var init, last := ranked[..|ranked| - 1], ranked[|ranked| - 1];
      FillFits(init, used, budget);
      SizeAppend(Fill(init, used, budget), [last]);
    }
  }

  lemma {:induction false} FillDistinct(ranked: seq<Excerpt>, used: nat, budget: int)
    requires Distinct(ranked) && used <= budget
    ensures Distinct(Fill(ranked, used, budget))
  {
    if ranked == [] {
    } else {
      var init := ranked[..|ranked| - 1];
      FillDistinct(init, used, budget);
      FillFits(init, used, budget);
      assert ranked[|ranked| - 1] !in Fill(init, used, budget);
    }
  }

  /** A candidate passed over did not fit beside what ranked before it, so it does not fit beside all of it. */
  lemma {:induction false} FillRejects(ranked: seq<Excerpt>, used: nat, budget: int, e: Excerpt)
    requires e in ranked && e !in Fill(ranked, used, budget)
    ensures used + Size(Fill(ranked, used, budget)) + SizeOf(e) > budget
  {
    var init, last := ranked[..|ranked| - 1], ranked[|ranked| - 1];
    SizeAppend(Fill(init, used, budget), [last]);
    if e in init {
      FillRejects(init, used, budget, e);
    }
  }

  /** Filling is greedy by rank: a candidate is taken exactly when it fits beside what was taken of those ranked
      before it. */
  lemma {:induction false} FillIsGreedy(ranked: seq<Excerpt>, used: nat, budget: int, k: nat)
    requires Distinct(ranked) && used <= budget && k < |ranked|
    ensures ranked[k] in Fill(ranked, used, budget) <==>
      used + Size(Fill(ranked[..k], used, budget)) + SizeOf(ranked[k]) <= budget
    decreases |ranked|
  {
    var last := |ranked| - 1;
    FillFits(ranked[..last], used, budget);
    if k < last {
      assert ranked[..last][..k] == ranked[..k];
      FillIsGreedy(ranked[..last], used, budget, k);
    } else {
      assert ranked[last] !in ranked[..last];
    }
  }

  /** Each group holds the excerpts of one resource by position, and no two groups share a resource. */
  ghost predicate WellPlaced(groups: seq<seq<Excerpt>>) {
    && (forall g, i :: 0 <= g < |groups| && 0 <= i < |groups[g]| ==>
          groups[g][i].index == i && groups[g][i].key == groups[g][0].key)
    && forall g, h :: 0 <= g < h < |groups| && groups[g] != [] && groups[h] != [] ==>
         groups[g][0].key != groups[h][0].key
  }

  ghost predicate InGroups(groups: seq<seq<Excerpt>>, e: Excerpt) {
    exists g :: 0 <= g < |groups| && e in groups[g]
  }

  lemma {:induction false} OthersSpec(group: seq<Excerpt>, taken: set<(Key, nat)>, e: Excerpt)
    ensures e in Others(group, taken) <==> e in group && (e.key, e.index) !in taken
  {
    if group == [] {
    } else {
      OthersSpec(group[..|group| - 1], taken, e);
      assert e in group <==> e in group[..|group| - 1] || e == group[|group| - 1];
    }
  }

  lemma InGroupsStep(groups: seq<seq<Excerpt>>, e: Excerpt)
    requires groups != []
    ensures InGroups(groups, e) <==> InGroups(groups[..|groups| - 1], e) || e in groups[|groups| - 1]
  {
    var k := |groups| - 1;
    if InGroups(groups[..k], e) {
      var g :| 0 <= g < k && e in groups[..k][g];
      assert e in groups[g];
    }
    if InGroups(groups, e) {
      var g :| 0 <= g < |groups| && e in groups[g];
      assert g < k ==> e in groups[..k][g];
    }
  }

  lemma {:induction false} RemainingSpec(groups: seq<seq<Excerpt>>, taken: set<(Key, nat)>, e: Excerpt)
    ensures e in Remaining(groups, taken) <==> InGroups(groups, e) && (e.key, e.index) !in taken
  {
    if groups == [] {
    } else {
      RemainingSpec(groups[..|groups| - 1], taken, e);
      OthersSpec(groups[|groups| - 1], taken, e);
      InGroupsStep(groups, e);
    }
  }

  /** One place, one excerpt: within the groups a place identifies its excerpt. */
  lemma PlaceIdentifies(groups: seq<seq<Excerpt>>, a: Excerpt, b: Excerpt)
    requires WellPlaced(groups) && InGroups(groups, a) && InGroups(groups, b)
    requires a.key == b.key && a.index == b.index
    ensures a == b
  {
    var g :| 0 <= g < |groups| && a in groups[g];
    var h :| 0 <= h < |groups| && b in groups[h];
    SameGroup(groups, g, h, a, b);
  }

  lemma SameGroup(groups: seq<seq<Excerpt>>, g: nat, h: nat, a: Excerpt, b: Excerpt)
    requires WellPlaced(groups) && g < |groups| && h < |groups| && a in groups[g] && b in groups[h] && a.key == b.key
    ensures g == h && (a.index == b.index ==> a == b)
  {
    var i :| 0 <= i < |groups[g]| && groups[g][i] == a;
    var j :| 0 <= j < |groups[h]| && groups[h][j] == b;
    assert groups[g][i].key == groups[g][0].key && groups[h][j].key == groups[h][0].key;
    assert a.index == i && b.index == j;
  }

  lemma KeysApart(groups: seq<seq<Excerpt>>, g: nat, h: nat, a: Excerpt, b: Excerpt)
    requires WellPlaced(groups) && g < h < |groups| && a in groups[g] && b in groups[h]
    ensures a.key != b.key
  {
    var i :| 0 <= i < |groups[g]| && groups[g][i] == a;
    var j :| 0 <= j < |groups[h]| && groups[h][j] == b;
    assert groups[g][i].key == groups[g][0].key && groups[h][j].key == groups[h][0].key;
  }

  lemma {:induction false} OthersDistinct(group: seq<Excerpt>, taken: set<(Key, nat)>)
    requires Distinct(group)
    ensures Distinct(Others(group, taken))
  {
    if group == [] {
    } else {
      OthersDistinct(group[..|group| - 1], taken);
      OthersSpec(group[..|group| - 1], taken, group[|group| - 1]);
    }
  }

  lemma {:induction false} RemainingDistinct(groups: seq<seq<Excerpt>>, taken: set<(Key, nat)>)
    requires WellPlaced(groups)
    ensures Distinct(Remaining(groups, taken))
  {
    if groups == [] {
    } else {
      var k := |groups| - 1;
      RemainingDistinct(groups[..k], taken);
      assert Distinct(groups[k]);
      OthersDistinct(groups[k], taken);
      forall e | e in Others(groups[k], taken) ensures e !in Remaining(groups[..k], taken) {
        OthersSpec(groups[k], taken, e);
        RemainingSpec(groups[..k], taken, e);
        NotInEarlier(groups, k, e);
      }
      DistinctConcat(Remaining(groups[..k], taken), Others(groups[k], taken));
    }
  }

  lemma NotInEarlier(groups: seq<seq<Excerpt>>, k: nat, e: Excerpt)
    requires WellPlaced(groups) && k < |groups| && e in groups[k]
    ensures !InGroups(groups[..k], e)
  {
    forall g | 0 <= g < k ensures e !in groups[g] {
      if e in groups[g] {
        SameGroup(groups, g, k, e, e);
      }
    }
  }

  /** The characters of those excerpts that are kept. */
  ghost function SizeWhere(es: seq<Excerpt>, keep: Excerpt -> bool): nat {
    if es == [] then 0
    else SizeWhere(es[..|es| - 1], keep) + if keep(es[|es| - 1]) then SizeOf(es[|es| - 1]) else 0
  }

  /** The leading candidates, and those others that `e` does not outrank. */
  ghost function AheadOf(groups: seq<seq<Excerpt>>, e: Excerpt): Excerpt -> bool {
    (x: Excerpt) => IsLeader(groups, x) || !Outranks(e, x)
  }

  /** Everything a reader of the selection may rely on: it is within the budget, in source order, made of candidates,
      and holds a leading one of every group; a candidate left out would not have fitted, not even beside the
      leading ones and the chosen ones that it does not outrank. */
  ghost predicate SoundSelection(groups: seq<seq<Excerpt>>, budget: int, selected: seq<Excerpt>) {
    && Size(selected) <= budget
    && (forall i, j :: 0 <= i < j < |selected| ==> Before(selected[i], selected[j]))
    && (forall e :: e in selected ==> InGroups(groups, e))
    && (forall g :: 0 <= g < |groups| ==> HoldsLeader(selected, groups[g]))
    && (forall e :: InGroups(groups, e) && e !in selected ==>
          SizeWhere(selected, AheadOf(groups, e)) + SizeOf(e) > budget)
  }

  ghost predicate HoldsLeader(selected: seq<Excerpt>, group: seq<Excerpt>) {
    exists e :: e in selected && Leads(e, group)
  }

  /** One leading candidate of every group, in order. */
  ghost predicate Leaders(groups: seq<seq<Excerpt>>, leaders: seq<Excerpt>) {
    |leaders| == |groups| && forall g :: 0 <= g < |groups| ==> Leads(leaders[g], groups[g])
  }

  lemma BestLeads(group: seq<Excerpt>)
    requires group != [] && forall e :: e in group ==> e.key == group[0].key
    ensures Leads(Best(group), group)
  {
    BestIsBest(group);
    forall e | e in group
      ensures !Outranks(e, Best(group)) && (Outranks(Best(group), e) || Best(group).index <= e.index)
    {
      OrdersByFields(Best(group), e);
    }
  }

  lemma GroupHasOneKey(groups: seq<seq<Excerpt>>, g: nat)
    requires WellPlaced(groups) && g < |groups| && groups[g] != []
    ensures forall e :: e in groups[g] ==> e.key == groups[g][0].key
  {
    forall e | e in groups[g] ensures e.key == groups[g][0].key {
      var i :| 0 <= i < |groups[g]| && groups[g][i] == e;
    }
  }

  /** The best candidates are the leading ones. */
  lemma BestsLead(groups: seq<seq<Excerpt>>)
    requires NoneEmpty(groups) && WellPlaced(groups)
    ensures Leaders(groups, Bests(groups))
  {
    forall g | 0 <= g < |groups| ensures Leads(Bests(groups)[g], groups[g]) {
      GroupHasOneKey(groups, g);
      BestLeads(groups[g]);
    }
  }

  lemma {:induction false} SizeWhereAppend(a: seq<Excerpt>, b: seq<Excerpt>, keep: Excerpt -> bool)
    ensures SizeWhere(a + b, keep) == SizeWhere(a, keep) + SizeWhere(b, keep)
  {
    if b == [] {
      assert a + b == a;
    } else {
      var k := |b| - 1;
      assert (a + b)[..|a + b| - 1] == a + b[..k];
      SizeWhereAppend(a, b[..k], keep);
    }
  }

  lemma {:induction false} AllKept(es: seq<Excerpt>, keep: Excerpt -> bool)
    requires forall e :: e in es ==> keep(e)
    ensures SizeWhere(es, keep) == Size(es)
  {
    if es == [] {
    } else {
      AllKept(es[..|es| - 1], keep);
    }
  }

  lemma {:induction false} InsertSizeWhere(x: Excerpt, s: seq<Excerpt>, le: (Excerpt, Excerpt) -> bool,
                                           keep: Excerpt -> bool)
    ensures SizeWhere(Insert(x, s, le), keep) == SizeWhere([x], keep) + SizeWhere(s, keep)
  {
    SizeWhereAppend([x], s, keep);
    if s != [] && !le(x, s[0]) {
      InsertSizeWhere(x, s[1..], le, keep);
      SizeWhereAppend([s[0]], Insert(x, s[1..], le), keep);
      SizeWhereAppend([s[0]], s[1..], keep);
      assert s == [s[0]] + s[1..];
    }
  }

  lemma {:induction false} SortSizeWhere(s: seq<Excerpt>, le: (Excerpt, Excerpt) -> bool, keep: Excerpt -> bool)
    ensures SizeWhere(SortBy(s, le), keep) == SizeWhere(s, keep)
  {
    if s == [] {
    } else {
      SortSizeWhere(s[1..], le, keep);
      InsertSizeWhere(s[0], SortBy(s[1..], le), le, keep);
      SizeWhereAppend([s[0]], s[1..], keep);
      assert s == [s[0]] + s[1..];
    }
  }

  lemma {:induction false} FillGrows(ranked: seq<Excerpt>, used: nat, budget: int, k: nat)
    requires k <= |ranked|
    ensures Fill(ranked[..k], used, budget) <= Fill(ranked, used, budget)
    decreases |ranked|
  {
    if k == |ranked| {
      assert ranked[..k] == ranked;
    } else {
      var init := ranked[..|ranked| - 1];
      assert init[..k] == ranked[..k];
      FillGrows(init, used, budget, k);
    }
  }

  /** What was filled in before a rejected candidate's turn, and the candidate, do not fit together. */
  lemma RejectedAtItsTurn(ranked: seq<Excerpt>, used: nat, budget: int, e: Excerpt) returns (before: seq<Excerpt>)
    requires Distinct(ranked) && SortedBy(RankLe, ranked) && used <= budget
    requires e in ranked && e !in Fill(ranked, used, budget)
    ensures before <= Fill(ranked, used, budget) && used + Size(before) + SizeOf(e) > budget
    ensures forall x :: x in before ==> !Outranks(e, x)
  {
    var k :| 0 <= k < |ranked| && ranked[k] == e;
    before := Fill(ranked[..k], used, budget);
    FillIsGreedy(ranked, used, budget, k);
    FillGrows(ranked, used, budget, k);
    FillFits(ranked[..k], used, budget);
    forall x | x in before ensures !Outranks(e, x) {
      var i :| 0 <= i < k && ranked[..k][i] == x;
      OrdersByFields(ranked[i], ranked[k]);
    }
  }

  /** A candidate left out would not have fitted beside the leading ones and the chosen ones it does not outrank. */
  lemma LeftOutRightly(groups: seq<seq<Excerpt>>, budget: int, e: Excerpt)
    requires NoneEmpty(groups) && WellPlaced(groups) && Size(Bests(groups)) <= budget
    requires InGroups(groups, e) && e !in Chosen(groups, budget)
    ensures SizeWhere(Chosen(groups, budget), AheadOf(groups, e)) + SizeOf(e) > budget
  {
    var bests, keep := Bests(groups), AheadOf(groups, e);
    var filled := ChosenParts(groups, budget);
    RankedSpec(groups);
    var before := RejectedAtItsTurn(Ranked(groups), Size(bests), budget, e);
    KeptAtLeast(before, filled, keep);
    LeadersKept(groups, bests, e);
    AllKept(bests, keep);
    SizeWhereAppend(bests, filled, keep);
    SortSizeWhere(bests + filled, PlaceLe, keep);
  }

  lemma KeptAtLeast(before: seq<Excerpt>, filled: seq<Excerpt>, keep: Excerpt -> bool)
    requires before <= filled && forall x :: x in before ==> keep(x)
    ensures Size(before) <= SizeWhere(filled, keep)
  {
    AllKept(before, keep);
    SizeWhereAppend(before, filled[|before|..], keep);
    assert filled == before + filled[|before|..];
  }

  lemma LeadersKept(groups: seq<seq<Excerpt>>, leaders: seq<Excerpt>, e: Excerpt)
    requires NoneEmpty(groups) && WellPlaced(groups) && leaders == Bests(groups)
    ensures forall x :: x in leaders ==> AheadOf(groups, e)(x)
  {
    BestsLead(groups);
    forall x | x in leaders ensures IsLeader(groups, x) {
      var g :| 0 <= g < |leaders| && leaders[g] == x;
      assert Leads(x, groups[g]);
    }
  }

  lemma {:induction false} InsertSize(x: Excerpt, s: seq<Excerpt>, le: (Excerpt, Excerpt) -> bool)
    ensures Size(Insert(x, s, le)) == SizeOf(x) + Size(s)
  {
    SizeAppend([x], s);
    if s != [] && !le(x, s[0]) {
      InsertSize(x, s[1..], le);
      SizeAppend([s[0]], Insert(x, s[1..], le));
      SizeAppend([s[0]], s[1..]);
      assert s == [s[0]] + s[1..];
    }
  }

  lemma {:induction false} SortSize(s: seq<Excerpt>, le: (Excerpt, Excerpt) -> bool)
    ensures Size(SortBy(s, le)) == Size(s)
  {
    if s == [] {
    } else {
      SortSize(s[1..], le);
      InsertSize(s[0], SortBy(s[1..], le), le);
      SizeAppend([s[0]], s[1..]);
      assert s == [s[0]] + s[1..];
    }
  }

  lemma BestsSpec(groups: seq<seq<Excerpt>>)
    requires NoneEmpty(groups) && WellPlaced(groups)
    ensures |Bests(groups)| == |groups| && Distinct(Bests(groups))
    ensures forall g :: 0 <= g < |groups| ==> Bests(groups)[g] == Best(groups[g])
    ensures forall e :: e in Bests(groups) ==> InGroups(groups, e)
  {
    var bests := Bests(groups);
    forall g | 0 <= g < |groups| ensures bests[g] == Best(groups[g]) && bests[g] in groups[g] {
      BestIn(groups[g]);
    }
    forall g, h | 0 <= g < h < |bests| ensures bests[g] != bests[h] {
      KeysApart(groups, g, h, bests[g], bests[h]);
    }
  }

  /** The candidates ranked after the best ones: each candidate not among the best, once. */
  lemma RankedSpec(groups: seq<seq<Excerpt>>)
    requires NoneEmpty(groups) && WellPlaced(groups)
    ensures Distinct(Ranked(groups)) && SortedBy(RankLe, Ranked(groups))
    ensures forall e :: e in Ranked(groups) <==> InGroups(groups, e) && e !in Bests(groups)
  {
    var bests := Bests(groups);
    var rest := Remaining(groups, Ids(bests));
    RemainingDistinct(groups, Ids(bests));
    RankLeIsTotalPreorder();
    SortBySorts(rest, RankLe);
    DistinctByMultiset(rest, Ranked(groups));
    SameMultisetSameElements(rest, Ranked(groups));
    BestsSpec(groups);
    forall e ensures e in Ranked(groups) <==> InGroups(groups, e) && e !in bests {
      RemainingSpec(groups, Ids(bests), e);
      if InGroups(groups, e) && (e.key, e.index) in Ids(bests) {
        var b :| b in bests && (b.key, b.index) == (e.key, e.index);
        PlaceIdentifies(groups, b, e);
      }
    }
  }

  /** What is chosen, seen as the best of every group and what was filled in. */
  lemma ChosenParts(groups: seq<seq<Excerpt>>, budget: int) returns (filled: seq<Excerpt>)
    requires NoneEmpty(groups) && WellPlaced(groups) && Size(Bests(groups)) <= budget
    ensures filled == Fill(Ranked(groups), Size(Bests(groups)), budget)
    ensures Distinct(Chosen(groups, budget)) && SortedBy(PlaceLe, Chosen(groups, budget))
    ensures Size(Chosen(groups, budget)) == Size(Bests(groups)) + Size(filled) <= budget
    ensures forall e :: e in Chosen(groups, budget) <==> e in Bests(groups) || e in filled
    ensures forall e :: e in filled ==> InGroups(groups, e)
  {
    var bests := Bests(groups);
    filled := Fill(Ranked(groups), Size(bests), budget);
    RankedSpec(groups);
    BestsSpec(groups);
    FillFits(Ranked(groups), Size(bests), budget);
    FillDistinct(Ranked(groups), Size(bests), budget);
    DistinctConcat(bests, filled);
    SizeAppend(bests, filled);
    SortSize(bests + filled, PlaceLe);
    PlaceLeIsTotalPreorder();
    SortBySorts(bests + filled, PlaceLe);
    DistinctByMultiset(bests + filled, Chosen(groups, budget));
    SameMultisetSameElements(bests + filled, Chosen(groups, budget));
  }

  /** Whenever the best candidates fit, the choice is sound. */
  lemma ChosenIsSound(groups: seq<seq<Excerpt>>, budget: int)
    requires NoneEmpty(groups) && WellPlaced(groups) && Size(Bests(groups)) <= budget
    ensures SoundSelection(groups, budget, Chosen(groups, budget))
  {
    var chosen, bests := Chosen(groups, budget), Bests(groups);
    var filled := ChosenParts(groups, budget);
    BestsSpec(groups);
    BestsLead(groups);
    forall i, j | 0 <= i < j < |chosen| ensures Before(chosen[i], chosen[j]) {
      ChosenInOrder(groups, chosen, i, j);
    }
    forall e | InGroups(groups, e) && e !in chosen ensures SizeWhere(chosen, AheadOf(groups, e)) + SizeOf(e) > budget {
      LeftOutRightly(groups, budget, e);
    }
    forall g | 0 <= g < |groups| ensures HoldsLeader(chosen, groups[g]) {
      assert bests[g] in bests && Leads(bests[g], groups[g]);
    }
  }

  lemma ChosenInOrder(groups: seq<seq<Excerpt>>, chosen: seq<Excerpt>, i: nat, j: nat)
    requires WellPlaced(groups) && Distinct(chosen) && SortedBy(PlaceLe, chosen) && i < j < |chosen|
    requires forall e :: e in chosen ==> InGroups(groups, e)
    ensures Before(chosen[i], chosen[j])
  {
    if PlaceLe(chosen[j], chosen[i]) {
      if chosen[i].key != chosen[j].key {
        KeyLeAntisymmetric(chosen[i].key, chosen[j].key);
      }
      PlaceIdentifies(groups, chosen[i], chosen[j]);
    }
    OrdersByFields(chosen[i], chosen[j]);
  }

  /** Candidates cut from distinct resources are well placed. */
  lemma GroupedIsWellPlaced(resources: seq<Resource>, limit: int, text: Texts, groups: seq<seq<Excerpt>>)
    requires Grouped(resources, limit, text, groups) && DistinctKeys(resources)
    ensures NoneEmpty(groups) && WellPlaced(groups)
  {
    forall g | 0 <= g < |groups|
      ensures groups[g] != [] && forall i :: 0 <= i < |groups[g]| ==>
                groups[g][i].index == i && groups[g][i].key == resources[g].key
    {
      assert GroupOf(resources[g], limit, text, groups[g]);
      assert forall i :: 0 <= i < |groups[g]| ==> CutFrom(resources[g], limit, text, i, groups[g][i]);
    }
  }

  // ---- The manifest ----------------------------------------------------------------------

  datatype Schema = ContextCompaction1 | OtherSchema(text: string)
  datatype Ceiling = PreparePr | OtherCeiling(text: string)
  datatype Authority = HumanOnly | Nobody | OtherAuthority(text: string)
  datatype ReadyReason = CompactionNotRequired | ExtractiveContextCompactionReady | OtherReason(text: string)

  /** One excerpt as the manifest lists it. */
  datatype Listing = Listing(key: Key, source: string, excerpt: string, startLine: int, endLine: int, charCount: nat,
                             hits: Option<nat>)

  datatype Body = Body(schema: Schema, reason: ReadyReason, compacted: bool, originalResources: nat,
                       selectedResources: nat, originalChars: nat, selectedChars: Option<int>, maxChars: Option<int>,
                       truthPreserved: Option<bool>, abstractive: Option<bool>, dropped: Option<int>,
                       listings: seq<Listing>, ceiling: Ceiling, production: Authority, merge: Authority,
                       execution: Authority)

  datatype Manifest = Manifest(body: Body, digest: string)

  datatype ManifestFault =
    | SchemaInvalid | AutonomousCeilingWeakened | ProductionAuthorityWeakened | ProtectedMainMergeWeakened
    | ExecutionAuthorityWeakened | SourceTruthNotPreserved | AbstractiveCompactionForbidden | ResourceCoverageLost
    | DigestMismatch | BudgetExceeded

  /** A manifest in order: of this schema, with its four authorities in place, truth preserved, nothing abstracted and
      nothing dropped, under its own digest and within its budget; figures not given count as nought. */
  predicate Valid(m: Manifest, seal: Body -> string) {
    && m.body.schema == ContextCompaction1 && m.body.ceiling == PreparePr && m.body.production == HumanOnly
    && m.body.merge == HumanOnly && m.body.execution == Nobody && m.body.truthPreserved == Some(true)
    && m.body.abstractive == Some(false) && m.body.dropped == Some(0) && m.digest == seal(m.body)
    && Stated(m.body.selectedChars) <= Stated(m.body.maxChars)
  }

  /** What each complaint is about. */
  predicate Broken(m: Manifest, seal: Body -> string, fault: ManifestFault) {
    match fault
    case SchemaInvalid => m.body.schema != ContextCompaction1
    case AutonomousCeilingWeakened => m.body.ceiling != PreparePr
    case ProductionAuthorityWeakened => m.body.production != HumanOnly
    case ProtectedMainMergeWeakened => m.body.merge != HumanOnly
    case ExecutionAuthorityWeakened => m.body.execution != Nobody
    case SourceTruthNotPreserved => m.body.truthPreserved != Some(true)
    case AbstractiveCompactionForbidden => m.body.abstractive != Some(false)
    case ResourceCoverageLost => m.body.dropped != Some(0)
    case DigestMismatch => m.digest != seal(m.body)
    case BudgetExceeded => Stated(m.body.selectedChars) > Stated(m.body.maxChars)
  }

  /** The order in which complaints are raised. */
  function Turn(fault: ManifestFault): nat {
    match fault
    case SchemaInvalid => 0
    case AutonomousCeilingWeakened => 1
    case ProductionAuthorityWeakened => 2
    case ProtectedMainMergeWeakened => 3
    case ExecutionAuthorityWeakened => 4
    case SourceTruthNotPreserved => 5
    case AbstractiveCompactionForbidden => 6
    case ResourceCoverageLost => 7
    case DigestMismatch => 8
    case BudgetExceeded => 9
  }

  /** The validator's first complaint about a manifest, if it has one. */
  function ValidateManifest(m: Manifest, seal: Body -> string): (r: Option<ManifestFault>)
    ensures r.None? <==> Valid(m, seal)
    ensures r.Some? ==>
      Broken(m, seal, r.value) && forall other :: Broken(m, seal, other) ==> Turn(r.value) <= Turn(other)
  {
    if m.body.schema != ContextCompaction1 then Some(SchemaInvalid)
    else if m.body.ceiling != PreparePr then Some(AutonomousCeilingWeakened)
    else if m.body.production != HumanOnly then Some(ProductionAuthorityWeakened)
    else if m.body.merge != HumanOnly then Some(ProtectedMainMergeWeakened)
    else if m.body.execution != Nobody then Some(ExecutionAuthorityWeakened)
    else if m.body.truthPreserved != Some(true) then Some(SourceTruthNotPreserved)
    else if m.body.abstractive != Some(false) then Some(AbstractiveCompactionForbidden)
    else if m.body.dropped != Some(0) then Some(ResourceCoverageLost)
    else if m.digest != seal(m.body) then Some(DigestMismatch)
    else if Stated(m.body.selectedChars) > Stated(m.body.maxChars) then Some(BudgetExceeded)
    else None
  }

  function Stated(n: Option<int>): int {
    if n.Some? then n.value else 0
  }

  // ---- Compaction ------------------------------------------------------------------------

  /** A passage handed on; the span and digests are given for excerpts only. */
  datatype Passage = Passage(key: Key, content: string, span: Option<(int, int)>, digests: Option<(string, string)>)

  datatype Ready = Ready(context: seq<Passage>, manifest: Manifest)

  function Total(resources: seq<Resource>): nat {
    if resources == [] then 0 else Total(resources[..|resources| - 1]) + |resources[|resources| - 1].content|
  }

  function Min(a: int, b: int): (m: int)
    ensures m <= a && m <= b && (m == a || m == b)
  {
    if a <= b then a else b
  }

  function Whole(r: Resource): Passage {
    Passage(r.key, r.content, None, None)
  }

  function WholeListing(r: Resource, text: Texts): Listing {
    Listing(r.key, text.digest(r.content), text.digest(r.content), 1,
            if |SplitLines(r.content)| > 1 then |SplitLines(r.content)| else 1, |r.content|, None)
  }

  function Cut(e: Excerpt, text: Texts): Passage {
    Passage(e.key, e.chunk.content, Some((e.chunk.startLine, e.chunk.endLine)),
            Some((e.source, text.digest(e.chunk.content))))
  }

  function CutListing(e: Excerpt, text: Texts): Listing {
    Listing(e.key, e.source, text.digest(e.chunk.content), e.chunk.startLine, e.chunk.endLine, SizeOf(e), Some(e.hits))
  }

  function KeysOf(es: seq<Excerpt>): set<Key> {
    set e | e in es :: e.key
  }

  function MakeManifest(reason: ReadyReason, compacted: bool, original: nat, selected: nat, originalChars: nat,
                        selectedChars: int, maxChars: int, listings: seq<Listing>, seal: Body -> string): (m: Manifest)
    ensures selectedChars <= maxChars <==> Valid(m, seal)
  {
    var body := Body(ContextCompaction1, reason, compacted, original, selected, originalChars, Some(selectedChars),
                     Some(maxChars), Some(true), Some(false), Some(0), listings, PreparePr, HumanOnly, HumanOnly,
                       Nobody);
    Manifest(body, seal(body))
  }

  /** The resources in the order the program works through them: by key. */
  ghost predicate InOrderOf(items: seq<RawItem>, resources: seq<Resource>) {
    && (exists normal: seq<Resource> :: NormalOf(items, normal) && multiset(resources) == multiset(normal))
    && (forall i, j :: 0 <= i < j < |resources| ==> KeyBefore(resources[i].key, resources[j].key))
    && DistinctKeys(resources)
  }

  method Resources(items: seq<RawItem>) returns (r: Result<seq<Resource>, HoldReason>)
    ensures r.Ok? <==> Sound(items)
    ensures r.Ok? ==> InOrderOf(items, r.value) && |r.value| == |items|
    ensures r.Ok? ==> forall i :: 0 <= i < |r.value| ==> r.value[i].content != []
    ensures r.Err? ==> exists i :: FirstFlaw(items, i, r.error)
  {
    r := Normalize(items);
    if r.Ok? {
      ghost var normal := r.value;
      r := Ok(SortBy(r.value, ResourceLe));
      SortedResources(normal);
      forall i | 0 <= i < |r.value| ensures r.value[i].content != [] {
        assert r.value[i] in normal;
        var j :| 0 <= j < |normal| && normal[j] == r.value[i];
        assert Normal(items[j]) == Some(normal[j]);
      }
    }
  }

  lemma SortedResources(normal: seq<Resource>)
    requires DistinctKeys(normal)
    ensures DistinctKeys(SortBy(normal, ResourceLe))
    ensures
      var sorted := SortBy(normal, ResourceLe);
      forall i, j :: 0 <= i < j < |sorted| ==> KeyBefore(sorted[i].key, sorted[j].key)
    ensures |SortBy(normal, ResourceLe)| == |normal|
    ensures forall r :: r in SortBy(normal, ResourceLe) ==> r in normal
  {
    var sorted := SortBy(normal, ResourceLe);
    ResourceLeIsTotalPreorder();
    SortBySorts(normal, ResourceLe);
    SameMultisetSameElements(normal, sorted);
    DistinctByMultiset(normal, sorted);
    forall i, j | 0 <= i < j < |sorted| ensures sorted[i].key != sorted[j].key {
      assert sorted[i] in normal && sorted[j] in normal && sorted[i] != sorted[j];
    }
    forall i, j | 0 <= i < j < |sorted| ensures KeyBefore(sorted[i].key, sorted[j].key) {
      assert ResourceLe(sorted[i], sorted[j]);
    }
  }

  lemma BestIn(group: seq<Excerpt>)
    requires group != []
    ensures Best(group) in group
  {
    BestIsBest(group);
  }

  lemma CandidateKey(resource: Resource, limit: int, text: Texts, group: seq<Excerpt>, e: Excerpt)
    requires GroupOf(resource, limit, text, group) && e in group
    ensures e.key == resource.key
  {
    var i :| 0 <= i < |group| && group[i] == e;
    assert CutFrom(resource, limit, text, i, group[i]);
  }

  /** A selection that holds, from every group and from groups only, excerpts of that group's resource
      covers exactly the resources. */
  lemma SelectedKeys(resources: seq<Resource>, selected: seq<Excerpt>, owner: seq<Excerpt>)
    requires DistinctKeys(resources) && |owner| == |resources|
    requires forall g :: 0 <= g < |owner| ==> owner[g] in selected && owner[g].key == resources[g].key
    requires forall e :: e in selected ==> exists g :: 0 <= g < |resources| && resources[g].key == e.key
    ensures |KeysOf(selected)| == |resources|
  {
    var keys := seq(|resources|, g requires 0 <= g < |resources| => resources[g].key);
    forall k ensures k in KeysOf(selected) <==> k in keys {
      KeySelected(resources, selected, owner, keys, k);
    }
    DistinctCardinality(keys, KeysOf(selected));
  }

  lemma KeySelected(resources: seq<Resource>, selected: seq<Excerpt>, owner: seq<Excerpt>, keys: seq<Key>, k: Key)
    requires |owner| == |resources| == |keys| && forall g :: 0 <= g < |keys| ==> keys[g] == resources[g].key
    requires forall g :: 0 <= g < |owner| ==> owner[g] in selected && owner[g].key == resources[g].key
    requires forall e :: e in selected ==> exists g :: 0 <= g < |resources| && resources[g].key == e.key
    ensures k in KeysOf(selected) <==> k in keys
  {
    if k in keys {
      var g :| 0 <= g < |keys| && keys[g] == k;
      assert owner[g] in selected;
    }
    if k in KeysOf(selected) {
      var e :| e in selected && e.key == k;
      var g :| 0 <= g < |resources| && resources[g].key == e.key;
      assert keys[g] == k;
    }
  }

  /** A sound selection covers every resource. */
  lemma SoundSelectionCovers(resources: seq<Resource>, limit: int, text: Texts, groups: seq<seq<Excerpt>>, budget: int,
                             selected: seq<Excerpt>)
    requires Grouped(resources, limit, text, groups) && DistinctKeys(resources)
    requires SoundSelection(groups, budget, selected)
    ensures |KeysOf(selected)| == |resources|
  {
    var owner := OwnersOf(resources, limit, text, groups, selected);
    forall e | e in selected ensures exists g :: 0 <= g < |resources| && resources[g].key == e.key {
      assert InGroups(groups, e);
      var g :| 0 <= g < |groups| && e in groups[g];
      CandidateKey(resources[g], limit, text, groups[g], e);
    }
    SelectedKeys(resources, selected, owner);
  }

  lemma OwnersOf(resources: seq<Resource>, limit: int, text: Texts, groups: seq<seq<Excerpt>>, selected: seq<Excerpt>)
    returns (owner: seq<Excerpt>)
    requires Grouped(resources, limit, text, groups)
    requires forall g :: 0 <= g < |groups| ==> HoldsLeader(selected, groups[g])
    ensures |owner| == |resources|
    ensures forall g :: 0 <= g < |owner| ==> owner[g] in selected && owner[g].key == resources[g].key
  {
    owner := seq(|groups|, g requires 0 <= g < |groups| => LeaderIn(selected, groups[g]));
    forall g | 0 <= g < |owner| ensures owner[g] in selected && owner[g].key == resources[g].key {
      CandidateKey(resources[g], limit, text, groups[g], owner[g]);
    }
  }

  ghost function LeaderIn(selected: seq<Excerpt>, group: seq<Excerpt>): (e: Excerpt)
    requires HoldsLeader(selected, group)
    ensures e in selected && e in group
  {
    var e :| e in selected && Leads(e, group);
    e
  }

  /** An excerpt handed on with its lines and digests, and listed with its size and hits. */
  predicate PassesOn(p: Passage, l: Listing, e: Excerpt, text: Texts) {
    && p.key == l.key == e.key && p.content == e.chunk.content
    && p.span == Some((e.chunk.startLine, e.chunk.endLine)) == Some((l.startLine, l.endLine))
    && p.digests == Some((e.source, text.digest(e.chunk.content))) == Some((l.source, l.excerpt))
    && l.charCount == |e.chunk.content| && l.hits == Some(e.hits)
  }

  /** A resource handed on as it is; listed as one excerpt of all its lines. */
  predicate PassesWhole(p: Passage, l: Listing, r: Resource, text: Texts) {
    && p.key == l.key == r.key && p.content == r.content && p.span.None? && p.digests.None?
    && l.source == l.excerpt == text.digest(r.content) && l.charCount == |r.content| && l.hits.None?
    && l.startLine == 1 <= l.endLine && (l.endLine == |SplitLines(r.content)| || |SplitLines(r.content)| == 0)
  }

  /** `ready` hands on `selected`, excerpt by excerpt, and its manifest lists and counts them. */
  ghost predicate HandsOn(ready: Ready, resources: seq<Resource>, selected: seq<Excerpt>, maxChars: int, text: Texts) {
    var body := ready.manifest.body;
    && |ready.context| == |body.listings| == |selected|
    && (forall i :: 0 <= i < |selected| ==> PassesOn(ready.context[i], body.listings[i], selected[i], text))
    && body.reason == ExtractiveContextCompactionReady && body.compacted
    && body.originalResources == body.selectedResources == |resources| && body.originalChars == Total(resources)
    && body.selectedChars == Some(Size(selected)) && body.maxChars == Some(maxChars)
  }

  /** `ready` hands on every resource whole. */
  ghost predicate HandsOnWhole(ready: Ready, resources: seq<Resource>, maxChars: int, text: Texts) {
    var body := ready.manifest.body;
    && |ready.context| == |body.listings| == |resources|
    && (forall i :: 0 <= i < |resources| ==> PassesWhole(ready.context[i], body.listings[i], resources[i], text))
    && body.reason == CompactionNotRequired && !body.compacted
    && body.originalResources == body.selectedResources == |resources|
    && Some(body.originalChars) == Some(Total(resources)) && body.selectedChars == Some(Total(resources))
    && body.maxChars == Some(maxChars)
  }

  /** Excerpts are needed: the coverage hold happens exactly when the best candidates together exceed the
      budget; otherwise the selection is sound, covers every resource, and its manifest passes the validator. */
  method Select(resources: seq<Resource>, text: Texts, seal: Body -> string, maxChars: int, chunkChars: int)
    returns (r: Result<Ready, HoldReason>, ghost groups: seq<seq<Excerpt>>, ghost selected: seq<Excerpt>)
    requires maxChars > 0 && chunkChars > 0 && DistinctKeys(resources)
    requires forall i :: 0 <= i < |resources| ==> resources[i].content != []
    ensures Grouped(resources, Min(chunkChars, maxChars), text, groups) && NoneEmpty(groups)
    ensures r.Err? <==> Size(Bests(groups)) > maxChars
    ensures r.Err? ==> r.error == InsufficientForCoverage
    ensures r.Ok? ==> selected == Chosen(groups, maxChars) && SoundSelection(groups, maxChars, selected)
    ensures Leaders(groups, Bests(groups))
    ensures r.Ok? ==> HandsOn(r.value, resources, selected, maxChars, text) && Valid(r.value.manifest, seal)
  {
    var limit := Min(chunkChars, maxChars);
    var candidates := MakeGroups(resources, limit, text);
    groups, selected := candidates, [];
    GroupedIsWellPlaced(resources, limit, text, candidates);
    BestsLead(candidates);
    var chosen := Choose(candidates, maxChars);
    if chosen.None? {
      return Err(InsufficientForCoverage), groups, [];
    }
    selected := chosen.value.0;
    ChosenIsSound(candidates, maxChars);
    SoundSelectionCovers(resources, limit, text, candidates, maxChars, chosen.value.0);
    r := Ok(HandOn(chosen.value.0, |resources|, Total(resources), chosen.value.1, maxChars, text, seal));
  }

  function HandOn(chosen: seq<Excerpt>, original: nat, originalChars: nat, used: nat, maxChars: int, text: Texts,
                  seal: Body -> string): (r: Ready)
    ensures used <= maxChars ==> Valid(r.manifest, seal)
    ensures forall resources: seq<Resource> ::
      |resources| == original == |KeysOf(chosen)| && Total(resources) == originalChars && used == Size(chosen) ==>
        HandsOn(r, resources, chosen, maxChars, text)
  {
    Ready(seq(|chosen|, i requires 0 <= i < |chosen| => Cut(chosen[i], text)),
          MakeManifest(ExtractiveContextCompactionReady, true, original, |KeysOf(chosen)|, originalChars, used,
                       maxChars, seq(|chosen|, i requires 0 <= i < |chosen| => CutListing(chosen[i], text)), seal))
  }

  function HandOnWhole(resources: seq<Resource>, maxChars: int, text: Texts, seal: Body -> string): (r: Ready)
    ensures HandsOnWhole(r, resources, maxChars, text)
    ensures Total(resources) <= maxChars ==> Valid(r.manifest, seal)
  {
    Ready(seq(|resources|, i requires 0 <= i < |resources| => Whole(resources[i])),
          MakeManifest(CompactionNotRequired, false, |resources|, |resources|, Total(resources), Total(resources),
                       maxChars,
                       seq(|resources|, i requires 0 <= i < |resources| => WholeListing(resources[i], text)), seal))
  }

  /** The whole compaction, every outcome: refusals in their order, the resources whole when they fit, and
      otherwise a sound selection of excerpts or the coverage hold. */
  method Compact(items: seq<RawItem>, text: Texts, seal: Body -> string, maxChars: int, chunkChars: int)
    returns (r: Result<Ready, HoldReason>, ghost resources: seq<Resource>, ghost groups: seq<seq<Excerpt>>,
             ghost selected: seq<Excerpt>)
    ensures maxChars <= 0 ==> r == Err(PositiveContextBudgetRequired)
    ensures maxChars > 0 && chunkChars <= 0 ==> r == Err(PositiveChunkBudgetNeeded)
    ensures maxChars > 0 && chunkChars > 0 && items == [] ==> r == Err(AllowedContextRequired)
    ensures maxChars > 0 && chunkChars > 0 && items != [] && !Sound(items) ==>
      r.Err? && exists i :: FirstFlaw(items, i, r.error)
    ensures maxChars > 0 && chunkChars > 0 && items != [] && Sound(items) ==>
      InOrderOf(items, resources) && |resources| == |items|
    ensures r.Ok? ==> Valid(r.value.manifest, seal)
    ensures maxChars > 0 && chunkChars > 0 && items != [] && Sound(items) && Total(resources) <= maxChars ==>
      r.Ok? && HandsOnWhole(r.value, resources, maxChars, text)
    ensures maxChars > 0 && chunkChars > 0 && items != [] && Sound(items) && Total(resources) > maxChars ==>
      && Grouped(resources, Min(chunkChars, maxChars), text, groups) && NoneEmpty(groups)
      && Leaders(groups, Bests(groups))
      && (if Size(Bests(groups)) > maxChars then r == Err(InsufficientForCoverage)
          else r.Ok? && HandsOn(r.value, resources, selected, maxChars, text)
               && SoundSelection(groups, maxChars, selected))
  {
    resources, groups, selected := [], [], [];
    if maxChars <= 0 {
      return Err(PositiveContextBudgetRequired), [], [], [];
    }
    if chunkChars <= 0 {
      return Err(PositiveChunkBudgetNeeded), [], [], [];
    }
    if items == [] {
      return Err(AllowedContextRequired), [], [], [];
    }
    var ordered := Resources(items);
    if ordered.Err? {
      return Err(ordered.error), [], [], [];
    }
    resources := ordered.value;
    if Total(ordered.value) <= maxChars {
      r := Ok(HandOnWhole(ordered.value, maxChars, text, seal));
    } else {
      r, groups, selected := Select(ordered.value, text, seal, maxChars, chunkChars);
    }
  }
}
