/** Shared vocabulary: optional values, results that carry the source's error codes,
    Python's blank-string test, and its ordering and stable sorting of sequences. */
module Prelude {

  datatype Option<+T> = None | Some(value: T)

  /** `Err` stands for a raised exception or an error return; it carries a reason code. */
  datatype Result<+T, +E> = Ok(value: T) | Err(error: E)

  /** The characters `str.strip` removes. */
  predicate IsSpace(c: char) {
    || '\t' <= c <= '\r'
    || '\U{1c}' <= c <= ' '
    || c == '\U{85}' || c == '\U{a0}' || c == '\U{1680}'
    || '\U{2000}' <= c <= '\U{200a}'
    || c == '\U{2028}' || c == '\U{2029}' || c == '\U{202f}' || c == '\U{205f}' || c == '\U{3000}'
  }

  predicate Blank(s: string) {
    s == [] || (IsSpace(s[0]) && Blank(s[1..]))
  }

  function StripLeft(s: string): string {
    if s != [] && IsSpace(s[0]) then StripLeft(s[1..]) else s
  }

  function StripRight(s: string): string {
    if s != [] && IsSpace(s[|s| - 1]) then StripRight(s[..|s| - 1]) else s
  }

  function Strip(s: string): string {
    StripRight(StripLeft(s))
  }

  /** Nothing but space. */
  ghost predicate AllSpace(s: string) {
    forall i :: 0 <= i < |s| ==> IsSpace(s[i])
  }

  lemma {:induction false} BlankIsAllSpace(s: string)
    ensures Blank(s) <==> AllSpace(s)
  {
    if s == [] {
    } else {
      BlankIsAllSpace(s[1..]);
      assert AllSpace(s) ==> IsSpace(s[0]) && forall i :: 0 <= i < |s| - 1 ==> s[1..][i] == s[i + 1];
      assert forall i :: 0 < i < |s| ==> s[i] == s[1..][i - 1];
    }
  }

  /** Stripping takes space off both ends and stops at the first character that is none. */
  ghost predicate Strips(s: string, t: string) {
    && (exists left, right :: left + t + right == s && AllSpace(left) && AllSpace(right))
    && (t != [] ==> !IsSpace(t[0]) && !IsSpace(t[|t| - 1]))
  }

  lemma {:induction false} StripLeftParts(s: string) returns (left: string)
    ensures left + StripLeft(s) == s && AllSpace(left)
    ensures StripLeft(s) != [] ==> !IsSpace(StripLeft(s)[0])
  {
    if s != [] && IsSpace(s[0]) {
      var rest := StripLeftParts(s[1..]);
      left := [s[0]] + rest;
      assert s == [s[0]] + s[1..];
    } else {
      left := [];
    }
  }

  lemma {:induction false} StripRightParts(s: string) returns (right: string)
    ensures StripRight(s) + right == s && AllSpace(right)
    ensures StripRight(s) != [] ==> !IsSpace(StripRight(s)[|StripRight(s)| - 1]) && StripRight(s)[0] == s[0]
  {
    if s != [] && IsSpace(s[|s| - 1]) {
      var rest := StripRightParts(s[..|s| - 1]);
      right := rest + [s[|s| - 1]];
      assert s == s[..|s| - 1] + [s[|s| - 1]];
    } else {
      right := [];
    }
  }

  lemma StripStrips(s: string)
    ensures Strips(s, Strip(s))
    ensures Strip(s) == [] <==> Blank(s)
  {
    var left := StripLeftParts(s);
    var right := StripRightParts(StripLeft(s));
    assert left + Strip(s) + right == s;
    BlankIsAllSpace(s);
    assert Strip(s) != [] ==> s[|left|] == Strip(s)[0];
  }

  ghost predicate Distinct<T>(s: seq<T>) {
    forall i, j :: 0 <= i < j < |s| ==> s[i] != s[j]
  }

  lemma DistinctConcat<T>(s: seq<T>, t: seq<T>)
    requires Distinct(s) && Distinct(t) && forall x :: x in t ==> x !in s
    ensures Distinct(s + t)
  {
    forall i, j | 0 <= i < |s| <= j < |s + t| ensures (s + t)[i] != (s + t)[j] {
      assert s[i] in s && t[j - |s|] in t;
    }
  }

  /** A sequence without repeats is no longer than a set that contains it. */
  lemma {:induction false} DistinctFits<T>(s: seq<T>, S: set<T>)
    requires Distinct(s)
    requires forall x :: x in s ==> x in S
    ensures |s| <= |S|
  {
    if s == [] {
    } else {
      var last := s[|s| - 1];
      DistinctFits(s[..|s| - 1], S - {last});
    }
  }

  lemma {:induction false} DistinctCardinality<T>(s: seq<T>, S: set<T>)
    requires Distinct(s) && forall x :: x in S <==> x in s
    ensures |S| == |s|
  {
    if s == [] {
      assert S == {};
    } else {
      var last := s[|s| - 1];
      DistinctCardinality(s[..|s| - 1], S - {last});
    }
  }

  lemma RepeatCounts<T>(t: seq<T>, i: nat, j: nat)
    requires i < j < |t| && t[i] == t[j]
    ensures multiset(t)[t[i]] >= 2
  {
    assert t == t[..i] + [t[i]] + t[i + 1..j] + [t[j]] + t[j + 1..];
  }

  lemma DistinctByMultiset<T>(s: seq<T>, t: seq<T>)
    requires Distinct(s) && multiset(s) == multiset(t)
    ensures Distinct(t)
  {
    forall i, j | 0 <= i < j < |t| && t[i] == t[j] ensures multiset(t)[t[i]] >= 2 {
      RepeatCounts(t, i, j);
    }
    DistinctCounts(s);
  }

  lemma {:induction false} DistinctCounts<T>(s: seq<T>)
    requires Distinct(s)
    ensures forall x :: multiset(s)[x] <= 1
  {
    if s == [] {
    } else {
      DistinctCounts(s[1..]);
      assert s == [s[0]] + s[1..];
      assert s[0] !in s[1..];
    }
  }

  lemma SameMultisetSameElements<T>(s: seq<T>, t: seq<T>)
    requires multiset(s) == multiset(t)
    ensures |s| == |t|
    ensures forall x :: x in s <==> x in t
  {
    assert |multiset(s)| == |s| && |multiset(t)| == |t|;
    forall x ensures x in s <==> x in t {
      assert x in s <==> x in multiset(s);
      assert x in t <==> x in multiset(t);
    }
  }

  /** Python's order on `str`: by code point, a proper prefix first. */
  predicate StrLe(a: string, b: string) {
    a == [] || (b != [] && (a[0] < b[0] || (a[0] == b[0] && StrLe(a[1..], b[1..]))))
  }

  /** The two texts differ first at `k`, where `a` is lower. */
  ghost predicate LowerAt(a: string, b: string, k: int) {
    0 <= k < |a| && k < |b| && a[k] < b[k] && forall i :: 0 <= i < k ==> a[i] == b[i]
  }

  /** What that order is: a prefix comes first, and otherwise the first difference decides. */
  lemma {:induction false} StrLeExactlyWhen(a: string, b: string)
    ensures StrLe(a, b) <==> a <= b || exists k :: LowerAt(a, b, k)
  {
    if a != [] && b != [] {
      if a[0] == b[0] {
        StrLeExactlyWhen(a[1..], b[1..]);
        assert a == [a[0]] + a[1..] && b == [b[0]] + b[1..];
        if k :| LowerAt(a, b, k) {
          assert LowerAt(a[1..], b[1..], k - 1);
        }
        if k :| LowerAt(a[1..], b[1..], k) {
          assert forall i :: 0 < i <= k ==> a[i] == a[1..][i - 1] && b[i] == b[1..][i - 1];
          assert LowerAt(a, b, k + 1);
        }
      } else if a[0] < b[0] {
        assert LowerAt(a, b, 0);
      } else {
        assert forall k :: LowerAt(a, b, k) ==> k == 0 || a[0] == b[0];
      }
    }
  }

  lemma {:induction false} StrLeTotal(a: string, b: string)
    ensures StrLe(a, b) || StrLe(b, a)
  {
    if a != [] && b != [] && a[0] == b[0] {
      StrLeTotal(a[1..], b[1..]);
    }
  }

  lemma {:induction false} StrLeTransitive(a: string, b: string, c: string)
    requires StrLe(a, b) && StrLe(b, c)
    ensures StrLe(a, c)
  {
    if a != [] && a[0] == b[0] && b[0] == c[0] {
      StrLeTransitive(a[1..], b[1..], c[1..]);
    }
  }

  lemma {:induction false} StrLeAntisymmetric(a: string, b: string)
    requires StrLe(a, b) && StrLe(b, a)
    ensures a == b
  {
    if a == [] {
    } else {
      StrLeAntisymmetric(a[1..], b[1..]);
      assert a == [a[0]] + a[1..] && b == [b[0]] + b[1..];
    }
  }

  ghost predicate TotalPreorder<T(!new)>(le: (T, T) -> bool) {
    && (forall x, y :: le(x, y) || le(y, x))
    && (forall x, y, z :: le(x, y) && le(y, z) ==> le(x, z))
  }

  ghost predicate SortedBy<T>(le: (T, T) -> bool, s: seq<T>) {
    forall i, j :: 0 <= i < j < |s| ==> le(s[i], s[j])
  }

  function Insert<T>(x: T, s: seq<T>, le: (T, T) -> bool): (r: seq<T>)
    ensures multiset(r) == multiset{x} + multiset(s)
  {
    if s == [] || le(x, s[0]) then [x] + s
    else
      assert s == [s[0]] + s[1..];
      [s[0]] + Insert(x, s[1..], le)
  }

  /** Python's `sorted`: a stable sort. */
  function SortBy<T>(s: seq<T>, le: (T, T) -> bool): (r: seq<T>)
    ensures multiset(r) == multiset(s)
  {
    if s == [] then []
    else
      assert s == [s[0]] + s[1..];
      Insert(s[0], SortBy(s[1..], le), le)
  }

  lemma {:induction false} InsertSorted<T(!new)>(x: T, s: seq<T>, le: (T, T) -> bool)
    requires TotalPreorder(le) && SortedBy(le, s)
    ensures SortedBy(le, Insert(x, s, le))
  {
    if s != [] && !le(x, s[0]) {
      InsertSorted(x, s[1..], le);
      var r := Insert(x, s[1..], le);
      forall y | y in r ensures le(s[0], y) {
        assert y in multiset(r);
        assert y == x || y in s[1..];
      }
    }
  }

  lemma {:induction false} SortBySorts<T(!new)>(s: seq<T>, le: (T, T) -> bool)
    requires TotalPreorder(le)
    ensures SortedBy(le, SortBy(s, le))
  {
    if s == [] {
    } else {
      SortBySorts(s[1..], le);
      InsertSorted(s[0], SortBy(s[1..], le), le);
    }
  }

  function SortStrings(s: seq<string>): (r: seq<string>)
    ensures multiset(r) == multiset(s)
  {
    SortBy(s, StrLe)
  }

  lemma SortStringsSpec(s: seq<string>)
    ensures SortedBy(StrLe, SortStrings(s))
    ensures forall x :: x in s <==> x in SortStrings(s)
    ensures |SortStrings(s)| == |s|
    ensures Distinct(s) ==> Distinct(SortStrings(s))
  {
    StrLeIsTotalPreorder();
    SortBySorts(s, StrLe);
    SameMultisetSameElements(s, SortStrings(s));
    if Distinct(s) {
      DistinctByMultiset(s, SortStrings(s));
    }
  }

  lemma StrLeIsTotalPreorder()
    ensures TotalPreorder(StrLe)
  {
    forall a: string, b: string ensures StrLe(a, b) || StrLe(b, a) {
      StrLeTotal(a, b);
    }
    forall a: string, b: string, c: string | StrLe(a, b) && StrLe(b, c) ensures StrLe(a, c) {
      StrLeTransitive(a, b, c);
    }
  }

  /** The sorted, repeat-free list of a set of ids: `sorted(set)`. */
  method SortedIds(ids: set<string>) returns (s: seq<string>)
    ensures IsSortedList(s, ids)
  {
    var rest, out := ids, [];
    while rest != {}
      invariant rest <= ids && Distinct(out)
      invariant forall id :: id in out <==> id in ids && id !in rest
      decreases rest
    {
      var id :| id in rest;
      out, rest := out + [id], rest - {id};
    }
    SortStringsSpec(out);
    s := SortStrings(out);
  }

  /** The list `SortedIds` makes; there is only one. */
  ghost predicate IsSortedList(s: seq<string>, ids: set<string>) {
    Distinct(s) && SortedBy(StrLe, s) && forall id :: id in s <==> id in ids
  }

  lemma {:induction false} SortedListUnique(s: seq<string>, t: seq<string>, ids: set<string>)
    requires IsSortedList(s, ids) && IsSortedList(t, ids)
    ensures s == t
  {
    assert t != [] ==> t[0] in s;
    if s != [] {
      assert s[0] in t;
      assert StrLe(s[0], t[0]) by { StrLeTotal(s[0], s[0]); }
      assert StrLe(t[0], s[0]) by { StrLeTotal(t[0], t[0]); }
      StrLeAntisymmetric(s[0], t[0]);
      TailIsSortedList(s, ids);
      TailIsSortedList(t, ids);
      SortedListUnique(s[1..], t[1..], ids - {s[0]});
    }
  }

  lemma TailIsSortedList(s: seq<string>, ids: set<string>)
    requires IsSortedList(s, ids) && s != []
    ensures IsSortedList(s[1..], ids - {s[0]})
  {
    assert s == [s[0]] + s[1..];
  }
}
