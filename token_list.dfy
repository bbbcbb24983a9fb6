/**
 * The derived view of one bucket (`displayTokens` in
 * components/organisms/TokenListColumn.tsx and its copy in app/page.tsx):
 * a case-insensitive substring filter on symbol or name, then a descending
 * sort of a copy by the active sort key. `Array.prototype.sort` is stable,
 * so the sort is modelled by a stable insertion sort, proved to be the only
 * stable descending order.
 */
module TokenList {
  import opened Wrappers
  import opened Strings
  import opened Store

  function Abs(x: real): real {
    if x < 0.0 then -x else x
  }

  /** The number the comparator subtracts for a token: `created`,
      `volume || 0` or `Math.abs(change24h)`, and 0 for any other key. */
  function SortValue(t: Token, key: SortKey): real {
    match key
    case Created => t.created as real
    case Volume => t.volume.GetOr(0) as real
    case Change24h => Abs(t.change24h)
    case OtherKey(_) => 0.0
  }

  /** The comparator `(a, b) => value(b) - value(a)`: negative when `a` must
      come first, zero when the two tie. */
  function Compare(a: Token, b: Token, key: SortKey): real {
    SortValue(b, key) - SortValue(a, key)
  }

  /** The filter test: the lower-cased query is a substring of the
      lower-cased symbol or of the lower-cased name. */
  predicate Matches(t: Token, query: string) {
    Includes(LowerStr(t.symbol), LowerStr(query)) || Includes(LowerStr(t.name), LowerStr(query))
  }

  /** The same test stated by offsets. */
  ghost predicate OccursIn(t: Token, query: string) {
    (exists i :: OccursAt(LowerStr(t.symbol), LowerStr(query), i)) ||
    (exists i :: OccursAt(LowerStr(t.name), LowerStr(query), i))
  }

  /** `list.filter(t => Matches(t, query))` */
  function Keep(list: seq<Token>, query: string): seq<Token> {
    if list == [] then []
    else
      var last := list[|list| - 1];
      Keep(list[..|list| - 1], query) + (if Matches(last, query) then [last] else [])
  }

  /** An empty filter string is falsy and filters nothing. */
  function FilterTokens(list: seq<Token>, filter: string): seq<Token> {
    if filter == "" then list else Keep(list, filter)
  }

  /** Inserts `x` behind every element that does not compare after it, so
      that an element inserted later stays behind its equals. */
  function Insert(sorted: seq<Token>, x: Token, key: SortKey): seq<Token>
    decreases |sorted|
  {
    if sorted == [] then [x]
    else
      var last := sorted[|sorted| - 1];
      if Compare(last, x, key) <= 0.0 then sorted + [x]
      else Insert(sorted[..|sorted| - 1], x, key) + [last]
  }

  /** `[...list].sort(comparator)`: insertion sort, stable. */
  function SortDesc(list: seq<Token>, key: SortKey): seq<Token> {
    if list == [] then []
    else Insert(SortDesc(list[..|list| - 1], key), list[|list| - 1], key)
  }

  function DisplayTokens(list: seq<Token>, filter: string, key: SortKey): seq<Token> {
    SortDesc(FilterTokens(list, filter), key)
  }

  /** Non-increasing in the sort value. */
  predicate Sorted(s: seq<Token>, key: SortKey) {
    forall i, j :: 0 <= i < j < |s| ==> SortValue(s[i], key) >= SortValue(s[j], key)
  }

  /** The elements of `s` whose sort value is `v`, in their order in `s`.
      A sort is stable when it keeps every such subsequence. */
  function FilterKey(s: seq<Token>, key: SortKey, v: real): seq<Token> {
    if s == [] then []
    else
      var last := s[|s| - 1];
      FilterKey(s[..|s| - 1], key, v) + (if SortValue(last, key) == v then [last] else [])
  }

  predicate AllAtLeast(s: seq<Token>, key: SortKey, v: real) {
    forall i :: 0 <= i < |s| ==> SortValue(s[i], key) >= v
  }

  // ---------------------------------------------------------------------
  // The substring filter

  lemma MatchesIff(t: Token, query: string)
    ensures Matches(t, query) <==> OccursIn(t, query)
  {
    IncludesIff(LowerStr(t.symbol), LowerStr(query));
    IncludesIff(LowerStr(t.name), LowerStr(query));
  }

  /** The filter keeps each matching token as often as the list holds it and
      drops every other token. */
  lemma {:induction false} KeepCount(list: seq<Token>, query: string)
    ensures forall t :: multiset(Keep(list, query))[t] ==
                        (if Matches(t, query) then multiset(list)[t] else 0)
  {
    if list != [] {
      var init, last := list[..|list| - 1], list[|list| - 1];
      KeepCount(init, query);
      assert list == init + [last];
    }
  }

  /** The filter depends on the query only through its lower-case form. */
  lemma {:induction false} KeepLowerInvariant(list: seq<Token>, q1: string, q2: string)
    requires LowerStr(q1) == LowerStr(q2)
    ensures Keep(list, q1) == Keep(list, q2)
  {
    if list != [] {
      KeepLowerInvariant(list[..|list| - 1], q1, q2);
    }
  }

  /** Filtering by text commutes with picking the tokens of one sort value. */
  lemma {:induction false} KeepFilterKey(list: seq<Token>, query: string, key: SortKey, v: real)
    ensures FilterKey(Keep(list, query), key, v) == Keep(FilterKey(list, key, v), query)
  {
    if list != [] {
      var init, last := list[..|list| - 1], list[|list| - 1];
      KeepFilterKey(init, query, key, v);
      var k := Keep(init, query);
      var f := FilterKey(init, key, v);
      if Matches(last, query) {
        assert (k + [last])[..|k + [last]| - 1] == k;
      } else {
        assert k + [] == k;
      }
      if SortValue(last, key) == v {
        assert (f + [last])[..|f + [last]| - 1] == f;
      } else {
        assert f + [] == f;
      }
    }
  }

  // ---------------------------------------------------------------------
  // The stable sort

  lemma {:induction false} FilterKeyAppend(a: seq<Token>, b: seq<Token>, key: SortKey, v: real)
    ensures FilterKey(a + b, key, v) == FilterKey(a, key, v) + FilterKey(b, key, v)
    decreases |b|
  {
    if b == [] {
      assert a + b == a;
    } else {
      var init, last := b[..|b| - 1], b[|b| - 1];
      assert (a + b)[..|a + b| - 1] == a + init;
      FilterKeyAppend(a, init, key, v);
    }
  }

  lemma {:induction false} FilterKeyMember(s: seq<Token>, key: SortKey, v: real, x: Token)
    requires x in FilterKey(s, key, v)
    ensures x in s && SortValue(x, key) == v
  {
    var init, last := s[..|s| - 1], s[|s| - 1];
    assert s == init + [last];
    if x in FilterKey(init, key, v) {
      FilterKeyMember(init, key, v, x);
    }
  }

  lemma {:induction false} FilterKeyConstant(s: seq<Token>, key: SortKey, v: real)
    requires forall i :: 0 <= i < |s| ==> SortValue(s[i], key) == v
    ensures FilterKey(s, key, v) == s
  {
    if s != [] {
      FilterKeyConstant(s[..|s| - 1], key, v);
    }
  }

  lemma {:induction false} InsertCount(s: seq<Token>, x: Token, key: SortKey)
    ensures multiset(Insert(s, x, key)) == multiset(s) + multiset{x}
    decreases |s|
  {
    if s != [] {
      var init, last := s[..|s| - 1], s[|s| - 1];
      assert s == init + [last];
      if Compare(last, x, key) > 0.0 {
        InsertCount(init, x, key);
      }
    }
  }

  lemma {:induction false} InsertAllAtLeast(s: seq<Token>, x: Token, key: SortKey, v: real)
    requires AllAtLeast(s, key, v) && SortValue(x, key) >= v
    ensures AllAtLeast(Insert(s, x, key), key, v)
    decreases |s|
  {
    if s != [] {
      var init, last := s[..|s| - 1], s[|s| - 1];
      if Compare(last, x, key) > 0.0 {
        InsertAllAtLeast(init, x, key, v);
      }
    }
  }

  lemma {:induction false} InsertSorted(s: seq<Token>, x: Token, key: SortKey)
    requires Sorted(s, key)
    ensures Sorted(Insert(s, x, key), key)
    decreases |s|
  {
    if s != [] {
      var init, last := s[..|s| - 1], s[|s| - 1];
      if Compare(last, x, key) > 0.0 {
        InsertSorted(init, x, key);
        assert AllAtLeast(init, key, SortValue(last, key));
        InsertAllAtLeast(init, x, key, SortValue(last, key));
      }
    }
  }

  lemma FilterKeySingle(x: Token, key: SortKey, v: real)
    ensures FilterKey([x], key, v) == if SortValue(x, key) == v then [x] else []
  {
    assert [x][..0] == [];
  }

  lemma {:induction false} InsertStable(s: seq<Token>, x: Token, key: SortKey, v: real)
    ensures FilterKey(Insert(s, x, key), key, v) == FilterKey(s, key, v) + FilterKey([x], key, v)
    decreases |s|
  {
    if s == [] {
      FilterKeySingle(x, key, v);
    } else {
      var init, last := s[..|s| - 1], s[|s| - 1];
      if Compare(last, x, key) <= 0.0 {
        FilterKeyAppend(s, [x], key, v);
      } else {
        InsertStable(init, x, key, v);
        FilterKeyAppend(Insert(init, x, key), [last], key, v);
        FilterKeyAppend(init, [last], key, v);
        assert s == init + [last];
        FilterKeySingle(x, key, v);
        FilterKeySingle(last, key, v);
        SwapSingles(FilterKey(init, key, v), FilterKey([x], key, v), FilterKey([last], key, v));
      }
    }
  }

  lemma SwapSingles(f: seq<Token>, p: seq<Token>, q: seq<Token>)
    requires p == [] || q == []
    ensures f + p + q == f + q + p
  {
    if p == [] {
      assert f + p == f;
      assert f + q + p == f + q;
    } else {
      assert f + q == f;
      assert f + p + q == f + p;
    }
  }

  lemma {:induction false} SortDescCount(list: seq<Token>, key: SortKey)
    ensures multiset(SortDesc(list, key)) == multiset(list)
  {
    if list != [] {
      var init, last := list[..|list| - 1], list[|list| - 1];
      SortDescCount(init, key);
      InsertCount(SortDesc(init, key), last, key);
      assert list == init + [last];
    }
  }

  lemma {:induction false} SortDescSorted(list: seq<Token>, key: SortKey)
    ensures Sorted(SortDesc(list, key), key)
  {
    if list != [] {
      SortDescSorted(list[..|list| - 1], key);
      InsertSorted(SortDesc(list[..|list| - 1], key), list[|list| - 1], key);
    }
  }

  lemma {:induction false} SortDescStable(list: seq<Token>, key: SortKey, v: real)
    ensures FilterKey(SortDesc(list, key), key, v) == FilterKey(list, key, v)
  {
    if list != [] {
      var init, last := list[..|list| - 1], list[|list| - 1];
      SortDescStable(init, key, v);
      InsertStable(SortDesc(init, key), last, key, v);
      FilterKeyAppend(init, [last], key, v);
      assert list == init + [last];
    }
  }

  lemma FilterKeyLast(s: seq<Token>, key: SortKey)
    requires s != []
    ensures s[|s| - 1] in FilterKey(s, key, SortValue(s[|s| - 1], key))
  {
  }

  lemma LastIsMin(s: seq<Token>, key: SortKey, x: Token)
    requires Sorted(s, key) && x in s
    ensures SortValue(x, key) >= SortValue(s[|s| - 1], key)
  {
    var i :| 0 <= i < |s| && s[i] == x;
    assert i == |s| - 1 || SortValue(s[i], key) >= SortValue(s[|s| - 1], key);
  }

  lemma SameLastValue(a: seq<Token>, b: seq<Token>, key: SortKey)
    requires a != [] && b != [] && Sorted(a, key) && Sorted(b, key)
    requires forall v :: FilterKey(a, key, v) == FilterKey(b, key, v)
    ensures SortValue(a[|a| - 1], key) == SortValue(b[|b| - 1], key)
  {
    var la, lb := a[|a| - 1], b[|b| - 1];
    FilterKeyLast(b, key);
    assert lb in FilterKey(a, key, SortValue(lb, key));
    FilterKeyMember(a, key, SortValue(lb, key), lb);
    LastIsMin(a, key, lb);
    FilterKeyLast(a, key);
    assert la in FilterKey(b, key, SortValue(la, key));
    FilterKeyMember(b, key, SortValue(la, key), la);
    LastIsMin(b, key, la);
  }

  lemma DropSameLast(a': seq<Token>, la: Token, b': seq<Token>, lb: Token, key: SortKey)
    requires SortValue(la, key) == SortValue(lb, key)
    requires forall v :: FilterKey(a' + [la], key, v) == FilterKey(b' + [lb], key, v)
    ensures la == lb
    ensures forall v :: FilterKey(a', key, v) == FilterKey(b', key, v)
  {
    var a, b := a' + [la], b' + [lb];
    assert a[..|a| - 1] == a' && b[..|b| - 1] == b';
    var va := SortValue(la, key);
    var fa, fb := FilterKey(a', key, va), FilterKey(b', key, va);
    assert fa + [la] == FilterKey(a, key, va) == FilterKey(b, key, va) == fb + [lb];
    assert |fa| == |fb|;
    assert (fa + [la])[|fa|] == la && (fb + [lb])[|fb|] == lb;
    assert fa == (fa + [la])[..|fa|] == (fb + [lb])[..|fb|] == fb;
    forall v ensures FilterKey(a', key, v) == FilterKey(b', key, v) {
      if v != va {
        assert FilterKey(a', key, v) + [] == FilterKey(a', key, v) == FilterKey(a, key, v);
        assert FilterKey(b', key, v) + [] == FilterKey(b', key, v) == FilterKey(b, key, v);
      } else {
        assert FilterKey(a', key, v) == fa;
      }
    }
  }

  lemma EmptyOnlyLikeEmpty(a: seq<Token>, b: seq<Token>, key: SortKey)
    requires b != []
    requires forall v :: FilterKey(a, key, v) == FilterKey(b, key, v)
    ensures a != []
  {
    FilterKeyLast(b, key);
    FilterKeyMember(a, key, SortValue(b[|b| - 1], key), b[|b| - 1]);
  }

  /** Two sequences that are both sorted and hold the same tokens of every
      sort value, in the same order, are equal: a stable descending sort has
      exactly one possible result. */
  lemma {:induction false} StableSortUnique(a: seq<Token>, b: seq<Token>, key: SortKey)
    requires Sorted(a, key) && Sorted(b, key)
    requires forall v :: FilterKey(a, key, v) == FilterKey(b, key, v)
    ensures a == b
    decreases |a|
  {
    if b != [] {
      EmptyOnlyLikeEmpty(a, b, key);
    }
    if a != [] {
      EmptyOnlyLikeEmpty(b, a, key);
    }
    if a != [] && b != [] {
      var a', b' := a[..|a| - 1], b[..|b| - 1];
      assert a == a' + [a[|a| - 1]] && b == b' + [b[|b| - 1]];
      SameLastValue(a, b, key);
      DropSameLast(a', a[|a| - 1], b', b[|b| - 1], key);
      StableSortUnique(a', b', key);
    }
  }

  // ---------------------------------------------------------------------
  // Properties of the derived view

  /** With an empty filter the view is a permutation of the whole bucket. */
  lemma DisplayEmptyFilter(list: seq<Token>, key: SortKey)
    ensures multiset(DisplayTokens(list, "", key)) == multiset(list)
  {
    SortDescCount(list, key);
  }

  /** With a non-empty filter the view holds exactly the matching tokens of
      the bucket, each as often as the bucket does. */
  lemma DisplayMembership(list: seq<Token>, filter: string, key: SortKey)
    requires filter != ""
    ensures forall t :: multiset(DisplayTokens(list, filter, key))[t] ==
                        (if Matches(t, filter) then multiset(list)[t] else 0)
    ensures forall t :: t in DisplayTokens(list, filter, key) <==> t in list && OccursIn(t, filter)
  {
    SortDescCount(Keep(list, filter), key);
    KeepCount(list, filter);
    forall t ensures Matches(t, filter) <==> OccursIn(t, filter) {
      MatchesIff(t, filter);
    }
  }

  /** The view is non-increasing in the sort value: newest first, largest
      volume (missing counts as 0) first, largest absolute change first. */
  lemma DisplaySorted(list: seq<Token>, filter: string, key: SortKey)
    ensures var r := DisplayTokens(list, filter, key);
      && Sorted(r, key)
      && (key == Created ==> forall i, j :: 0 <= i < j < |r| ==> r[i].created >= r[j].created)
      && (key == Volume ==> forall i, j :: 0 <= i < j < |r| ==> r[i].volume.GetOr(0) >= r[j].volume.GetOr(0))
      && (key == Change24h ==> forall i, j :: 0 <= i < j < |r| ==> Abs(r[i].change24h) >= Abs(r[j].change24h))
  {
    SortDescSorted(FilterTokens(list, filter), key);
  }

  /** Stability: the tokens of one sort value appear in the view in the
      order they have in the bucket (after the text filter). */
  lemma DisplayStable(list: seq<Token>, filter: string, key: SortKey, v: real)
    ensures FilterKey(DisplayTokens(list, filter, key), key, v) == FilterTokens(FilterKey(list, key, v), filter)
  {
    SortDescStable(FilterTokens(list, filter), key, v);
    if filter != "" {
      KeepFilterKey(list, filter, key, v);
    }
  }

  /** The view is the only sequence that is sorted and stable: any other
      correct stable sort of the filtered bucket returns the same sequence. */
  lemma DisplayIsTheStableSort(list: seq<Token>, filter: string, key: SortKey, r: seq<Token>)
    requires Sorted(r, key)
    requires forall v :: FilterKey(r, key, v) == FilterKey(FilterTokens(list, filter), key, v)
    ensures r == DisplayTokens(list, filter, key)
  {
    var d := DisplayTokens(list, filter, key);
    SortDescSorted(FilterTokens(list, filter), key);
    forall v ensures FilterKey(r, key, v) == FilterKey(d, key, v) {
      SortDescStable(FilterTokens(list, filter), key, v);
    }
    StableSortUnique(r, d, key);
  }

  /** Under a key the comparator does not know, every comparison is 0 and
      the view keeps the bucket order. */
  lemma DisplayOtherKey(list: seq<Token>, filter: string, name: string)
    ensures DisplayTokens(list, filter, OtherKey(name)) == FilterTokens(list, filter)
  {
    var f := FilterTokens(list, filter);
    var d := DisplayTokens(list, filter, OtherKey(name));
    SortDescStable(f, OtherKey(name), 0.0);
    SortDescCount(f, OtherKey(name));
    assert |d| == |multiset(d)| == |multiset(f)| == |f|;
    forall i | 0 <= i < |d| ensures SortValue(d[i], OtherKey(name)) == 0.0 { }
    FilterKeyConstant(d, OtherKey(name), 0.0);
    FilterKeyConstant(f, OtherKey(name), 0.0);
  }

  /** The filter is case-insensitive: queries with the same lower-case form
      give the same view; in particular upper-casing the query changes
      nothing. */
  lemma FilterIsCaseInsensitive(list: seq<Token>, q1: string, q2: string, key: SortKey)
    requires LowerStr(q1) == LowerStr(q2)
    ensures DisplayTokens(list, q1, key) == DisplayTokens(list, q2, key)
    ensures DisplayTokens(list, UpperStr(q1), key) == DisplayTokens(list, q1, key)
  {
    assert |q1| == |LowerStr(q1)| == |LowerStr(q2)| == |q2|;
    KeepLowerInvariant(list, q1, q2);
    LowerOfUpper(q1);
    assert |UpperStr(q1)| == |q1|;
    KeepLowerInvariant(list, UpperStr(q1), q1);
  }
}
