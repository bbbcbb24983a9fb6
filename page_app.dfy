/**
 * The application shell of app/page.tsx, an older copy of the provider: the
 * loader has no cancellation guard and dispatches `INIT_DATA` whenever its
 * delay ends, the tick body is the same as the provider's, and the reducer
 * records `prevPrice`. Its `generateToken` computes the same token as
 * `MockData.GenerateToken`; its `displayTokens` differs only in the `volume`
 * comparator, handled below.
 */
module PageApp {
  import opened Wrappers
  import opened Store
  import opened PageReducer
  import opened MockData
  import opened TokenList
  import opened StoreProvider

  /** The page's comparator, `b.volume - a.volume` without `|| 0`: defined
      only when both tokens have a volume (otherwise it is NaN). */
  function PageCompare(a: Token, b: Token, key: SortKey): (r: real)
    requires key == Volume ==> a.volume.Some? && b.volume.Some?
    ensures r == Compare(a, b, key)
  {
    match key
    case Created => b.created as real - a.created as real
    case Volume => b.volume.value as real - a.volume.value as real
    case Change24h => Abs(b.change24h) - Abs(a.change24h)
    case OtherKey(_) => 0.0
  }

  /** Every token of `s` has a volume. */
  predicate Volumed(s: seq<Token>) {
    forall i :: 0 <= i < |s| ==> s[i].volume.Some?
  }

  lemma {:induction false} KeepVolumed(list: seq<Token>, query: string)
    requires Volumed(list)
    ensures Volumed(Keep(list, query))
    decreases |list|
  {
    if list != [] {
      KeepVolumed(list[..|list| - 1], query);
    }
  }

  lemma {:induction false} InsertVolumed(sorted: seq<Token>, x: Token, key: SortKey)
    requires Volumed(sorted) && x.volume.Some?
    ensures Volumed(Insert(sorted, x, key))
    decreases |sorted|
  {
    if sorted != [] && Compare(sorted[|sorted| - 1], x, key) > 0.0 {
      InsertVolumed(sorted[..|sorted| - 1], x, key);
    }
  }

  /** One insertion step of the page's `[...list].sort(...)`, branching on
      the page's own comparator: it is the column's insertion step. */
  function PageInsert(sorted: seq<Token>, x: Token, key: SortKey): (r: seq<Token>)
    requires key == Volume ==> Volumed(sorted) && x.volume.Some?
    ensures r == Insert(sorted, x, key)
    decreases |sorted|
  {
    if sorted == [] then [x]
    else
      var last := sorted[|sorted| - 1];
      if PageCompare(last, x, key) <= 0.0 then sorted + [x]
      else PageInsert(sorted[..|sorted| - 1], x, key) + [last]
  }

  /** The page's sort, with every token's volume present when sorting by
      volume: it is the column's stable sort. */
  function PageSortDesc(list: seq<Token>, key: SortKey): (r: seq<Token>)
    requires key == Volume ==> Volumed(list)
    ensures r == SortDesc(list, key)
    ensures key == Volume ==> Volumed(r)
    decreases |list|
  {
    if list == [] then []
    else
      var init := PageSortDesc(list[..|list| - 1], key);
      if key == Volume then
        InsertVolumed(init, list[|list| - 1], key);
        PageInsert(init, list[|list| - 1], key)
      else
        PageInsert(init, list[|list| - 1], key)
  }

  /** `displayTokens` of app/page.tsx: the same filter, then the page's
      sort. On a bucket whose tokens all have a volume it is the column's
      view, so every property proved of `DisplayTokens` holds for it. */
  function PageDisplayTokens(list: seq<Token>, filter: string, key: SortKey): (r: seq<Token>)
    requires key == Volume ==> Volumed(list)
    ensures r == DisplayTokens(list, filter, key)
  {
    if filter != "" && key == Volume then
      KeepVolumed(list, filter);
      PageSortDesc(FilterTokens(list, filter), key)
    else
      PageSortDesc(FilterTokens(list, filter), key)
  }

  /** Every token the page ever holds has a volume, so the page's
      comparator is always defined and agrees with the column's. */
  lemma {:induction false} RunPageKeepsVolumes(s: AppState, actions: seq<Action>)
    requires HasVolumes(s.tokens)
    requires forall i :: 0 <= i < |actions| && actions[i].InitData? ==> HasVolumes(actions[i].payload)
    ensures HasVolumes(RunPage(s, actions).tokens)
    decreases |actions|
  {
    if actions != [] {
      var a := actions[0];
      if a.UpdatePrice? && HasId(s.tokens.Get(a.category), a.id) {
        PageUpdatePriceHit(s, a.id, a.newPrice, a.category);
      }
      RunPageKeepsVolumes(ReducePage(s, a), actions[1..]);
    }
  }

  /** In every state the page reaches, each column's view through the page's
      own comparator is the column's `DisplayTokens`. */
  lemma PageViewOfRun(s: AppState, actions: seq<Action>, c: Status)
    requires HasVolumes(s.tokens)
    requires forall i :: 0 <= i < |actions| && actions[i].InitData? ==> HasVolumes(actions[i].payload)
    ensures var r := RunPage(s, actions);
      && Volumed(r.tokens.Get(c))
      && PageDisplayTokens(r.tokens.Get(c), r.filter, r.sortKey) == DisplayTokens(r.tokens.Get(c), r.filter, r.sortKey)
  {
    RunPageKeepsVolumes(s, actions);
  }

  /** `AxiomReplica`: the page's reducer state. */
  class AxiomReplica {
    var state: AppState

    constructor ()
      ensures state == InitialState()
    {
      state := InitialState();
    }

    method Dispatch(a: Action)
      modifies this
      ensures state == ReducePage(old(state), a)
    {
      state := ReducePage(state, a);
    }

    /** The loader after its delay: dispatches `INIT_DATA` unconditionally,
        whether or not the page is still mounted. */
    method FinishLoad(nd: seq<TokenDraws>, sd: seq<TokenDraws>, md: seq<TokenDraws>)
      requires |nd| == |sd| == |md| == BucketSize
      modifies this
      ensures state == ReducePage(old(state), InitData(LoadPayload(nd, sd, md)))
      ensures !state.isLoading && Partitioned(state.tokens) && HasVolumes(state.tokens)
    {
      LoadPayloadShape(nd, sd, md);
      Dispatch(InitData(LoadPayload(nd, sd, md)));
    }

    /** One run of the interval callback: skipped while loading and on an
        empty bucket, otherwise a clamped price update. */
    method Tick(bucketDraw: Draw, tokenDraw: Draw, moveDraw: Draw)
      modifies this
      ensures FeedTick(old(state), bucketDraw, tokenDraw, moveDraw).None? ==> state == old(state)
      ensures FeedTick(old(state), bucketDraw, tokenDraw, moveDraw).Some? ==>
        state == ReducePage(old(state), FeedTick(old(state), bucketDraw, tokenDraw, moveDraw).value)
    {
      var action := FeedTick(state, bucketDraw, tokenDraw, moveDraw);
      match action
      case None =>
      case Some(a) => Dispatch(a);
    }
  }
}
