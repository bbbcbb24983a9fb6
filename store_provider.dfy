/**
 * providers/StoreProvider.tsx: the store's owner. After a delay the loader
 * dispatches one `INIT_DATA` with 15 generated tokens per bucket, unless the
 * component has been torn down in the meantime (the `mounted` flag); once
 * loaded, an interval callback moves the price of one random token.
 */
module StoreProvider {
  import opened Wrappers
  import opened Strings
  import opened Store
  import opened MockData

  const BucketSize: nat := 15

  /** `['new', 'stretch', 'migrated']`, the feed's choice of bucket. */
  const Categories: seq<Status> := [New, Stretch, Migrated]

  /** The id prefix of each bucket: `new-${i}`, `str-${i}`, `mig-${i}`. */
  function IdPrefix(c: Status): (p: string)
    ensures |p| == 4
  {
    match c
    case New => "new-"
    case Stretch => "str-"
    case Migrated => "mig-"
  }

  /** `Array.from({ length }).map((_, i) => generateToken(`${prefix}${i}`, status))` */
  function BucketPayload(status: Status, draws: seq<TokenDraws>): seq<Token> {
    seq(|draws|, i requires 0 <= i < |draws| => GenerateToken(IdPrefix(status) + NatToString(i), status, draws[i]))
  }

  /** The payload of the loader's `INIT_DATA`. */
  function LoadPayload(newDraws: seq<TokenDraws>, stretchDraws: seq<TokenDraws>, migratedDraws: seq<TokenDraws>): Buckets
    requires |newDraws| == |stretchDraws| == |migratedDraws| == BucketSize
  {
    Buckets(BucketPayload(New, newDraws), BucketPayload(Stretch, stretchDraws), BucketPayload(Migrated, migratedDraws))
  }

  /** No two tokens of `list` share an id. */
  predicate UniqueIds(list: seq<Token>) {
    forall i, j :: 0 <= i < j < |list| ==> list[i].id != list[j].id
  }

  /** Every token has a volume, as every generated token does. */
  predicate HasVolumes(b: Buckets) {
    forall c: Status, i :: 0 <= i < |b.Get(c)| ==> b.Get(c)[i].volume.Some?
  }

  /** The feed's delta: `Math.random() * 0.002 - 0.001`, in `[-0.001, 0.001)`. */
  function Movement(r: Draw): (m: real)
    ensures -0.001 <= m < 0.001
  {
    r * 0.002 - 0.001
  }

  function Max(a: real, b: real): real {
    if a >= b then a else b
  }

  /** The bucket one tick looks at. */
  function TickCategory(bucketDraw: Draw): Status {
    Categories[Scaled(bucketDraw, |Categories|)]
  }

  /** The body of the interval callback: nothing while loading or on an
      empty bucket, otherwise an `UPDATE_PRICE` for a random token of a
      random bucket with the price moved and clamped at 0. */
  function FeedTick(s: AppState, bucketDraw: Draw, tokenDraw: Draw, moveDraw: Draw): (r: Option<Action>)
    ensures r.Some? <==> !s.isLoading && |s.tokens.Get(TickCategory(bucketDraw))| > 0
  {
    if s.isLoading then None
    else
      var category := TickCategory(bucketDraw);
      var list := s.tokens.Get(category);
      if |list| == 0 then None
      else
        var token := list[Scaled(tokenDraw, |list|)];
        var newPrice := Max(0.0, token.price + Movement(moveDraw));
        Some(UpdatePrice(token.id, newPrice, category))
  }

  // ---------------------------------------------------------------------
  // The load payload

  /** Token `i` of a generated bucket has id `IdPrefix(status) + i`, the
      bucket's status, a non-negative price and a volume. */
  lemma BucketPayloadShape(status: Status, draws: seq<TokenDraws>)
    ensures var b := BucketPayload(status, draws);
      && |b| == |draws|
      && forall i :: 0 <= i < |b| ==>
           && b[i].id == IdPrefix(status) + NatToString(i) && b[i].status == status
           && b[i].price >= 0.0 && b[i].volume.Some?
  {
  }

  /** Fifteen tokens per bucket; the `i`-th token of bucket `c` has id
      `IdPrefix(c) + i` and status `c`; every token has a volume and a
      non-negative price. */
  lemma LoadPayloadShape(nd: seq<TokenDraws>, sd: seq<TokenDraws>, md: seq<TokenDraws>)
    requires |nd| == |sd| == |md| == BucketSize
    ensures var p := LoadPayload(nd, sd, md);
      && (forall c :: |p.Get(c)| == BucketSize)
      && (forall c, i :: 0 <= i < |p.Get(c)| ==>
            p.Get(c)[i].id == IdPrefix(c) + NatToString(i) && p.Get(c)[i].status == c)
      && Partitioned(p) && PricesNonNegative(p) && HasVolumes(p)
  {
    BucketPayloadShape(New, nd);
    BucketPayloadShape(Stretch, sd);
    BucketPayloadShape(Migrated, md);
  }

  lemma PrefixedIdsDiffer(c1: Status, i1: nat, c2: Status, i2: nat)
    requires c1 != c2 || i1 != i2
    ensures IdPrefix(c1) + NatToString(i1) != IdPrefix(c2) + NatToString(i2)
  {
    var x, y := IdPrefix(c1) + NatToString(i1), IdPrefix(c2) + NatToString(i2);
    if c1 != c2 {
      assert x[0] != y[0];
    } else if x == y {
      assert NatToString(i1) == x[4..] == y[4..] == NatToString(i2);
      NatToStringInjective(i1, i2);
    }
  }

  /** The id of one payload token. */
  lemma PayloadId(nd: seq<TokenDraws>, sd: seq<TokenDraws>, md: seq<TokenDraws>, c: Status, i: nat)
    requires |nd| == |sd| == |md| == BucketSize
    requires i < |LoadPayload(nd, sd, md).Get(c)|
    ensures LoadPayload(nd, sd, md).Get(c)[i].id == IdPrefix(c) + NatToString(i)
  {
  }

  /** Ids are unique across all three buckets of the payload. */
  lemma LoadPayloadUniqueIds(nd: seq<TokenDraws>, sd: seq<TokenDraws>, md: seq<TokenDraws>)
    requires |nd| == |sd| == |md| == BucketSize
    ensures var p := LoadPayload(nd, sd, md);
      forall c1, i1, c2, i2 ::
        0 <= i1 < |p.Get(c1)| && 0 <= i2 < |p.Get(c2)| && (c1 != c2 || i1 != i2) ==>
        p.Get(c1)[i1].id != p.Get(c2)[i2].id
  {
    var p := LoadPayload(nd, sd, md);
    forall c1, i1, c2, i2 |
      0 <= i1 < |p.Get(c1)| && 0 <= i2 < |p.Get(c2)| && (c1 != c2 || i1 != i2)
      ensures p.Get(c1)[i1].id != p.Get(c2)[i2].id
    {
      PayloadId(nd, sd, md, c1, i1);
      PayloadId(nd, sd, md, c2, i2);
      PrefixedIdsDiffer(c1, i1, c2, i2);
    }
  }

  /** Since `name` takes the first four characters of the id, every token of
      a loaded bucket gets the same name: "Project NEW-", "Project STR-" or
      "Project MIG-". */
  lemma LoadPayloadNames(nd: seq<TokenDraws>, sd: seq<TokenDraws>, md: seq<TokenDraws>)
    requires |nd| == |sd| == |md| == BucketSize
    ensures var p := LoadPayload(nd, sd, md);
      forall c, i :: 0 <= i < |p.Get(c)| ==> p.Get(c)[i].name == "Project " + UpperStr(IdPrefix(c))
  {
    var p := LoadPayload(nd, sd, md);
    forall c, i | 0 <= i < |p.Get(c)| ensures p.Get(c)[i].name == "Project " + UpperStr(IdPrefix(c)) {
      assert Prefix(IdPrefix(c) + NatToString(i), 4) == IdPrefix(c);
    }
  }

  // ---------------------------------------------------------------------
  // The feed tick

  /** A dispatched tick names a token of the chosen bucket of the current
      state, so the reducer takes its hit branch; the new price is never
      negative and moves a non-negative old price by at most 0.001. */
  lemma TickHits(s: AppState, bucketDraw: Draw, tokenDraw: Draw, moveDraw: Draw)
    requires FeedTick(s, bucketDraw, tokenDraw, moveDraw).Some?
    ensures var a := FeedTick(s, bucketDraw, tokenDraw, moveDraw).value;
      var list := s.tokens.Get(TickCategory(bucketDraw));
      var chosen := list[Scaled(tokenDraw, |list|)];
      && a.UpdatePrice? && a.category == TickCategory(bucketDraw)
      && a.id == chosen.id && HasId(list, a.id)
      && a.newPrice >= 0.0
      && (chosen.price >= 0.0 ==> -0.001 <= a.newPrice - chosen.price <= 0.001)
      && Reduce(s, a).tokens.Get(a.category) ==
           list[FindIndex(list, a.id) := list[FindIndex(list, a.id)].(price := a.newPrice)]
  {
    var list := s.tokens.Get(TickCategory(bucketDraw));
    var k := Scaled(tokenDraw, |list|);
    assert list[k].id == FeedTick(s, bucketDraw, tokenDraw, moveDraw).value.id;
  }

  /** With unique ids in the bucket, the token the reducer updates is the one
      the tick chose. */
  lemma TickUpdatesChosenToken(s: AppState, bucketDraw: Draw, tokenDraw: Draw, moveDraw: Draw)
    requires FeedTick(s, bucketDraw, tokenDraw, moveDraw).Some?
    requires UniqueIds(s.tokens.Get(TickCategory(bucketDraw)))
    ensures var a := FeedTick(s, bucketDraw, tokenDraw, moveDraw).value;
      var list := s.tokens.Get(TickCategory(bucketDraw));
      FindIndex(list, a.id) == Scaled(tokenDraw, |list|)
  {
    TickHits(s, bucketDraw, tokenDraw, moveDraw);
  }

  /** The feed keeps the store's invariants: a tick's update preserves the
      bucket partition, non-negative prices, volumes and unique ids. */
  lemma TickPreservesInvariants(s: AppState, bucketDraw: Draw, tokenDraw: Draw, moveDraw: Draw)
    requires FeedTick(s, bucketDraw, tokenDraw, moveDraw).Some?
    requires Partitioned(s.tokens) && PricesNonNegative(s.tokens) && HasVolumes(s.tokens)
    requires forall c :: UniqueIds(s.tokens.Get(c))
    ensures var r := Reduce(s, FeedTick(s, bucketDraw, tokenDraw, moveDraw).value);
      && Partitioned(r.tokens) && PricesNonNegative(r.tokens) && HasVolumes(r.tokens)
      && forall c :: UniqueIds(r.tokens.Get(c))
  {
    var a := FeedTick(s, bucketDraw, tokenDraw, moveDraw).value;
    TickHits(s, bucketDraw, tokenDraw, moveDraw);
    ReducePreservesPartition(s, a);
    ReducePreservesPrices(s, a);
    ReduceKeepsTokens(s, a);
  }

  /** An action that keeps `Provider.Valid`: a partitioned payload with
      non-negative prices, volumes and unique ids in each bucket, or a
      non-negative new price. */
  predicate Admissible(a: Action) {
    && WellFormed(a)
    && (a.InitData? ==> PricesNonNegative(a.payload) && HasVolumes(a.payload))
    && (a.InitData? ==> forall c :: UniqueIds(a.payload.Get(c)))
    && (a.UpdatePrice? ==> a.newPrice >= 0.0)
  }

  /** Volumes and per-bucket unique ids survive every action whose payload
      (for `INIT_DATA`) has them: the other actions change prices only. */
  lemma ReduceKeepsVolumesAndIds(s: AppState, a: Action)
    requires HasVolumes(s.tokens) && forall c :: UniqueIds(s.tokens.Get(c))
    requires a.InitData? ==> HasVolumes(a.payload) && forall c :: UniqueIds(a.payload.Get(c))
    ensures HasVolumes(Reduce(s, a).tokens) && forall c :: UniqueIds(Reduce(s, a).tokens.Get(c))
  {
    if !a.InitData? {
      ReduceKeepsTokens(s, a);
    }
  }

  /** The loader's `INIT_DATA` is admissible. */
  lemma LoadPayloadAdmissible(nd: seq<TokenDraws>, sd: seq<TokenDraws>, md: seq<TokenDraws>)
    requires |nd| == |sd| == |md| == BucketSize
    ensures Admissible(InitData(LoadPayload(nd, sd, md)))
  {
    var p := LoadPayload(nd, sd, md);
    LoadPayloadShape(nd, sd, md);
    LoadPayloadUniqueIds(nd, sd, md);
    forall c ensures UniqueIds(p.Get(c)) {
      forall i, j | 0 <= i < j < |p.Get(c)| ensures p.Get(c)[i].id != p.Get(c)[j].id {
        assert 0 <= i < |p.Get(c)| && 0 <= j < |p.Get(c)| && i != j;
      }
    }
  }

  /** The component that owns the store: its reducer state and the
      loader effect's `mounted` flag. */
  class Provider {
    var state: AppState
    var mounted: bool

    /** The invariants the loader and the feed keep. */
    ghost predicate Valid()
      reads this
    {
      && Partitioned(state.tokens) && PricesNonNegative(state.tokens)
      && HasVolumes(state.tokens) && forall c :: UniqueIds(state.tokens.Get(c))
    }

    /** `useReducer(reducer, initialState)` and `let mounted = true`. */
    constructor ()
      ensures state == InitialState() && mounted && Valid()
    {
      state := InitialState();
      mounted := true;
    }

    /** `dispatch(action)`: the reducer replaces the state. */
    method Dispatch(a: Action)
      modifies this
      ensures state == Reduce(old(state), a) && mounted == old(mounted)
      ensures old(Valid()) && Admissible(a) ==> Valid()
    {
      if Valid() && Admissible(a) {
        ReducePreservesPartition(state, a);
        ReducePreservesPrices(state, a);
        ReduceKeepsVolumesAndIds(state, a);
      }
      state := Reduce(state, a);
    }

    /** Unmounting runs both effects' cleanups: the loader's sets
        `mounted = false`, and the feed's `clearInterval` stops the interval,
        so no tick runs afterwards. */
    method Unmount()
      modifies this
      ensures !mounted && state == old(state)
    {
      mounted := false;
    }

    /** The loader after its delay: if still mounted, build the payload and
      dispatch `INIT_DATA`; otherwise return without touching the store. */
    method FinishLoad(nd: seq<TokenDraws>, sd: seq<TokenDraws>, md: seq<TokenDraws>)
      requires |nd| == |sd| == |md| == BucketSize
      modifies this
      ensures mounted == old(mounted)
      ensures old(mounted) ==> state == Reduce(old(state), InitData(LoadPayload(nd, sd, md)))
      ensures !old(mounted) ==> state == old(state)
      ensures old(mounted) ==> !state.isLoading
      ensures old(Valid()) ==> Valid()
    {
      if !mounted {
        return;
      }
      LoadPayloadShape(nd, sd, md);
      LoadPayloadAdmissible(nd, sd, md);
      Dispatch(InitData(LoadPayload(nd, sd, md)));
    }

    /** One run of the interval callback; once the provider is unmounted the
        interval is cleared and nothing happens. The token updated is the one
        drawn, since ids are unique in each bucket. */
    method Tick(bucketDraw: Draw, tokenDraw: Draw, moveDraw: Draw)
      modifies this
      ensures mounted == old(mounted)
      ensures !old(mounted) ==> state == old(state)
      ensures FeedTick(old(state), bucketDraw, tokenDraw, moveDraw).None? ==> state == old(state)
      ensures old(mounted) && FeedTick(old(state), bucketDraw, tokenDraw, moveDraw).Some? ==>
        state == Reduce(old(state), FeedTick(old(state), bucketDraw, tokenDraw, moveDraw).value)
      ensures old(mounted) && old(Valid()) && FeedTick(old(state), bucketDraw, tokenDraw, moveDraw).Some? ==>
        var before := old(state).tokens.Get(TickCategory(bucketDraw));
        var k := Scaled(tokenDraw, |before|);
        && |state.tokens.Get(TickCategory(bucketDraw))| == |before|
        && state.tokens.Get(TickCategory(bucketDraw))[k] ==
             before[k].(price := FeedTick(old(state), bucketDraw, tokenDraw, moveDraw).value.newPrice)
      ensures old(Valid()) ==> Valid()
    {
      if !mounted {
        return;
      }
      var action := FeedTick(state, bucketDraw, tokenDraw, moveDraw);
      match action
      case None =>
      case Some(a) =>
        TickHits(state, bucketDraw, tokenDraw, moveDraw);
        if Valid() {
          TickUpdatesChosenToken(state, bucketDraw, tokenDraw, moveDraw);
          UpdatePriceHit(state, a.id, a.newPrice, a.category);
        }
        Dispatch(a);
    }
  }

  /** Tearing the provider down before the delay ends leaves the store in its
      initial, still-loading state. */
  method CancelledLoad(nd: seq<TokenDraws>, sd: seq<TokenDraws>, md: seq<TokenDraws>) returns (loading: bool, empty: bool)
    requires |nd| == |sd| == |md| == BucketSize
    ensures loading && empty
  {
    var p := new Provider();
    p.Unmount();
    p.FinishLoad(nd, sd, md);
    loading := p.state.isLoading;
    empty := p.state.tokens == Buckets([], [], []);
  }
}
