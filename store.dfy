/**
 * components/utils/store.ts: the token record, the application state, the
 * closed set of actions and the reducer that applies one action to a state.
 */
module Store {
  import opened Wrappers

  /** The lifecycle bucket of a token (`TokenStatus`). */
  datatype Status = New | Stretch | Migrated

  /** The sort key of the derived view. `OtherKey` stands for any other
      string stored by the untyped copy in app/page.tsx; the comparator then
      returns 0 for every pair. */
  datatype SortKey = Created | Change24h | Volume | OtherKey(name: string)

  /** `TokenType` (with the optional `prevPrice` that the reducer of
      app/page.tsx adds and `TokenCard`'s `Token` type declares). Prices and
      the 24h change are exact reals; `created` is a millisecond count. */
  datatype Token = Token(
    id: string,
    symbol: string,
    name: string,
    price: real,
    prevPrice: Option<real>,
    change24h: real,
    volume: Option<int>,
    mcap: int,
    status: Status,
    progress: int,
    liquidity: int,
    created: int,
    txCount: Option<int>,
    holders: int)

  /** `AppState['tokens']`: one ordered list per bucket. */
  datatype Buckets = Buckets(newTokens: seq<Token>, stretchTokens: seq<Token>, migratedTokens: seq<Token>) {

    /** `tokens[category]` */
    function Get(c: Status): seq<Token> {
      match c
      case New => newTokens
      case Stretch => stretchTokens
      case Migrated => migratedTokens
    }

    /** `{ ...tokens, [category]: list }` */
    function Set(c: Status, list: seq<Token>): (r: Buckets)
      ensures r.Get(c) == list
      ensures forall d :: d != c ==> r.Get(d) == Get(d)
    {
      match c
      case New => this.(newTokens := list)
      case Stretch => this.(stretchTokens := list)
      case Migrated => this.(migratedTokens := list)
    }
  }

  datatype AppState = AppState(
    tokens: Buckets,
    selectedToken: Option<Token>,
    sortKey: SortKey,
    filter: string,
    isLoading: bool)

  /** The five actions, plus `UnknownAction` for any other `type` tag, which
      only the untyped copy in app/page.tsx can receive and which the
      `default` branch of both reducers handles. */
  datatype Action =
    | InitData(payload: Buckets)
    | UpdatePrice(id: string, newPrice: real, category: Status)
    | SelectToken(token: Option<Token>)
    | SetSort(key: SortKey)
    | SetFilter(text: string)
    | UnknownAction(tag: string)

  function InitialState(): AppState {
    AppState(Buckets([], [], []), None, Created, "", true)
  }

  /** `list.findIndex(t => t.id === id)`: the first index holding `id`, or -1. */
  function FindIndex(list: seq<Token>, id: string): (r: int)
    ensures -1 <= r < |list|
    ensures r == -1 <==> forall i :: 0 <= i < |list| ==> list[i].id != id
    ensures r != -1 ==> list[r].id == id && forall i :: 0 <= i < r ==> list[i].id != id
  {
    if list == [] then -1
    else if list[0].id == id then 0
    else
      var k := FindIndex(list[1..], id);
      if k == -1 then -1 else k + 1
  }

  /** `reducer` of store.ts. */
  function Reduce(s: AppState, a: Action): AppState {
    match a
    case InitData(payload) => s.(tokens := payload, isLoading := false)
    case UpdatePrice(id, newPrice, category) =>
      var list := s.tokens.Get(category);
      var index := FindIndex(list, id);
      if index == -1 then s
      else s.(tokens := s.tokens.Set(category, list[index := list[index].(price := newPrice)]))
    case SelectToken(t) => s.(selectedToken := t)
    case SetSort(key) => s.(sortKey := key)
    case SetFilter(text) => s.(filter := text)
    case UnknownAction(_) => s
  }

  /** Dispatching actions one after another, as `useReducer` does. */
  function Run(s: AppState, actions: seq<Action>): AppState
    decreases |actions|
  {
    if actions == [] then s else Run(Reduce(s, actions[0]), actions[1..])
  }

  /** `id` is held by some token of `list`. */
  predicate HasId(list: seq<Token>, id: string) {
    exists i :: 0 <= i < |list| && list[i].id == id
  }

  /** Every token of bucket `c` has `status == c`. */
  predicate Partitioned(b: Buckets) {
    forall c: Status, i :: 0 <= i < |b.Get(c)| ==> b.Get(c)[i].status == c
  }

  predicate PricesNonNegative(b: Buckets) {
    forall c: Status, i :: 0 <= i < |b.Get(c)| ==> b.Get(c)[i].price >= 0.0
  }

  /** The payload of an `INIT_DATA` action is partitioned. */
  predicate WellFormed(a: Action) {
    a.InitData? ==> Partitioned(a.payload)
  }

  lemma InitialStateIsEmpty()
    ensures forall c :: InitialState().tokens.Get(c) == []
    ensures InitialState().selectedToken == None
    ensures InitialState().sortKey == Created && InitialState().filter == ""
    ensures InitialState().isLoading
    ensures Partitioned(InitialState().tokens) && PricesNonNegative(InitialState().tokens)
  {
  }

  /** `INIT_DATA` replaces every bucket and ends loading; nothing else moves. */
  lemma ReduceInitData(s: AppState, payload: Buckets)
    ensures Reduce(s, InitData(payload)) ==
      AppState(payload, s.selectedToken, s.sortKey, s.filter, false)
  {
  }

  /** `UPDATE_PRICE` for an id not in the named bucket is a no-op. */
  lemma UpdatePriceMiss(s: AppState, id: string, newPrice: real, c: Status)
    requires !HasId(s.tokens.Get(c), id)
    ensures Reduce(s, UpdatePrice(id, newPrice, c)) == s
  {
  }

  /** `UPDATE_PRICE` for an id in the named bucket rewrites the price of the
      first token holding it, and nothing else: not the other tokens of that
      bucket, not the other buckets, not the selection, sort key, filter or
      loading flag. */
  lemma UpdatePriceHit(s: AppState, id: string, newPrice: real, c: Status)
    requires HasId(s.tokens.Get(c), id)
    ensures var k := FindIndex(s.tokens.Get(c), id);
      var r := Reduce(s, UpdatePrice(id, newPrice, c));
      var before, after := s.tokens.Get(c), r.tokens.Get(c);
      && 0 <= k < |before| && before[k].id == id
      && (forall i :: 0 <= i < k ==> before[i].id != id)
      && |after| == |before|
      && after[k] == before[k].(price := newPrice)
      && (forall i :: 0 <= i < |before| && i != k ==> after[i] == before[i])
      && (forall d :: d != c ==> r.tokens.Get(d) == s.tokens.Get(d))
      && r.selectedToken == s.selectedToken && r.sortKey == s.sortKey
      && r.filter == s.filter && r.isLoading == s.isLoading
  {
  }

  /** `SELECT_TOKEN`, `SET_SORT` and `SET_FILTER` store their payload verbatim
      in one field, and an unknown action changes nothing. */
  lemma ReduceSetters(s: AppState, t: Option<Token>, key: SortKey, text: string, tag: string)
    ensures Reduce(s, SelectToken(t)) == s.(selectedToken := t)
    ensures Reduce(s, SetSort(key)) == s.(sortKey := key)
    ensures Reduce(s, SetFilter(text)) == s.(filter := text)
    ensures Reduce(s, UnknownAction(tag)) == s
  {
  }

  /** Only `INIT_DATA` changes a bucket's length or a token's identity: every
      other action keeps each token at its index and changes at most its
      price. */
  lemma ReduceKeepsTokens(s: AppState, a: Action)
    requires !a.InitData?
    ensures forall c :: |Reduce(s, a).tokens.Get(c)| == |s.tokens.Get(c)|
    ensures forall c, i :: 0 <= i < |s.tokens.Get(c)| ==>
      Reduce(s, a).tokens.Get(c)[i] == s.tokens.Get(c)[i].(price := Reduce(s, a).tokens.Get(c)[i].price)
  {
    if a.UpdatePrice? && HasId(s.tokens.Get(a.category), a.id) {
      UpdatePriceHit(s, a.id, a.newPrice, a.category);
    }
  }

  /** The bucket invariant `status == bucket` survives every action whose
      payload (for `INIT_DATA`) satisfies it. */
  lemma ReducePreservesPartition(s: AppState, a: Action)
    requires Partitioned(s.tokens) && WellFormed(a)
    ensures Partitioned(Reduce(s, a).tokens)
  {
    if !a.InitData? {
      ReduceKeepsTokens(s, a);
    }
  }

  /** Prices stay non-negative when every dispatched price is. */
  lemma ReducePreservesPrices(s: AppState, a: Action)
    requires PricesNonNegative(s.tokens)
    requires a.InitData? ==> PricesNonNegative(a.payload)
    requires a.UpdatePrice? ==> a.newPrice >= 0.0
    ensures PricesNonNegative(Reduce(s, a).tokens)
  {
    if a.UpdatePrice? && HasId(s.tokens.Get(a.category), a.id) {
      UpdatePriceHit(s, a.id, a.newPrice, a.category);
    }
  }

  /** The selected token is a snapshot: a price update never reaches it, so
      once the selected token's price changes in its bucket, the selection no
      longer equals the stored token. */
  lemma SelectionIsSnapshot(s: AppState, id: string, newPrice: real, c: Status)
    requires s.selectedToken.Some? && HasId(s.tokens.Get(c), id)
    requires s.selectedToken.value == s.tokens.Get(c)[FindIndex(s.tokens.Get(c), id)]
    requires newPrice != s.selectedToken.value.price
    ensures var r := Reduce(s, UpdatePrice(id, newPrice, c));
      r.selectedToken == s.selectedToken &&
      r.selectedToken.value != r.tokens.Get(c)[FindIndex(s.tokens.Get(c), id)]
  {
    UpdatePriceHit(s, id, newPrice, c);
  }

  /** Every state reachable from a partitioned state through well-formed
      actions is partitioned; in particular every state reachable from the
      initial state. */
  lemma {:induction false} RunPreservesPartition(s: AppState, actions: seq<Action>)
    requires Partitioned(s.tokens)
    requires forall i :: 0 <= i < |actions| ==> WellFormed(actions[i])
    ensures Partitioned(Run(s, actions).tokens)
    decreases |actions|
  {
    if actions != [] {
      ReducePreservesPartition(s, actions[0]);
      RunPreservesPartition(Reduce(s, actions[0]), actions[1..]);
    }
  }

  /** Without `INIT_DATA`, a run of actions keeps every bucket's length and
      every token's identity (only prices move). */
  lemma {:induction false} RunWithoutLoadKeepsTokens(s: AppState, actions: seq<Action>)
    requires forall i :: 0 <= i < |actions| ==> !actions[i].InitData?
    ensures forall c :: |Run(s, actions).tokens.Get(c)| == |s.tokens.Get(c)|
    ensures forall c, i :: 0 <= i < |s.tokens.Get(c)| ==>
      Run(s, actions).tokens.Get(c)[i] == s.tokens.Get(c)[i].(price := Run(s, actions).tokens.Get(c)[i].price)
    decreases |actions|
  {
    if actions != [] {
      ReduceKeepsTokens(s, actions[0]);
      RunWithoutLoadKeepsTokens(Reduce(s, actions[0]), actions[1..]);
    }
  }
}
