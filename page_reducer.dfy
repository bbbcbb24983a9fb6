/**
 * The older single-file copy of the reducer in app/page.tsx. It differs from
 * store.ts in one place: a price update also records the token's previous
 * price in `prevPrice`.
 */
module PageReducer {
  import opened Wrappers
  import opened Store

  function ReducePage(s: AppState, a: Action): AppState {
    match a
    case InitData(payload) => s.(tokens := payload, isLoading := false)
    case UpdatePrice(id, newPrice, category) =>
      var list := s.tokens.Get(category);
      var index := FindIndex(list, id);
      if index == -1 then s
      else
        var t := list[index].(price := newPrice, prevPrice := Some(list[index].price));
        s.(tokens := s.tokens.Set(category, list[index := t]))
    case SelectToken(t) => s.(selectedToken := t)
    case SetSort(key) => s.(sortKey := key)
    case SetFilter(text) => s.(filter := text)
    case UnknownAction(_) => s
  }

  function RunPage(s: AppState, actions: seq<Action>): AppState
    decreases |actions|
  {
    if actions == [] then s else RunPage(ReducePage(s, actions[0]), actions[1..])
  }

  /** A hit sets `price` to the new price and `prevPrice` to the old one, on
      the first token with that id only. */
  lemma PageUpdatePriceHit(s: AppState, id: string, newPrice: real, c: Status)
    requires HasId(s.tokens.Get(c), id)
    ensures var k := FindIndex(s.tokens.Get(c), id);
      var r := ReducePage(s, UpdatePrice(id, newPrice, c));
      var before, after := s.tokens.Get(c), r.tokens.Get(c);
      && 0 <= k < |before| && before[k].id == id
      && |after| == |before|
      && after[k] == before[k].(price := newPrice, prevPrice := Some(before[k].price))
      && (forall i :: 0 <= i < |before| && i != k ==> after[i] == before[i])
      && (forall d :: d != c ==> r.tokens.Get(d) == s.tokens.Get(d))
      && r.selectedToken == s.selectedToken && r.sortKey == s.sortKey
      && r.filter == s.filter && r.isLoading == s.isLoading
  {
  }

  /** A miss, and an action with an unknown type, return the state unchanged. */
  lemma PageNoOps(s: AppState, id: string, newPrice: real, c: Status, tag: string)
    ensures !HasId(s.tokens.Get(c), id) ==> ReducePage(s, UpdatePrice(id, newPrice, c)) == s
    ensures ReducePage(s, UnknownAction(tag)) == s
  {
  }

  /** The two reducers agree on every action except in the hit token's
      `prevPrice`, which only the page copy writes. */
  lemma PageAgreesWithStore(s: AppState, a: Action)
    ensures !a.UpdatePrice? ==> ReducePage(s, a) == Reduce(s, a)
    ensures a.UpdatePrice? ==>
      var list := s.tokens.Get(a.category);
      var k := FindIndex(list, a.id);
      var r, r' := ReducePage(s, a), Reduce(s, a);
      if k == -1 then r == r' == s
      else r == r'.(tokens := r'.tokens.Set(a.category,
        r'.tokens.Get(a.category)[k := r'.tokens.Get(a.category)[k].(prevPrice := Some(list[k].price))]))
  {
    if a.UpdatePrice? {
      var list := s.tokens.Get(a.category);
      var k := FindIndex(list, a.id);
      if k != -1 {
        var r' := Reduce(s, a);
        var l' := r'.tokens.Get(a.category);
        assert l'[k := l'[k].(prevPrice := Some(list[k].price))]
          == list[k := list[k].(price := a.newPrice, prevPrice := Some(list[k].price))];
      }
    }
  }

  /** The bucket invariant is kept by the page reducer as well. */
  lemma {:induction false} RunPagePreservesPartition(s: AppState, actions: seq<Action>)
    requires Partitioned(s.tokens)
    requires forall i :: 0 <= i < |actions| ==> WellFormed(actions[i])
    ensures Partitioned(RunPage(s, actions).tokens)
    decreases |actions|
  {
    if actions != [] {
      var a := actions[0];
      if a.UpdatePrice? && HasId(s.tokens.Get(a.category), a.id) {
        PageUpdatePriceHit(s, a.id, a.newPrice, a.category);
      }
      RunPagePreservesPartition(ReducePage(s, a), actions[1..]);
    }
  }
}
