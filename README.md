# Eterna token dashboard: state core in Dafny

This project is a Dafny model of the state and update core of the Eterna token
dashboard, a React front end. The dashboard shows three columns of mock tokens:
"New Pairs", "Final Stretch" and "Migrated".

A single reducer owns the store. The store holds three token buckets, the
selected token, the sort key, the filter text and a loading flag. The
provider mounts, waits, and loads fifteen generated tokens per bucket with one
`INIT_DATA`. After that, a live-feed interval moves the price of one random
token at a time. Each column shows its bucket through a case-insensitive
symbol/name filter followed by a stable descending sort on the chosen key.

The model covers the following:

- `Store`: the entities of `components/utils/store.ts` (`Token`, the bucket
  record, `AppState`, the action union) and its reducer. `FindIndex` is the
  first-match search the reducer uses. `Run` folds the reducer over a sequence
  of actions.
- `PageReducer`: the copy of the reducer in `app/page.tsx`. On a price update
  it also records the old price in `prevPrice`.
- `TokenList`: `displayTokens` of `components/organisms/TokenListColumn.tsx`.
  The filter is modelled as `FilterTokens`. The sort is an insertion sort
  (`SortDesc`). Insertion sort is stable, like the engine's `Array.prototype.sort`.
  The model proves that it is the only stable descending order.
- `MockData`: `generateToken`. Every `Math.random()` call is a parameter of
  type `Draw`, a real in `[0, 1)`. `Date.now()` is the parameter `now`.
- `StoreProvider`:
  - the provider's loader, with its `mounted` cancellation guard;
  - the payload the loader builds;
  - the tick body, `FeedTick`;
  - a `Provider` class whose fields are the reducer state and the `mounted` flag.
- `PageApp`: the page's own loader, which has no guard, and its tick, as the
  class `AxiomReplica`. Its `generateToken` computes the same token as the
  one in `mockData.ts`. Its `displayTokens` differs only in the volume
  comparator, which has no `|| 0`. `PageDisplayTokens` sorts with that
  comparator and equals the column's `DisplayTokens` whenever every token has
  a volume; `PageViewOfRun` shows that every state the page reaches is such
  a state.
- `Formatters`: `cn`, which filters out the falsy class names and joins the
  rest with single spaces.
- `Strings`: the ASCII behaviour of `toLowerCase`, `toUpperCase`, `slice`,
  `includes` and decimal rendering, as the core uses them.
- `Scenario`: a concrete load, update, filter, select and miss sequence that
  runs through the reducer and the column view.

The comment at app/page.tsx:40 gives the stretch progress as 80–99%, but
`80 + Math.floor(Math.random() * 19)` (components/utils/mockData.ts:7)
produces 80–98 only. The model follows the code: `MockData.ProgressValues`
proves that exactly 80–98 can occur.

`Formatters.Split` is not part of the source. It cuts a string at its spaces,
the inverse of `cn`'s join, and serves only to state the round trip
`Formatters.CnSplitRoundTrip`.

## Model

| member | source | states |
|---|---|---|
| Store.Buckets.Set | components/utils/store.ts:55-57 | replacing one bucket changes that bucket only |
| Store.FindIndex | components/utils/store.ts:53 | `findIndex`: the result is -1 exactly when no token has the id; otherwise it is an index holding the id with no earlier index holding it |
| Store.InitialStateIsEmpty | components/utils/store.ts:31-37 | the initial state has three empty buckets, no selection, sort key `created`, an empty filter and loading on |
| Store.ReduceInitData | components/utils/store.ts:48-49 | `INIT_DATA` replaces all buckets, clears `isLoading` and keeps the selection, sort key and filter |
| Store.UpdatePriceMiss | components/utils/store.ts:53-54 | `UPDATE_PRICE` for an id that is not in the named bucket returns the same state |
| Store.UpdatePriceHit | components/utils/store.ts:50-58 | `UPDATE_PRICE` for an id in the bucket: the first token with that id gets the new price; every other token, every other bucket and every other field stays the same |
| Store.ReduceSetters | components/utils/store.ts:59-66 | `SELECT_TOKEN`, `SET_SORT` and `SET_FILTER` each set one field to the payload; an unknown action returns the state unchanged |
| Store.ReduceKeepsTokens | components/utils/store.ts:46-68 | every action except `INIT_DATA` keeps bucket lengths and changes at most the price of a token at a given index |
| Store.ReducePreservesPartition | components/utils/store.ts:46-68 | if every token's status names its own bucket, every action keeps that true, provided an `INIT_DATA` payload is partitioned too |
| Store.ReducePreservesPrices | components/utils/store.ts:46-68 | prices stay non-negative when every price that is dispatched is non-negative |
| Store.SelectionIsSnapshot | components/utils/store.ts:55-60 | the selected token is a copy: a price update never reaches it, so it stops equalling the stored token once that token's price changes |
| Store.RunPreservesPartition | components/utils/store.ts:46-68 | the bucket partition holds along any run of well-formed actions |
| Store.RunWithoutLoadKeepsTokens | components/utils/store.ts:46-68 | a run of actions with no `INIT_DATA` changes no bucket length and no token's identity; only prices move |
| PageReducer.PageUpdatePriceHit | app/page.tsx:79-88 | the page's hit branch sets the first matching token's price to the new value and its `prevPrice` to the old price, and changes nothing else |
| PageReducer.PageNoOps | app/page.tsx:81-99 | a miss, and an unknown action, return the page state unchanged |
| PageReducer.PageAgreesWithStore | app/page.tsx:73-101 | the page reducer and the store reducer agree on every action except `UPDATE_PRICE`; on a price update they differ only in `prevPrice` |
| PageReducer.RunPagePreservesPartition | app/page.tsx:73-101 | the page reducer also keeps the bucket partition along any run |
| TokenList.MatchesIff | components/organisms/TokenListColumn.tsx:15-22 | a token passes the filter exactly when the lower-cased query occurs at some offset of its lower-cased symbol or name |
| TokenList.KeepCount | components/organisms/TokenListColumn.tsx:17-21 | each token occurs in the filtered list as often as in the bucket if it matches, and not at all otherwise |
| TokenList.KeepLowerInvariant | components/organisms/TokenListColumn.tsx:16 | two queries with the same lower-case form give the same filtered list |
| TokenList.KeepFilterKey | components/organisms/TokenListColumn.tsx:17-21 | filtering keeps the relative order of tokens that share a sort value |
| TokenList.InsertCount | components/organisms/TokenListColumn.tsx:23-28 | one insertion step adds exactly the inserted token |
| TokenList.InsertSorted | components/organisms/TokenListColumn.tsx:23-28 | an insertion step keeps a descending list descending |
| TokenList.InsertStable | components/organisms/TokenListColumn.tsx:23-28 | an inserted token goes after every earlier token with the same sort value |
| TokenList.SortDescCount | components/organisms/TokenListColumn.tsx:23 | the sorted copy is a permutation of its input |
| TokenList.SortDescSorted | components/organisms/TokenListColumn.tsx:24-27 | the sorted copy is in non-increasing order of the comparator's value |
| TokenList.SortDescStable | components/organisms/TokenListColumn.tsx:23-28 | the sort is stable: for each value, the tokens with that value stay in input order |
| TokenList.StableSortUnique | components/organisms/TokenListColumn.tsx:23-28 | two descending lists with the same per-value subsequences are equal, so there is only one stable sort result |
| TokenList.DisplayEmptyFilter | components/organisms/TokenListColumn.tsx:15 | with an empty filter the column shows a permutation of the whole bucket |
| TokenList.DisplayMembership | components/organisms/TokenListColumn.tsx:14-28 | with a non-empty filter: each token appears as often as in the bucket when it matches and otherwise not at all; a token is shown exactly when it is in the bucket and the query occurs in its symbol or name, ignoring case |
| TokenList.DisplaySorted | components/organisms/TokenListColumn.tsx:24-27 | the view is descending by `created`, by `volume` with a missing volume counted as 0, or by the absolute 24h change |
| TokenList.DisplayStable | components/organisms/TokenListColumn.tsx:14-28 | for each value, the tokens shown with that value are the filtered tokens with that value, in bucket order |
| TokenList.DisplayIsTheStableSort | components/organisms/TokenListColumn.tsx:14-28 | any descending list with the same per-value order as the filtered bucket is the view |
| TokenList.DisplayOtherKey | components/organisms/TokenListColumn.tsx:27 | with an unknown sort key the comparator always returns 0, so the view is the filtered bucket in its own order |
| TokenList.FilterIsCaseInsensitive | components/organisms/TokenListColumn.tsx:16-21 | queries that differ only in case show the same view |
| MockData.Scaled | components/utils/mockData.ts:16 | `Math.floor(r * n)` lies in `[0, n)` |
| MockData.Letter | components/utils/mockData.ts:12 | each symbol character is an upper-case ASCII letter |
| MockData.GenerateToken | components/utils/mockData.ts:4-25 | the token keeps the id and status it is given and has the range-limited progress; its symbol is four capital letters and its name is "Project " plus the first four characters of the id in upper case; price is in [0, 0.05), change24h in [-20, 20), volume below 1e6, mcap below 5e6, liquidity below 2e5, created within the last 1e7 ms, txCount below 5000 and holders below 1000; `prevPrice` is unset |
| MockData.ProgressDeterminesStatus | components/utils/mockData.ts:5-8 | a generated token's progress alone tells which bucket it was made for |
| MockData.ProgressValues | components/utils/mockData.ts:5-8 | a progress value can be drawn for a status exactly when it is in 0–79, 80–98 or is 100 |
| StoreProvider.Movement | providers/StoreProvider.tsx:42 | the feed's price change lies in [-0.001, 0.001) |
| StoreProvider.FeedTick | providers/StoreProvider.tsx:34-47 | a tick dispatches an update exactly when the store is not loading and the chosen bucket is not empty |
| StoreProvider.BucketPayloadShape | providers/StoreProvider.tsx:18-20 | token `i` of a generated bucket has id prefix+i, the bucket's status, a non-negative price and a volume |
| StoreProvider.LoadPayloadShape | providers/StoreProvider.tsx:18-20 | the payload has fifteen tokens per bucket; token `i` of bucket `c` has id prefix(c)+i and status `c`; and the payload is partitioned, has non-negative prices and has a volume for every token |
| StoreProvider.PrefixedIdsDiffer | providers/StoreProvider.tsx:18-20 | ids built from different buckets or different indices are different: the prefixes "new-", "str-" and "mig-" all have four characters and differ in the first, and the index renderings after them are distinct |
| StoreProvider.LoadPayloadUniqueIds | providers/StoreProvider.tsx:18-20 | no two tokens of a payload share an id, within a bucket or across buckets |
| StoreProvider.LoadPayloadNames | providers/StoreProvider.tsx:18-20 | all tokens of a bucket get the same name: "Project NEW-", "Project STR-" or "Project MIG-" |
| StoreProvider.TickHits | providers/StoreProvider.tsx:38-44 | a tick's update names a token of the chosen bucket, so the reducer takes its hit branch; the new price is at least 0 and within 0.001 of a non-negative old price |
| StoreProvider.TickUpdatesChosenToken | providers/StoreProvider.tsx:41-44 | when a bucket's ids are unique, the reducer updates exactly the token the tick drew |
| StoreProvider.TickPreservesInvariants | providers/StoreProvider.tsx:34-47 | a tick keeps the partition, non-negative prices, volumes and unique ids |
| StoreProvider.ReduceKeepsVolumesAndIds | components/utils/store.ts:46-68 | every action keeps a volume on every token and unique ids in each bucket, provided an `INIT_DATA` payload has both |
| StoreProvider.LoadPayloadAdmissible | providers/StoreProvider.tsx:18-25 | the loader's `INIT_DATA` is partitioned, has non-negative prices, has volumes and has unique ids in each bucket |
| StoreProvider.Provider.constructor | providers/StoreProvider.tsx:10-14 | the provider starts with the initial state and with `mounted` set |
| StoreProvider.Provider.Dispatch | providers/StoreProvider.tsx:22-25 | dispatch replaces the state with the reducer's result and keeps the invariants for admissible actions |
| StoreProvider.Provider.Unmount | providers/StoreProvider.tsx:28-30 | cleanup clears `mounted`, which also stands for the cleared interval, and leaves the state alone |
| StoreProvider.Provider.FinishLoad | providers/StoreProvider.tsx:15-26 | after the delay, a mounted provider loads the payload and stops loading; an unmounted one leaves the state untouched |
| StoreProvider.Provider.Tick | providers/StoreProvider.tsx:34-47 | one interval callback applies the tick's update when the provider is mounted and the tick yields one, and otherwise leaves the state alone (after unmounting, `clearInterval` has stopped the feed); from a valid state the token updated is exactly the one drawn, at the drawn index, with only its price changed; it keeps the invariants (partition, non-negative prices, volumes, unique ids per bucket) |
| StoreProvider.CancelledLoad | providers/StoreProvider.tsx:13-31 | unmounting before the delay ends leaves the store loading and empty |
| PageApp.PageCompare | app/page.tsx:279-284 | when both tokens have a volume, the page's comparator returns the same value as the column's |
| PageApp.PageInsert | app/page.tsx:279-284 | one insertion step branching on the page's comparator is the column's insertion step, when volumes are present for the volume key |
| PageApp.PageSortDesc | app/page.tsx:279-284 | the page's sort is the column's stable sort, and keeps every token's volume |
| PageApp.PageDisplayTokens | app/page.tsx:270-285 | the page's filter-then-sort view equals the column's `DisplayTokens` on buckets whose tokens all have a volume |
| PageApp.PageViewOfRun | app/page.tsx:270-285 | in every state the page reaches from a state with volumes, each column's page view is defined and equals `DisplayTokens` |
| PageApp.RunPageKeepsVolumes | app/page.tsx:73-101 | the page reducer keeps a volume on every token when every loaded payload has one, so the page comparator is always defined |
| PageApp.AxiomReplica.constructor | app/page.tsx:61-71 | the page starts from the initial state |
| PageApp.AxiomReplica.Dispatch | app/page.tsx:73-101 | dispatch replaces the state with the page reducer's result |
| PageApp.AxiomReplica.FinishLoad | app/page.tsx:439-458 | the page's loader dispatches `INIT_DATA` with no mounted check and ends loading with a partitioned payload whose tokens all have a volume |
| PageApp.AxiomReplica.Tick | app/page.tsx:461-484 | one interval callback of the page leaves the state alone when the tick yields nothing, and otherwise applies the tick's update through the page reducer |
| Formatters.TruthiesAppend | components/utils/formatters.ts:8 | filtering out falsy values distributes over concatenation |
| Formatters.JoinAppend | components/utils/formatters.ts:8 | joining two non-empty lists puts exactly one separator between the two joined parts |
| Formatters.CnSkipsFalsy | components/utils/formatters.ts:8 | a falsy argument (`false`, `null`, `undefined`, `""`) has no effect on the class string |
| Formatters.CnAppend | components/utils/formatters.ts:8 | `cn(a..., b...)` is `cn(a...)` and `cn(b...)` joined by one space when both are non-empty, and the non-empty one otherwise |
| Formatters.CnAllFalsy | components/utils/formatters.ts:8 | only falsy arguments give the empty string |
| Formatters.CnSingle | components/utils/formatters.ts:8 | exactly one truthy argument gives that argument |
| Formatters.TruthiesKeepsTruthy | components/utils/formatters.ts:8 | a string survives the filter exactly when it is a non-empty argument |
| Formatters.SplitJoin | components/utils/formatters.ts:8 | splitting a space-joined list of space-free words gives the list back |
| Formatters.CnSplitRoundTrip | components/utils/formatters.ts:8 | for space-free class names, splitting `cn`'s output at spaces gives back exactly the truthy arguments in order |
| Strings.LowerOfUpper | components/organisms/TokenListColumn.tsx:16-20 | lower-casing an upper-cased string, or lower-casing twice, gives the same as lower-casing once |
| Strings.Prefix | components/utils/mockData.ts:13 | `slice(0, 4)` is a prefix of length min(4, length) |
| Strings.IncludesIff | components/organisms/TokenListColumn.tsx:19-20 | `includes` is true exactly when the query occurs at some offset |
| Strings.IncludesChar | components/organisms/TokenListColumn.tsx:19-20 | a one-character query is found exactly when it is in the string |
| Strings.NatToString | providers/StoreProvider.tsx:18-20 | the decimal rendering of an index is a non-empty string of digits, one digit long exactly for 0–9 |
| Strings.NatToStringInjective | providers/StoreProvider.tsx:18-20 | different indices render differently |
| Scenario.EndToEndScenario | components/utils/store.ts:46-68 | loading tokens A (created 100) and B (created 200) shows [B, A]; moving A's price keeps that order with A updated; filter "B" shows only B; the selection holds the updated A; an update for an unknown id changes nothing |

## Left out

- Rendering is not modelled: the JSX, Tailwind classes, skeletons, tooltips, modals, avatars, `Header`, `TokenCard` and its price-flash effect.
- `formatCurrency` and `formatCompact` are not modelled. They call `Intl.NumberFormat`, whose locale tables are outside the program.
- Timers are not modelled. `setTimeout`, `setInterval` and `clearInterval` become method calls: `FinishLoad` is the end of the delay, `Tick` is one interval callback, and `Unmount` is the cleanup.
- Every `Math.random()` value is a `Draw` parameter, and `Date.now()` is the `now` parameter.
- React scheduling is not modelled: `useMemo` caching, effect re-runs and stale closures. A tick reads the state it is handed, which matches the state-reading closure in the source.
- Prices, changes and movements are exact reals. IEEE-754 rounding is not modelled.
- Case conversion covers ASCII letters only. Unicode case mapping is not modelled.
- The optional `image` field of a token is left out. No core operation reads or writes it.
- PageApp.PageCompare: for a token without a volume the page's comparator computes NaN. The model requires volumes for that key, and `RunPageKeepsVolumes` shows the page only ever holds tokens that have one.
- The `?? []` fallback for a missing bucket is not modelled, because every `AppState` holds all three buckets.
- The feed's `clearInterval` on a change of `isLoading` or `tokens` (the effect re-running with a fresh interval) is not modelled; only the cleanup at unmount is, through `Provider.Tick` doing nothing once `mounted` is false.
