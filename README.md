# Yields page row derivation

A Dafny model of how the yields page of the DefiLlama dashboard turns its pool
list into the rows of its table (`src/components/YieldsPage/index.tsx`):

1. five attribute toggles (stablecoins only, no impermanent-loss risk, single
   exposure, TVL of at least one million dollars, audited) each narrow the
   pool list in turn;
2. every surviving pool is projected to a display row whose chain list holds
   just the pool's chain;
3. rows whose chain is not among the selected chains are dropped;
4. when at least one of the `minTvl`/`maxTvl` query values is a number, rows
   outside the open interval they give are dropped;
5. a breadcrumb label is chosen (from the `chain` query: the one chain of the
   unfiltered pools or "All"; from the `project` query: the first row's
   project name or the capitalised slug), and when no row survives the page
   shows a message built from that label.

The model is pure: the toggles, the selected chains, the query values and the
`capitalizeFirstLetter` helper are parameters. `Seqs` holds the
order-preserving filter the stages are built from; `YieldsPage` holds the
pool and row records, the stages, the label and the page method; `Scenarios`
pins the edge cases down on concrete inputs.

Query values are modelled as JavaScript sees them. A value counts as set only
when it is present and non-empty (truthiness). A TVL bound is `Absent`,
`Numeric(text, value)` when `Number(text)` is a number, or `NotANumber(text)`.
The range filter runs when either bound is `Numeric`, compares only against
bounds whose text is non-empty, and a comparison with a `NotANumber` bound is
false.

An unparseable bound is not simply ignored. The range filter is skipped only
when neither bound is numeric (`index.tsx` line 80). When the other bound is numeric, every
comparison with the unparseable one is false and the table empties
(`Scenarios.NaNBoundEmptiesTable`).

Only the presence of the `chain` query matters: its value is never read, and
the label is computed from the pools before any toggle narrows them.

An empty `minTvl=` is numeric (it reads as 0) yet never compared against, so it
switches the range filter on without constraining it.

## Model

| member | source | states |
|---|---|---|
| Seqs.Filter | src/components/YieldsPage/index.tsx:56-60 | `Array.prototype.filter`: the result is no longer than the input and every element of it passes the predicate |
| Seqs.FilterCharacterization | src/components/YieldsPage/index.tsx:56-60 | a filter's result is a subsequence of its input (order kept) holding every passing element exactly as often as the input and no failing element; membership is "in the input and passes" |
| Seqs.FilterUnique | src/components/YieldsPage/index.tsx:56-60 | any subsequence of the input with those multiplicities is the filter's result, so the characterization is exact |
| Seqs.SubsequenceMultiset | src/components/YieldsPage/index.tsx:56-60 | a subsequence never holds an element more often than the whole |
| Seqs.FilterKeepsAll | src/components/YieldsPage/index.tsx:77 | a filter every element passes returns its input unchanged |
| Seqs.FilterAgrees | src/components/YieldsPage/index.tsx:56-60 | filters by predicates agreeing on the input give the same result |
| Seqs.FilterTwice | src/components/YieldsPage/index.tsx:56-60 | two successive filters equal one filter by the conjunction of their predicates |
| Seqs.FilterCommutes | src/components/YieldsPage/index.tsx:56-60 | two successive filters can be swapped |
| YieldsPage.Stage | src/components/YieldsPage/index.tsx:56-60 | one toggle stage: the identity when the toggle is off; when on, exactly the pools passing its predicate, each as often as in the input; always a subsequence of the input |
| YieldsPage.StageAfter | src/components/YieldsPage/index.tsx:56-60 | a stage applied to an already filtered list is one filter by the old predicate and the stage's own (when its toggle is on) |
| YieldsPage.ApplyToggles | src/components/YieldsPage/index.tsx:56-60 | rebinding the pools through the five stages leaves exactly the single filter by the conjunction of the enabled toggles' predicates |
| YieldsPage.StagesCommute | src/components/YieldsPage/index.tsx:56-60 | any two toggle stages commute, so their order does not matter |
| YieldsPage.ToRow | src/components/YieldsPage/index.tsx:63-76 | a row's `id`, `pool`, `projectslug` and `project` are the pool's `pool`, `symbol`, `project` and `projectName`; its chain list is the one-element list of the pool's chain; TVL, APY, its changes and the prediction are copied through |
| YieldsPage.ToRows | src/components/YieldsPage/index.tsx:63-76 | projection keeps length and order: row i is the projection of pool i |
| YieldsPage.ToRowsFilter | src/components/YieldsPage/index.tsx:63-77 | filtering projected rows equals projecting the pools that pass the same test on their row |
| YieldsPage.ByChain | src/components/YieldsPage/index.tsx:77 | the chain filter keeps exactly the rows whose first chain is selected, each as often as before, in order |
| YieldsPage.ByChainAllSelected | src/components/YieldsPage/index.tsx:77 | when every pool's chain is selected (as with the initial selection, the chain list, when that list holds every pool's chain) the chain filter changes nothing |
| YieldsPage.PoolsData | src/components/YieldsPage/index.tsx:62-85 | the memoised rows are the projections of exactly the given pools whose chain is selected and whose TVL is in range, in order |
| YieldsPage.ByTvl | src/components/YieldsPage/index.tsx:79-84 | with no numeric bound the rows are unchanged; otherwise a kept row lies strictly above a set minimum and strictly below a set maximum, a set non-numeric bound empties the result, and every row in range is kept exactly as often as in the input, in order, and no other row |
| YieldsPage.PoolsDataIsOneFilter | src/components/YieldsPage/index.tsx:62-85 | projection, chain filter and range filter over the toggled pools equal the projection of one filter of the raw pools by toggles, selected chain and range |
| YieldsPage.DistinctChains | src/components/YieldsPage/index.tsx:19 | the distinct chains of the pools: each pool's chain occurs, nothing else does, and none twice |
| YieldsPage.EmptyMessage | src/components/YieldsPage/index.tsx:108 | a truthy label gives "<label> has no pools listed", beginning with the label; no label or an empty one gives "Couldn't find any pools for these filters" |
| YieldsPage.SelectedTab | src/components/YieldsPage/index.tsx:19-20 | no pools give no tab; pools on two different chains give "All"; pools all on one chain give that chain |
| YieldsPage.YieldPage | src/components/YieldsPage/index.tsx:18-110 | the rows are the projections of exactly the pools passing toggles, chain selection and range; with a `chain` query the label is the tab of the unfiltered pools; otherwise with a `project` query it is the first row's project or the capitalised slug; otherwise unset; the breadcrumb falls back to "All chains"; no rows means the empty message |
| Scenarios.TvlBoundsAreStrict | src/components/YieldsPage/index.tsx:79-84 | min 100 and max 1000 over TVLs 100, 500, 1000, 1001 keep only 500 |
| Scenarios.NaNBoundEmptiesTable | src/components/YieldsPage/index.tsx:79-84 | a non-numeric minimum with a numeric maximum drops every row |
| Scenarios.UnusableBoundsAreIgnored | src/components/YieldsPage/index.tsx:79-84 | absent or non-numeric bounds on both sides leave the rows unchanged |
| Scenarios.MillionIsInclusive | src/components/YieldsPage/index.tsx:59 | the million-dollar toggle keeps a pool holding exactly 1e6 and drops one just below |
| Scenarios.AuditedComparesStrings | src/components/YieldsPage/index.tsx:60 | over audit counts "0", "1", "00", "2" the audited toggle keeps "1", "00" and "2" |
| Scenarios.EmptyMessageWording | src/components/YieldsPage/index.tsx:108 | label "Ethereum" gives "Ethereum has no pools listed"; no label or an empty one gives "Couldn't find any pools for these filters" |
| Scenarios.LabelSeesUnfilteredPools | src/components/YieldsPage/index.tsx:19-20 | with the audited toggle leaving only an Ethereum pool, the tab of the unfiltered pools is still "All" while the filtered pools alone would give "Ethereum" |
| Scenarios.SelectedTabExamples | src/components/YieldsPage/index.tsx:19-20 | one chain gives that chain, two give "All", no pools give no tab |

## Left out

- The rewrite of the shared `columns` entry for the project column (lines 27-47): it only picks one of two cell renderers, and `columns` lives in `./shared`, which is not part of this model.
- React and Next.js hooks (`useState`, `useMemo`, `useRouter`): the selected chains and the query are inputs; memoisation does not change results. The selected chains start as the chain list (line 21); nothing makes that list hold every pool's chain, and `ByChainAllSelected` covers the case where it does.
- The local-storage toggle managers (lines 9-14, 50-54): the five booleans are an input.
- `capitalizeFirstLetter` (from `utils`, not part of this model): a function parameter of `YieldPage`.
- `Number` parsing of the TVL query strings: the parsed finite value or its failure (NaN) is part of the `Bound` input.
- Infinite TVL bounds: `Number("Infinity")` or `Number("1e999")` is not NaN, so the page treats such a bound as valid (`maxTvl=Infinity` keeps every row, `minTvl=Infinity` drops every row); `Bound` holds only finite reals and cannot express them.
- Floating point: TVL, APY and its changes are reals; NaN or missing `tvlUsd` values in the pool data are not modelled.
- Array-valued query parameters (`string[]`): each query value is an optional string.
- JSX rendering, styling, the search, filter and table components: the page's output is a breadcrumb name and either the rows or the message text.
