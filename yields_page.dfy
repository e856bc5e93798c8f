/**
 The row derivation of the yields page: five user toggles narrow the pool
 list, the survivors are projected to table rows, the rows are narrowed to the
 selected chains and to the TVL range given in the URL query, and a breadcrumb
 label and an empty-table message are chosen.

 Everything the page reads from React, Next.js or browser storage is an
 explicit input here: the toggles, the selected chains, the query values and
 the `capitalizeFirstLetter` helper.
 */
module YieldsPage {
  import opened Seqs

  datatype Option<T> = None | Some(value: T)

  /** A query value counts only when present and non-empty (JavaScript truthiness). */
  predicate Truthy(v: Option<string>) {
    v.Some? && v.value != ""
  }

  /** The `predictions` sub-record of a pool. */
  datatype Prediction = Prediction(predictedClass: string, binnedConfidence: int)

  /** A pool record as the page receives it. */
  datatype Pool = Pool(
    pool: string,
    symbol: string,
    project: string,
    projectName: string,
    chain: string,
    tvlUsd: real,
    apy: real,
    apyPct1D: real,
    apyPct7D: real,
    stablecoin: bool,
    ilRisk: string,
    exposure: string,
    audits: string,
    predictions: Prediction)

  /** A table row: a pool reshaped for display. */
  datatype Row = Row(
    id: string,
    pool: string,
    projectslug: string,
    project: string,
    chains: seq<string>,
    tvl: real,
    apy: real,
    change1d: real,
    change7d: real,
    outlook: string,
    confidence: int)

  /** The five attribute toggles kept in local storage. */
  datatype Toggles = Toggles(stablecoins: bool, noIL: bool, singleExposure: bool, millionDollar: bool, audited: bool)

  /**
   A `minTvl` or `maxTvl` query value: missing, a string that `Number` turns
   into `value`, or a string that `Number` turns into NaN.
   */
  datatype Bound = Absent | Numeric(text: string, value: real) | NotANumber(text: string)

  /** The query values the page reads. */
  datatype Query = Query(chain: Option<string>, project: Option<string>, minTvl: Bound, maxTvl: Bound)

  /** What the page shows under its filters: the table, or a centred message. */
  datatype View = Table(rows: seq<Row>) | EmptyPanel(message: string)

  datatype Page = Page(breadcrumb: string, view: View)

  // ---------------------------------------------------------------------------
  // Toggle filtering

  predicate IsStablecoin(p: Pool) { p.stablecoin }

  predicate HasNoILRisk(p: Pool) { p.ilRisk == "no" }

  predicate IsSingleExposure(p: Pool) { p.exposure == "single" }

  const OneMillion: real := 1000000.0

  predicate HoldsAMillion(p: Pool) { p.tvlUsd >= OneMillion }

  /** A string comparison: only the audit count "0" means unaudited. */
  predicate IsAudited(p: Pool) { p.audits != "0" }

  /** One toggle stage: the pools passing `keep` when the toggle is on, all of them otherwise. */
  function Stage(on: bool, keep: Pool -> bool, pools: seq<Pool>): (r: seq<Pool>)
    ensures !on ==> r == pools
    ensures IsSubsequence(r, pools)
    ensures on ==> forall p :: multiset(r)[p] == if keep(p) then multiset(pools)[p] else 0
  {
    FilterCharacterization(pools, keep);
    SubsequenceOfItself(pools);
    if on then Filter(pools, keep) else pools
  }

  /** A pool passes every enabled toggle. */
  predicate Admitted(t: Toggles, p: Pool) {
    && (t.stablecoins ==> IsStablecoin(p))
    && (t.noIL ==> HasNoILRisk(p))
    && (t.singleExposure ==> IsSingleExposure(p))
    && (t.millionDollar ==> HoldsAMillion(p))
    && (t.audited ==> IsAudited(p))
  }

  /** Narrowing an already narrowed list by one more stage narrows by the conjunction. */
  lemma {:induction false} StageAfter(pools: seq<Pool>, before: Pool -> bool, on: bool, keep: Pool -> bool, after: Pool -> bool)
    requires forall p :: after(p) == (before(p) && (on ==> keep(p)))
    ensures Stage(on, keep, Filter(pools, before)) == Filter(pools, after)
  {
    if on {
      FilterTwice(pools, before, keep, after);
    } else {
      FilterAgrees(pools, before, after);
    }
  }

  /**
   The five toggle stages, rebinding the pool list one after the other; the
   result is the single filter by the conjunction of the enabled toggles.
   */
  method ApplyToggles(pools: seq<Pool>, t: Toggles) returns (result: seq<Pool>)
    ensures result == Filter(pools, (p: Pool) => Admitted(t, p))
  {
    ghost var passed: Pool -> bool := (p: Pool) => true;
    FilterKeepsAll(pools, passed);
    result := pools;

    ghost var next: Pool -> bool := (p: Pool) => passed(p) && (t.stablecoins ==> IsStablecoin(p));
    StageAfter(pools, passed, t.stablecoins, IsStablecoin, next);
    result, passed := Stage(t.stablecoins, IsStablecoin, result), next;

    next := (p: Pool) => passed(p) && (t.noIL ==> HasNoILRisk(p));
    StageAfter(pools, passed, t.noIL, HasNoILRisk, next);
    result, passed := Stage(t.noIL, HasNoILRisk, result), next;

    next := (p: Pool) => passed(p) && (t.singleExposure ==> IsSingleExposure(p));
    StageAfter(pools, passed, t.singleExposure, IsSingleExposure, next);
    result, passed := Stage(t.singleExposure, IsSingleExposure, result), next;

    next := (p: Pool) => passed(p) && (t.millionDollar ==> HoldsAMillion(p));
    StageAfter(pools, passed, t.millionDollar, HoldsAMillion, next);
    result, passed := Stage(t.millionDollar, HoldsAMillion, result), next;

    next := (p: Pool) => passed(p) && (t.audited ==> IsAudited(p));
    StageAfter(pools, passed, t.audited, IsAudited, next);
    result, passed := Stage(t.audited, IsAudited, result), next;

    FilterAgrees(pools, passed, (p: Pool) => Admitted(t, p));
  }

  /** The order of the toggle stages does not matter: any two of them commute. */
  lemma {:induction false} StagesCommute(pools: seq<Pool>, on1: bool, keep1: Pool -> bool, on2: bool, keep2: Pool -> bool)
    ensures Stage(on2, keep2, Stage(on1, keep1, pools)) == Stage(on1, keep1, Stage(on2, keep2, pools))
  {
    if on1 && on2 {
      FilterCommutes(pools, keep1, keep2);
    }
  }

  // ---------------------------------------------------------------------------
  // Projection to rows

  /**
   The row shown for a pool: identifier, symbol, project slug and project name
   are renamed, the chain becomes a one-element chain list, and TVL, yields and
   prediction are copied through.
   */
  function ToRow(p: Pool): (r: Row)
    ensures r.id == p.pool && r.pool == p.symbol && r.projectslug == p.project && r.project == p.projectName
    ensures r.chains == [p.chain] && r.tvl == p.tvlUsd
    ensures r.apy == p.apy && r.change1d == p.apyPct1D && r.change7d == p.apyPct7D
    ensures r.outlook == p.predictions.predictedClass && r.confidence == p.predictions.binnedConfidence
  {
    Row(p.pool, p.symbol, p.project, p.projectName, [p.chain], p.tvlUsd, p.apy, p.apyPct1D, p.apyPct7D,
        p.predictions.predictedClass, p.predictions.binnedConfidence)
  }

  /** One row per pool, in the pools' order. */
  function ToRows(pools: seq<Pool>): (rows: seq<Row>)
    ensures |rows| == |pools|
    ensures forall i :: 0 <= i < |pools| ==> rows[i] == ToRow(pools[i])
  {
    if pools == [] then [] else [ToRow(pools[0])] + ToRows(pools[1..])
  }

  /** Projecting and then filtering rows is filtering the pools by what their rows would show. */
  lemma {:induction false} ToRowsFilter(pools: seq<Pool>, keep: Row -> bool, keepPool: Pool -> bool)
    requires forall p :: keepPool(p) == keep(ToRow(p))
    ensures Filter(ToRows(pools), keep) == ToRows(Filter(pools, keepPool))
  {
    if pools != [] {
      ToRowsFilter(pools[1..], keep, keepPool);
      assert ToRows(pools)[1..] == ToRows(pools[1..]);
    }
  }

  // ---------------------------------------------------------------------------
  // Chain selection

  /** The row's (single) chain is one of the selected chains. */
  predicate ChainSelected(chainsToFilter: seq<string>, r: Row) {
    |r.chains| > 0 && r.chains[0] in chainsToFilter
  }

  function ByChain(rows: seq<Row>, chainsToFilter: seq<string>): (r: seq<Row>)
    ensures IsSubsequence(r, rows)
    ensures forall x :: x in r <==> x in rows && ChainSelected(chainsToFilter, x)
    ensures forall x :: multiset(r)[x] == if ChainSelected(chainsToFilter, x) then multiset(rows)[x] else 0
  {
    FilterCharacterization(rows, (x: Row) => ChainSelected(chainsToFilter, x));
    Filter(rows, (x: Row) => ChainSelected(chainsToFilter, x))
  }

  /** Selecting every chain the pools are on leaves their rows as they are. */
  lemma {:induction false} ByChainAllSelected(pools: seq<Pool>, chainsToFilter: seq<string>)
    requires forall i :: 0 <= i < |pools| ==> pools[i].chain in chainsToFilter
    ensures ByChain(ToRows(pools), chainsToFilter) == ToRows(pools)
  {
    FilterKeepsAll(ToRows(pools), (x: Row) => ChainSelected(chainsToFilter, x));
  }

  // ---------------------------------------------------------------------------
  // TVL range

  /** `Number(bound)` is not NaN. */
  predicate IsValid(b: Bound) { b.Numeric? }

  /** The query string is present and non-empty, so the page compares against it. */
  predicate IsSet(b: Bound) { !b.Absent? && b.text != "" }

  /** `tvl > bound`; a comparison with NaN is false. */
  predicate Above(tvl: real, b: Bound) { b.Numeric? && tvl > b.value }

  /** `tvl < bound`; a comparison with NaN is false. */
  predicate Below(tvl: real, b: Bound) { b.Numeric? && tvl < b.value }

  /** The range filter runs when at least one bound is present and numeric. */
  predicate RangeActive(minTvl: Bound, maxTvl: Bound) {
    IsValid(minTvl) || IsValid(maxTvl)
  }

  predicate WithinBounds(minTvl: Bound, maxTvl: Bound, tvl: real) {
    (IsSet(minTvl) ==> Above(tvl, minTvl)) && (IsSet(maxTvl) ==> Below(tvl, maxTvl))
  }

  /** A row survives the range: always when the range is off, else strictly inside the set bounds. */
  predicate InRange(minTvl: Bound, maxTvl: Bound, tvl: real) {
    RangeActive(minTvl, maxTvl) ==> WithinBounds(minTvl, maxTvl, tvl)
  }

  function ByTvl(rows: seq<Row>, minTvl: Bound, maxTvl: Bound): (r: seq<Row>)
    ensures !RangeActive(minTvl, maxTvl) ==> r == rows
    ensures IsSubsequence(r, rows)
    ensures forall x :: x in r <==> x in rows && InRange(minTvl, maxTvl, x.tvl)
    ensures forall x :: multiset(r)[x] == if InRange(minTvl, maxTvl, x.tvl) then multiset(rows)[x] else 0
    ensures forall i :: 0 <= i < |r| && RangeActive(minTvl, maxTvl) && IsSet(minTvl) ==>
      minTvl.Numeric? && r[i].tvl > minTvl.value
    ensures forall i :: 0 <= i < |r| && RangeActive(minTvl, maxTvl) && IsSet(maxTvl) ==>
      maxTvl.Numeric? && r[i].tvl < maxTvl.value
    ensures RangeActive(minTvl, maxTvl) && ((IsSet(minTvl) && !IsValid(minTvl)) || (IsSet(maxTvl) && !IsValid(maxTvl))) ==>
      r == []
  {
    FilterCharacterization(rows, (x: Row) => WithinBounds(minTvl, maxTvl, x.tvl));
    SubsequenceOfItself(rows);
    if RangeActive(minTvl, maxTvl) then Filter(rows, (x: Row) => WithinBounds(minTvl, maxTvl, x.tvl)) else rows
  }

  /** The pool's chain is selected and its TVL is in range. */
  predicate Listed(chainsToFilter: seq<string>, minTvl: Bound, maxTvl: Bound, p: Pool) {
    p.chain in chainsToFilter && InRange(minTvl, maxTvl, p.tvlUsd)
  }

  /**
   The rows derived from the toggled pools (the memoised `poolsData`): the
   projections of exactly the pools on a selected chain with TVL in range.
   */
  function PoolsData(pools: seq<Pool>, chainsToFilter: seq<string>, minTvl: Bound, maxTvl: Bound): (rows: seq<Row>)
    ensures rows == ToRows(Filter(pools, (p: Pool) => Listed(chainsToFilter, minTvl, maxTvl, p)))
  {
    var onChain := (p: Pool) => p.chain in chainsToFilter;
    var listed := (p: Pool) => Listed(chainsToFilter, minTvl, maxTvl, p);
    ToRowsFilter(pools, (x: Row) => ChainSelected(chainsToFilter, x), onChain);
    var chosen := Filter(pools, onChain);
    if RangeActive(minTvl, maxTvl) then
      ToRowsFilter(chosen, (x: Row) => WithinBounds(minTvl, maxTvl, x.tvl), (p: Pool) => WithinBounds(minTvl, maxTvl, p.tvlUsd));
      FilterTwice(pools, onChain, (p: Pool) => WithinBounds(minTvl, maxTvl, p.tvlUsd), listed);
      ByTvl(ByChain(ToRows(pools), chainsToFilter), minTvl, maxTvl)
    else
      FilterAgrees(pools, onChain, listed);
      ByTvl(ByChain(ToRows(pools), chainsToFilter), minTvl, maxTvl)
  }

  /** A pool is shown: it passes the toggles, its chain is selected and its TVL is in range. */
  predicate Shown(t: Toggles, chainsToFilter: seq<string>, minTvl: Bound, maxTvl: Bound, p: Pool) {
    Admitted(t, p) && Listed(chainsToFilter, minTvl, maxTvl, p)
  }

  /** The whole pipeline is one filter of the pools followed by the projection. */
  lemma {:induction false} PoolsDataIsOneFilter(pools: seq<Pool>, t: Toggles, chainsToFilter: seq<string>, minTvl: Bound, maxTvl: Bound)
    ensures PoolsData(Filter(pools, (p: Pool) => Admitted(t, p)), chainsToFilter, minTvl, maxTvl)
         == ToRows(Filter(pools, (p: Pool) => Shown(t, chainsToFilter, minTvl, maxTvl, p)))
  {
    FilterTwice(pools, (p: Pool) => Admitted(t, p), (p: Pool) => Listed(chainsToFilter, minTvl, maxTvl, p),
                (p: Pool) => Shown(t, chainsToFilter, minTvl, maxTvl, p));
  }

  // ---------------------------------------------------------------------------
  // Breadcrumb label and empty message

  /** The distinct chains of the pools (the JavaScript `Set` the page builds), each once. */
  function DistinctChains(pools: seq<Pool>): (chains: seq<string>)
    ensures forall c :: c in chains <==> exists i :: 0 <= i < |pools| && pools[i].chain == c
    ensures forall i, j :: 0 <= i < j < |chains| ==> chains[i] != chains[j]
  {
    if pools == [] then []
    else
      var seen := DistinctChains(pools[..|pools| - 1]);
      var last := pools[|pools| - 1].chain;
      assert forall i :: 0 <= i < |pools| - 1 ==> pools[..|pools| - 1][i] == pools[i];
      if last in seen then seen else seen + [last]
  }

  /**
   The tab for the page's chain: "All" when the pools span several chains,
   their one chain otherwise, nothing for an empty pool list.
   */
  function SelectedTab(pools: seq<Pool>): (tab: Option<string>)
    ensures pools == [] ==> tab == None
    ensures (exists i, j :: 0 <= i < |pools| && 0 <= j < |pools| && pools[i].chain != pools[j].chain) ==>
      tab == Some("All")
    ensures pools != [] && (forall i :: 0 <= i < |pools| ==> pools[i].chain == pools[0].chain) ==>
      tab == Some(pools[0].chain)
  {
    var chain := DistinctChains(pools);
    assert forall i :: 0 <= i < |pools| ==> pools[i].chain in chain;
    if |chain| > 1 then
      assert chain[0] in chain && chain[1] in chain;
      Some("All")
    else if chain == [] then None
    else Some(chain[0])
  }

  /** The centred message shown when no row survives. */
  function EmptyMessage(stepName: Option<string>): (msg: string)
    ensures Truthy(stepName) ==> msg == stepName.value + " has no pools listed"
    ensures Truthy(stepName) ==> msg[..|stepName.value|] == stepName.value
    ensures !Truthy(stepName) ==> msg == "Couldn't find any pools for these filters"
  {
    if Truthy(stepName) then stepName.value + " has no pools listed"
    else "Couldn't find any pools for these filters"
  }

  // ---------------------------------------------------------------------------
  // The page

  /**
   Derives what the page shows. The label for a `chain` query is computed from
   `pools` as given, before any toggle narrows them.
   */
  method YieldPage(pools: seq<Pool>, t: Toggles, chainsToFilter: seq<string>, query: Query,
                   capitalize: string -> string)
    returns (rows: seq<Row>, stepName: Option<string>, page: Page)
    ensures rows == ToRows(Filter(pools, (p: Pool) => Shown(t, chainsToFilter, query.minTvl, query.maxTvl, p)))
    ensures Truthy(query.chain) ==> stepName == SelectedTab(pools)
    ensures !Truthy(query.chain) && Truthy(query.project) ==>
      stepName == Some(if rows != [] then rows[0].project else capitalize(query.project.value))
    ensures !Truthy(query.chain) && !Truthy(query.project) ==> stepName == None
    ensures page.breadcrumb == if stepName.Some? then stepName.value else "All chains"
    ensures page.view == if rows != [] then Table(rows) else EmptyPanel(EmptyMessage(stepName))
  {
    var selectedTab := SelectedTab(pools);

    var toggled := ApplyToggles(pools, t);
    rows := PoolsData(toggled, chainsToFilter, query.minTvl, query.maxTvl);
    PoolsDataIsOneFilter(pools, t, chainsToFilter, query.minTvl, query.maxTvl);

    stepName := None;
    if Truthy(query.chain) {
      stepName := selectedTab;
    } else if Truthy(query.project) {
      stepName := if rows != [] then Some(rows[0].project) else Some(capitalize(query.project.value));
    }

    var name := if stepName.Some? then stepName.value else "All chains";
    var view := if rows != [] then Table(rows) else EmptyPanel(EmptyMessage(stepName));
    page := Page(name, view);
  }
}
