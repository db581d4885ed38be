/** The leaderboard page's view of the processed data (app.js): the
    manufacturer grid, the top-models list, the market summary, the compare
    list, and the quarter and trend labels. */
module Selectors {
  import opened Wrappers
  import opened Text
  import opened Stats
  import opened Sorting
  import opened Board

  // ---- The selected list ----

  /** `sampleData.quarterData[key]?.manufacturers || sampleData.manufacturers`:
      a stored list is used even when empty, since an empty array is truthy
      (app.js:572-573, 588-589, 622-623). */
  function Selected(board: BoardData, key: string): (r: seq<MakeStat>)
    ensures key in board.quarterData ==> r == board.quarterData[key]
    ensures key !in board.quarterData ==> r == board.manufacturers
  {
    if key in board.quarterData then board.quarterData[key] else board.manufacturers
  }

  // ---- `getFilteredManufacturers` ----

  /** The numeric fields the grid can be sorted by. */
  datatype SortField = MiiScore | Auctions | AvgPrice | TrendField

  /** The grid's controls (app.js:491-499). */
  datatype GridState = GridState(selectedQuarter: string, minAuctions: int, searchTerm: string,
                                 sortBy: SortField, descending: bool)

  /** The value a field sorts by. */
  function FieldOf(f: SortField, m: MakeStat): real
  {
    match f
    case MiiScore => m.miiScore
    case Auctions => m.auctions as real
    case AvgPrice => m.avgPrice.GetOr(0) as real
    case TrendField => m.trend
  }

  /** `(a[sortBy] - b[sortBy]) * multiplier` as a sort key. */
  function GridKey(st: GridState): MakeStat -> Key
  {
    (m: MakeStat) => if st.descending then Num(-FieldOf(st.sortBy, m)) else Num(FieldOf(st.sortBy, m))
  }

  predicate AuctionsOk(min: int, m: MakeStat)
  {
    m.auctions >= min
  }

  /** Case-insensitive substring search on the make. */
  predicate MakeMatches(term: string, m: MakeStat)
  {
    Contains(Lower(m.make), Lower(term))
  }

  function GridMatching(all: seq<MakeStat>, st: GridState): seq<MakeStat>
  {
    Filter(Filter(all, (m: MakeStat) => AuctionsOk(st.minAuctions, m)),
           (m: MakeStat) => MakeMatches(st.searchTerm, m))
  }

  /** `getFilteredManufacturers` (app.js:570-582). */
  function FilteredMakes(board: BoardData, st: GridState): (r: seq<MakeStat>)
    ensures |r| <= |Selected(board, st.selectedQuarter)|
  {
    SortStable(GridMatching(Selected(board, st.selectedQuarter), st), GridKey(st))
  }

  /** The grid lists exactly the selected entries with enough auctions whose
      lower-cased make contains the lower-cased search term, each as often
      as it is listed. */
  lemma FilteredMakesMembers(board: BoardData, st: GridState)
    ensures var all := Selected(board, st.selectedQuarter);
            var r := FilteredMakes(board, st);
            && (forall i :: 0 <= i < |r| ==>
                  r[i] in all && r[i].auctions >= st.minAuctions && MakeMatches(st.searchTerm, r[i]))
            && (forall m :: m in all && m.auctions >= st.minAuctions && MakeMatches(st.searchTerm, m) ==> m in r)
            && multiset(r) == multiset(GridMatching(all, st))
  {
    var matching := GridMatching(Selected(board, st.selectedQuarter), st);
    var r := FilteredMakes(board, st);
    GridMatchingMembers(Selected(board, st.selectedQuarter), st);
    assert forall x :: x in r <==> x in matching by {
      assert forall x :: x in r <==> x in multiset(r);
      assert forall x :: x in matching <==> x in multiset(matching);
    }
  }

  /** The two filters keep exactly the entries that pass both. */
  lemma GridMatchingMembers(all: seq<MakeStat>, st: GridState)
    ensures forall m :: m in GridMatching(all, st) <==>
              m in all && m.auctions >= st.minAuctions && MakeMatches(st.searchTerm, m)
  {
    var byAuctions := Filter(all, (m: MakeStat) => AuctionsOk(st.minAuctions, m));
    var matching := GridMatching(all, st);
    forall m | m in all && m.auctions >= st.minAuctions && MakeMatches(st.searchTerm, m) ensures m in matching {
      var k :| 0 <= k < |all| && all[k] == m;
      assert m in byAuctions;
      var j :| 0 <= j < |byAuctions| && byAuctions[j] == m;
    }
    forall m | m in matching ensures m in all && m.auctions >= st.minAuctions && MakeMatches(st.searchTerm, m) {
      var j :| 0 <= j < |matching| && matching[j] == m;
      assert m in byAuctions;
      var k :| 0 <= k < |byAuctions| && byAuctions[k] == m;
    }
  }

  /** The grid is ordered by the chosen field in the chosen direction, and
      entries the comparator ties keep their listed order. */
  lemma FilteredMakesOrder(board: BoardData, st: GridState, k: Key)
    ensures var r := FilteredMakes(board, st);
            && (st.descending ==>
                  forall i, j :: 0 <= i < j < |r| ==> FieldOf(st.sortBy, r[i]) >= FieldOf(st.sortBy, r[j]))
            && (!st.descending ==>
                  forall i, j :: 0 <= i < j < |r| ==> FieldOf(st.sortBy, r[i]) <= FieldOf(st.sortBy, r[j]))
            && Tied(r, GridKey(st), k) == Tied(GridMatching(Selected(board, st.selectedQuarter), st), GridKey(st), k)
  {
    var matching := GridMatching(Selected(board, st.selectedQuarter), st);
    var r := FilteredMakes(board, st);
    SortStableSorted(matching, GridKey(st));
    SortStableKeepsTies(matching, GridKey(st), k);
    forall i, j | 0 <= i < j < |r|
      ensures st.descending ==> FieldOf(st.sortBy, r[i]) >= FieldOf(st.sortBy, r[j])
      ensures !st.descending ==> FieldOf(st.sortBy, r[i]) <= FieldOf(st.sortBy, r[j])
    {
      GridKeyOrder(st, r[i], r[j]);
    }
  }

  /** Key order is field order in the chosen direction. */
  lemma GridKeyOrder(st: GridState, a: MakeStat, b: MakeStat)
    requires KeyLe(GridKey(st)(a), GridKey(st)(b))
    ensures st.descending ==> FieldOf(st.sortBy, a) >= FieldOf(st.sortBy, b)
    ensures !st.descending ==> FieldOf(st.sortBy, a) <= FieldOf(st.sortBy, b)
  {
  }

  // ---- `getTopModels` ----

  /** A model tagged with its manufacturer (app.js:604-608). */
  datatype TopModel = TopModel(model: ModelStat, make: string, makeLogo: string)

  /** The minimum that applies: none for the YTD view (app.js:592). */
  function EffectiveMin(key: string, minAuctions: int): int
  {
    if key == YtdKeyName then 0 else minAuctions
  }

  function TagModel(mk: MakeStat): ModelStat -> TopModel
  {
    (m: ModelStat) => TopModel(m, mk.make, mk.logo)
  }

  /** One manufacturer's models with enough auctions, tagged. */
  function Tagged(mk: MakeStat, min: int): seq<TopModel>
  {
    MapSeq(Filter(mk.models, (m: ModelStat) => m.auctions >= min), TagModel(mk))
  }

  /** Every manufacturer's qualifying models, manufacturer by manufacturer
      (app.js:596-611). A manufacturer without models contributes nothing. */
  function Candidates(makes: seq<MakeStat>, min: int): seq<TopModel>
  {
    if |makes| == 0 then []
    else Candidates(makes[..|makes| - 1], min) + Tagged(makes[|makes| - 1], min)
  }

  lemma TaggedMembers(mk: MakeStat, min: int)
    ensures forall x :: x in Tagged(mk, min) ==> x.model in mk.models && x.model.auctions >= min && x.make == mk.make
    ensures forall m :: m in mk.models && m.auctions >= min ==> TopModel(m, mk.make, mk.logo) in Tagged(mk, min)
  {
    var kept := Filter(mk.models, (m: ModelStat) => m.auctions >= min);
    forall x | x in Tagged(mk, min)
      ensures x.model in mk.models && x.model.auctions >= min && x.make == mk.make
    {
      var i :| 0 <= i < |kept| && Tagged(mk, min)[i] == x;
    }
    forall m | m in mk.models && m.auctions >= min ensures TopModel(m, mk.make, mk.logo) in Tagged(mk, min) {
      var j :| 0 <= j < |mk.models| && mk.models[j] == m;
      var i :| 0 <= i < |kept| && kept[i] == m;
      assert Tagged(mk, min)[i] == TopModel(m, mk.make, mk.logo);
    }
  }

  /** The candidates are exactly the qualifying models of the listed
      manufacturers. */
  lemma {:induction false} CandidatesMembers(makes: seq<MakeStat>, min: int)
    ensures forall x :: x in Candidates(makes, min) ==>
              x.model.auctions >= min && exists mk :: mk in makes && x.make == mk.make && x.model in mk.models
    ensures forall mk, m :: mk in makes && m in mk.models && m.auctions >= min ==>
              TopModel(m, mk.make, mk.logo) in Candidates(makes, min)
  {
    if |makes| > 0 {
      var init, last := makes[..|makes| - 1], makes[|makes| - 1];
      CandidatesMembers(init, min);
      TaggedMembers(last, min);
      assert makes == init + [last];
      forall x | x in Candidates(makes, min)
        ensures x.model.auctions >= min && exists mk :: mk in makes && x.make == mk.make && x.model in mk.models
      {
        if x !in Candidates(init, min) {
          assert x in Tagged(last, min);
        }
      }
    }
  }

  function ByModelScore(t: TopModel): Key
  {
    Num(-t.model.mii)
  }

  /** `getTopModels(minAuctions, limit)` (app.js:584-618). */
  function TopModels(board: BoardData, key: string, minAuctions: int, limit: nat): (r: seq<TopModel>)
    ensures |r| <= limit
  {
    Take(SortStable(Candidates(Selected(board, key), EffectiveMin(key, minAuctions)), ByModelScore), limit)
  }

  /** The top list is the best-scoring prefix of the sorted candidates,
      as long as the limit allows. */
  lemma TopModelsPrefix(board: BoardData, key: string, minAuctions: int, limit: nat)
    ensures var cands := Candidates(Selected(board, key), EffectiveMin(key, minAuctions));
            var r := TopModels(board, key, minAuctions, limit);
            && |r| == (if limit < |cands| then limit else |cands|)
            && (forall i, j :: 0 <= i < j < |r| ==> r[i].model.mii >= r[j].model.mii)
  {
    var cands := Candidates(Selected(board, key), EffectiveMin(key, minAuctions));
    var sorted := SortStable(cands, ByModelScore);
    var r := TopModels(board, key, minAuctions, limit);
    SortStableSorted(cands, ByModelScore);
    forall i, j | 0 <= i < j < |r| ensures r[i].model.mii >= r[j].model.mii {
      assert KeyLe(ByModelScore(sorted[i]), ByModelScore(sorted[j]));
    }
  }

  lemma TopModelsFromCandidates(board: BoardData, key: string, minAuctions: int, limit: nat)
    ensures var r := TopModels(board, key, minAuctions, limit);
            forall i :: 0 <= i < |r| ==> r[i] in Candidates(Selected(board, key), EffectiveMin(key, minAuctions))
  {
    var cands := Candidates(Selected(board, key), EffectiveMin(key, minAuctions));
    var sorted := SortStable(cands, ByModelScore);
    var r := TopModels(board, key, minAuctions, limit);
    forall i | 0 <= i < |r| ensures r[i] in cands {
      assert r[i] == sorted[i];
      assert sorted[i] in multiset(cands);
    }
  }

  /** Every listed model is a qualifying model of a selected manufacturer,
      with at least the effective minimum of auctions. */
  lemma TopModelsQualify(board: BoardData, key: string, minAuctions: int, limit: nat)
    ensures var min := EffectiveMin(key, minAuctions);
            var r := TopModels(board, key, minAuctions, limit);
            forall i :: 0 <= i < |r| ==>
              && r[i].model.auctions >= min
              && exists mk :: mk in Selected(board, key) && r[i].make == mk.make && r[i].model in mk.models
  {
    TopModelsFromCandidates(board, key, minAuctions, limit);
    CandidatesMembers(Selected(board, key), EffectiveMin(key, minAuctions));
  }

  /** No qualifying model left out scores higher than one listed. */
  lemma TopModelsBest(board: BoardData, key: string, minAuctions: int, limit: nat)
    ensures var cands := Candidates(Selected(board, key), EffectiveMin(key, minAuctions));
            var r := TopModels(board, key, minAuctions, limit);
            forall i, y :: 0 <= i < |r| && y in cands && y.model.mii > r[i].model.mii ==> y in r
  {
    var cands := Candidates(Selected(board, key), EffectiveMin(key, minAuctions));
    var sorted := SortStable(cands, ByModelScore);
    var r := TopModels(board, key, minAuctions, limit);
    SortStableSorted(cands, ByModelScore);
    forall i, y | 0 <= i < |r| && y in cands && y.model.mii > r[i].model.mii ensures y in r {
      assert y in multiset(sorted);
      var k :| 0 <= k < |sorted| && sorted[k] == y;
      if k < |r| {
        assert r[k] == y;
      }
    }
  }

  /** Models with equal scores are listed in candidate order: those of
      score `k` on the list are the first ones of score `k` among the
      candidates. Nothing is listed more often than it is a candidate. */
  lemma TopModelsTies(board: BoardData, key: string, minAuctions: int, limit: nat, k: Key)
    ensures var cands := Candidates(Selected(board, key), EffectiveMin(key, minAuctions));
            var r := TopModels(board, key, minAuctions, limit);
            && multiset(r) <= multiset(cands)
            && Tied(r, ByModelScore, k) <= Tied(cands, ByModelScore, k)
  {
    var cands := Candidates(Selected(board, key), EffectiveMin(key, minAuctions));
    var sorted := SortStable(cands, ByModelScore);
    var r := TopModels(board, key, minAuctions, limit);
    var rest := sorted[|r|..];
    assert sorted == r + rest;
    TiedAppend(r, rest, ByModelScore, k);
    SortStableKeepsTies(cands, ByModelScore, k);
    assert multiset(sorted) == multiset(r) + multiset(rest);
  }

  // ---- `calculateMarketStats` ----

  /** The market summary; `avgPrice` is `None` when some price is `NaN`. */
  datatype MarketStats = MarketStats(totalManufacturers: nat, totalAuctions: nat, avgMii: real,
                                     avgPrice: Option<real>)

  function PriceOfMake(m: MakeStat): Option<real>
  {
    match m.avgPrice
    case Some(p) => Some(p as real)
    case None => None
  }

  function AuctionsFilter(all: seq<MakeStat>, min: int): seq<MakeStat>
  {
    Filter(all, (m: MakeStat) => AuctionsOk(min, m))
  }

  /** `calculateMarketStats` over the selected list (app.js:620-641). */
  function MarketStatsOf(all: seq<MakeStat>, min: int): (s: MarketStats)
    ensures s.totalManufacturers == |AuctionsFilter(all, min)|
    ensures s.totalManufacturers == 0 ==> s == MarketStats(0, 0, 0.0, Some(0.0))
  {
    var f := AuctionsFilter(all, min);
    if |f| == 0 then MarketStats(0, 0, 0.0, Some(0.0))
    else
      MarketStats(|f|, SumBy(f, MakeAuctions),
                  Mean(MapSeq(f, (m: MakeStat) => m.miiScore)), OptMean(MapSeq(f, PriceOfMake)))
  }

  /** The manufacturers' average prices, with 0 standing in for a missing
      one. */
  function KnownPrices(f: seq<MakeStat>): (ps: seq<real>)
    ensures |ps| == |f|
  {
    seq(|f|, i requires 0 <= i < |f| => match f[i].avgPrice case Some(p) => p as real case None => 0.0)
  }

  /** The market's average price is `NaN` exactly when some filtered
      manufacturer's price is, and otherwise the mean of their prices. */
  lemma MarketStatsPrice(all: seq<MakeStat>, min: int)
    ensures var f := AuctionsFilter(all, min);
            var s := MarketStatsOf(all, min);
            && (|f| > 0 ==> (s.avgPrice.Some? <==> forall i :: 0 <= i < |f| ==> f[i].avgPrice.Some?))
            && (|f| > 0 && s.avgPrice.Some? ==>
                  s.avgPrice.value == Mean(KnownPrices(f))
                  && Min(KnownPrices(f)) <= s.avgPrice.value <= Max(KnownPrices(f)))
  {
    var f := AuctionsFilter(all, min);
    var opts := MapSeq(f, PriceOfMake);
    if |f| > 0 && forall i :: 0 <= i < |f| ==> f[i].avgPrice.Some? {
      assert forall i :: 0 <= i < |opts| ==> opts[i].Some?;
      assert seq(|opts|, i requires 0 <= i < |opts| => opts[i].value) == KnownPrices(f);
      MeanBetweenMinAndMax(KnownPrices(f));
    } else if |f| > 0 {
      var i :| 0 <= i < |f| && f[i].avgPrice.None?;
      assert opts[i].None?;
    }
  }

  lemma {:induction false} SumByAtLeast(s: seq<MakeStat>, min: int)
    requires forall i :: 0 <= i < |s| ==> s[i].auctions >= min
    ensures SumBy(s, MakeAuctions) >= min * |s|
  {
    if |s| > 0 {
      var init := s[..|s| - 1];
      SumByAtLeast(init, min);
      assert min * |s| == min * |init| + min;
    }
  }

  /** The summary counts the manufacturers that pass the auction filter and
      totals their auctions, which is at least the minimum per manufacturer;
      its mean score is the mean of their scores, so it lies between the
      lowest and the highest, and its
      average price is their mean price, or `NaN` when one is missing. */
  lemma MarketStatsFacts(all: seq<MakeStat>, min: int)
    ensures var f := AuctionsFilter(all, min);
            var s := MarketStatsOf(all, min);
            && s.totalAuctions == SumBy(f, MakeAuctions)
            && s.totalAuctions >= min * s.totalManufacturers
            && (forall m :: m in all && m.auctions >= min ==> m in f)
            && (s.totalManufacturers > 0 ==>
                  var scores := MapSeq(f, (m: MakeStat) => m.miiScore);
                  s.avgMii == Mean(scores) && Min(scores) <= s.avgMii <= Max(scores))
            && (s.totalManufacturers > 0 ==>
                  (s.avgPrice.Some? <==> forall i :: 0 <= i < |f| ==> f[i].avgPrice.Some?))
            && (s.totalManufacturers > 0 && s.avgPrice.Some? ==> s.avgPrice.value == Mean(KnownPrices(f)))
            && (s.totalManufacturers == 0 ==> s.avgPrice == Some(0.0))
  {
    MarketStatsPrice(all, min);
    var f := AuctionsFilter(all, min);
    SumByAtLeast(f, min);
    if |f| > 0 {
      MeanBetweenMinAndMax(MapSeq(f, (m: MakeStat) => m.miiScore));
    } else {
      assert SumBy(f, MakeAuctions) == 0;
    }
  }

  // ---- `toggleCompare` ----

  const CompareCapacity: nat := 4

  predicate Distinct(s: seq<string>)
  {
    forall i, j :: 0 <= i < j < |s| ==> s[i] != s[j]
  }

  /** The invariant of the compare list. */
  predicate CompareOk(list: seq<string>)
  {
    |list| <= CompareCapacity && Distinct(list)
  }

  /** `list.filter(m => m !== make)`. */
  function Without(list: seq<string>, make: string): (r: seq<string>)
    ensures forall x :: x in r <==> x in list && x != make
    ensures |r| <= |list|
    ensures Distinct(list) ==> Distinct(r)
  {
    if |list| == 0 then []
    else
      var init, last := list[..|list| - 1], list[|list| - 1];
      assert forall x :: x in list <==> x in init || x == last;
      assert Distinct(list) ==> last !in init;
      Without(init, make) + (if last == make then [] else [last])
  }

  /** `toggleCompare(make)` (app.js:1186-1194). */
  function ToggleCompare(list: seq<string>, make: string): (r: seq<string>)
    ensures make in list ==> make !in r
    ensures make !in list ==> (make in r <==> |list| < CompareCapacity)
  {
    if make in list then Without(list, make)
    else if |list| < CompareCapacity then list + [make]
    else list
  }

  /** Toggling keeps the list within capacity and free of duplicates. */
  lemma ToggleKeepsInvariant(list: seq<string>, make: string)
    requires CompareOk(list)
    ensures CompareOk(ToggleCompare(list, make))
  {
  }

  /** In a duplicate-free list, removing the one occurrence of `make` keeps
      the rest in order. */
  lemma {:induction false} WithoutRemovesOne(list: seq<string>, make: string, i: nat)
    requires Distinct(list)
    requires i < |list| && list[i] == make
    ensures Without(list, make) == list[..i] + list[i + 1..]
  {
    var init, last := list[..|list| - 1], list[|list| - 1];
    if i == |list| - 1 {
      WithoutAbsent(init, make);
    } else {
      WithoutRemovesOne(init, make, i);
      assert last != make;
      assert list[i + 1..] == init[i + 1..] + [last];
    }
  }

  lemma {:induction false} WithoutAbsent(list: seq<string>, make: string)
    requires make !in list
    ensures Without(list, make) == list
  {
    if |list| > 0 {
      var init, last := list[..|list| - 1], list[|list| - 1];
      assert list == init + [last];
      assert make !in init && last != make;
      WithoutAbsent(init, make);
    }
  }

  /** Toggling a listed make removes exactly that make; toggling an absent
      one appends it when there is room and otherwise changes nothing. */
  lemma ToggleEffect(list: seq<string>, make: string)
    requires CompareOk(list)
    ensures make in list ==>
              exists i :: 0 <= i < |list| && list[i] == make
                          && ToggleCompare(list, make) == list[..i] + list[i + 1..]
    ensures make !in list && |list| < CompareCapacity ==> ToggleCompare(list, make) == list + [make]
    ensures make !in list && |list| >= CompareCapacity ==> ToggleCompare(list, make) == list
  {
    if make in list {
      var i :| 0 <= i < |list| && list[i] == make;
      WithoutRemovesOne(list, make, i);
    }
  }

  /** Adding a make and toggling it again restores the list. */
  lemma ToggleTwice(list: seq<string>, make: string)
    requires CompareOk(list)
    requires make !in list && |list| < CompareCapacity
    ensures ToggleCompare(ToggleCompare(list, make), make) == list
  {
    var added := list + [make];
    WithoutRemovesOne(added, make, |list|);
    assert added[..|list|] == list;
  }

  // ---- Labels ----

  /** `formatQuarterDisplay` (app.js:508-514): a quarter-to-date key drops
      its first "-QTD" and gains " (QTD)". */
  function FormatQuarterDisplay(q: string): (r: string)
    ensures !EndsWith(q, QtdSuffix) ==> r == q
    ensures EndsWith(q, QtdSuffix) ==> EndsWith(r, QtdLabel)
  {
    if EndsWith(q, QtdSuffix) then
      var r := ReplaceFirst(q, QtdSuffix, "") + QtdLabel;
      assert r[|r| - |QtdLabel|..] == QtdLabel;
      r
    else q
  }

  const QtdLabel := " (QTD)"

  /** The first "-QTD" in `x + "-QTD"` is the appended one when `x` holds
      none: no occurrence can straddle the join, since the suffix's "-"
      appears only at its start. */
  lemma QtdSuffixFirst(x: string)
    requires !Contains(x, QtdSuffix)
    ensures IndexOf(x + QtdSuffix, QtdSuffix) == Some(|x|)
  {
    var s := x + QtdSuffix;
    ContainsMeansOccurs(x, QtdSuffix);
    assert OccursAt(s, QtdSuffix, |x|) by {
      assert s[|x|..|x| + 4] == QtdSuffix;
    }
    forall j | 0 <= j < |x| ensures !OccursAt(s, QtdSuffix, j) {
      if j + 4 <= |x| {
        assert s[j..j + 4] == x[j..j + 4];
        assert !OccursAt(x, QtdSuffix, j);
      } else {
        assert s[j..j + 4][|x| - j] == s[|x|] == '-';
      }
    }
  }

  /** The label of a quarter-to-date key, and the round trip with the
      quarter list: the marked latest quarter is shown as "<quarter> (QTD)". */
  lemma FormatQtd(x: string)
    requires !Contains(x, QtdSuffix)
    ensures FormatQuarterDisplay(x + QtdSuffix) == x + QtdLabel
  {
    QtdSuffixFirst(x);
    var s := x + QtdSuffix;
    assert s[|s| - 4..] == QtdSuffix;
    assert s[..|x|] == x;
    var rep := ReplaceFirst(s, QtdSuffix, "");
    assert rep == s[..|x|] + "" + s[|x| + 4..];
  }

  /** The arrow of `getTrendIndicator` (app.js:531-543). */
  datatype Direction = Up | Down | Flat

  datatype Indicator = Indicator(direction: Direction, magnitude: real)

  /** `getTrendIndicator(value)`: flat below half a percent either way,
      otherwise up or down by sign; the shown magnitude is `|value|` to one
      decimal. */
  function TrendIndicator(v: real): (ind: Indicator)
    ensures ind.direction == Flat <==> -0.5 < v < 0.5
    ensures ind.direction == Up <==> v >= 0.5
    ensures ind.direction == Down <==> v <= -0.5
    ensures ind.magnitude >= 0.0
    ensures -0.05 <= ind.magnitude - (if v < 0.0 then -v else v) <= 0.05
  {
    var mag := ToFixed1(if v < 0.0 then -v else v);
    if (if v < 0.0 then -v else v) < 0.5 then Indicator(Flat, mag)
    else Indicator(if v > 0.0 then Up else Down, mag)
  }

  /** Negating a trend mirrors its arrow and keeps its magnitude. */
  lemma TrendIndicatorMirror(v: real)
    ensures TrendIndicator(-v).magnitude == TrendIndicator(v).magnitude
    ensures TrendIndicator(v).direction == Up <==> TrendIndicator(-v).direction == Down
    ensures TrendIndicator(v).direction == Flat <==> TrendIndicator(-v).direction == Flat
  {
    assert (if -v < 0.0 then v else -v) == (if v < 0.0 then -v else v);
  }
}
