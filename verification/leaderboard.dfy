/** `processCSVData` of the leaderboard page (app.js:115-422): per-quarter
    and year-to-date manufacturer statistics with confidence tiers,
    per-model aggregates, trends against earlier quarters and a short score
    history. */
module Board {
  import opened Wrappers
  import opened Text
  import opened Stats
  import opened Sorting
  import opened Records

  // ---- Confidence tiers ----

  datatype Confidence = Low | Medium | MediumHigh | High

  function Rank(c: Confidence): nat
  {
    match c
    case Low => 0
    case Medium => 1
    case MediumHigh => 2
    case High => 3
  }

  /** Auction-count thresholds of one view: three for a manufacturer, two
      for a model. */
  datatype Tiers = Tiers(high: nat, mediumHigh: nat, medium: nat, modelHigh: nat, modelMedium: nat)

  /** app.js:212-215 and 252. */
  const QuarterTiers := Tiers(50, 20, 10, 5, 3)

  /** app.js:327-330 and 366. */
  const YtdTiers := Tiers(150, 60, 30, 10, 5)

  function MakeConfidence(t: Tiers, n: nat): Confidence
  {
    if n >= t.high then High
    else if n >= t.mediumHigh then MediumHigh
    else if n >= t.medium then Medium
    else Low
  }

  function ModelConfidence(t: Tiers, n: nat): Confidence
  {
    if n >= t.modelHigh then High
    else if n >= t.modelMedium then Medium
    else Low
  }

  // ---- Statistics records ----

  datatype ModelStat = ModelStat(model: string, auctions: nat, mii: real, avgPrice: Option<real>,
                                 trend: real, confidence: Confidence)

  datatype MakeStat = MakeStat(make: string, logo: string, auctions: nat, avgPrice: Option<int>,
                               miiScore: real, confidence: Confidence, trend: real,
                               sellThrough: nat, history: seq<real>, models: seq<ModelStat>)

  /** The placeholder sell-through of app.js:218 and 332. */
  const SellThrough: nat := 75

  /** `MANUFACTURER_LOGOS[name] || '🚗'` (app.js:5-29, 257). */
  function LogoOf(name: string): string
  {
    match name
    case "Porsche" => "\U{1F535}"
    case "BMW" => "\U{26AA}"
    case "Mercedes-Benz" => "\U{26AA}"
    case "Ferrari" => "\U{1F534}"
    case "Nissan" => "\U{1F7E1}"
    case "Toyota" => "\U{1F518}"
    case "Audi" => "\U{26AB}"
    case "Chevrolet" => "\U{1F7E0}"
    case "Ford" => "\U{1F537}"
    case "Lamborghini" => "\U{1F7E1}"
    case "Jaguar" => "\U{1F7E2}"
    case "Land Rover" => "\U{1F7E4}"
    case "Lexus" => "\U{1F518}"
    case "Honda" => "\U{1F534}"
    case "Acura" => "\U{26AB}"
    case "Mazda" => "\U{1F534}"
    case "Subaru" => "\U{1F535}"
    case "Volkswagen" => "\U{1F535}"
    case "Mercedes-AMG" => "\U{26AA}"
    case "Dodge" => "\U{1F534}"
    case "Plymouth" => "\U{1F7E0}"
    case "Pontiac" => "\U{1F535}"
    case "Oldsmobile" => "\U{26AA}"
    case _ => "\U{1F697}"
  }

  // ---- Models ----

  /** One model's aggregate (app.js:246-253): the mean score and mean price
      of its rows. */
  function ModelOf(t: Tiers, name: string, rows: seq<Row>): ModelStat
  {
    ModelStat(name, |rows|, Mean(Scores(rows)), OptMean(Prices(rows)), 0.0,
              ModelConfidence(t, |rows|))
  }

  /** The aggregate of model `n` among `rows`. */
  function ModelFn(t: Tiers, rows: seq<Row>): string -> ModelStat
  {
    (n: string) => ModelOf(t, n, RowsWith(rows, ModelColumn, n))
  }

  function ModelAuctions(m: ModelStat): nat
  {
    m.auctions
  }

  function ModelName(m: ModelStat): string
  {
    m.model
  }

  function ByMii(m: ModelStat): Key
  {
    Num(-m.mii)
  }

  /** The models of a manufacturer, highest mean score first (app.js:265). */
  function Models(t: Tiers, rows: seq<Row>): seq<ModelStat>
  {
    SortStable(MapSeq(FirstSeen(rows, ModelColumn), ModelFn(t, rows)), ByMii)
  }

  // ---- Manufacturers ----

  /** One manufacturer's entry (app.js:255-266) from its rows, its raw trend
      and its history. */
  function MakeOf(t: Tiers, name: string, rows: seq<Row>, trend: real, history: seq<real>): MakeStat
  {
    var price := OptMean(Prices(rows));
    MakeStat(name, LogoOf(name), |rows|,
             if price.Some? then Some(RoundHalfUp(price.value)) else None,
             ToFixed1(Mean(Scores(rows))), MakeConfidence(t, |rows|), ToFixed1(trend),
             SellThrough, history, Models(t, rows))
  }

  function ByScore(m: MakeStat): Key
  {
    Num(-m.miiScore)
  }

  function MakeAuctions(m: MakeStat): nat
  {
    m.auctions
  }

  function MakeName(m: MakeStat): string
  {
    m.make
  }

  /** `manufacturers.find(m => m.make === name)`. */
  function Find(makes: seq<MakeStat>, name: string): (r: Option<MakeStat>)
    ensures r.Some? ==> r.value in makes && r.value.make == name
    ensures r.None? <==> forall i :: 0 <= i < |makes| ==> makes[i].make != name
  {
    if |makes| == 0 then None
    else if makes[0].make == name then Some(makes[0])
    else
      var r := Find(makes[1..], name);
      assert forall i :: 1 <= i < |makes| ==> makes[i] == makes[1..][i - 1];
      r
  }

  /** `sampleData.quarterData[key]?.manufacturers.find(m => m.make === name)`. */
  function Lookup(qd: map<string, seq<MakeStat>>, key: string, name: string): Option<MakeStat>
  {
    if key in qd then Find(qd[key], name) else None
  }

  // ---- Trend ----

  /** Percent change from `prev` to `curr` as app.js:191 and 315 write it.
      JavaScript's division by zero gives an infinity or `NaN`, which is
      `None` here. */
  function TrendAsWritten(prev: real, curr: real): (r: Option<real>)
    ensures r.None? <==> prev == 0.0
  {
    if prev == 0.0 then None else Some((curr - prev) / prev * 100.0)
  }

  /** The trend with the zero guard of the terminal page (dashboard.js:192):
      0 when the earlier score is 0. */
  function Trend(prev: real, curr: real): (r: real)
    ensures prev == 0.0 ==> r == 0.0
    ensures prev != 0.0 ==> prev + prev * r / 100.0 == curr
    ensures prev > 0.0 ==> (r > 0.0 <==> curr > prev) && (r < 0.0 <==> curr < prev)
  {
    if prev == 0.0 then 0.0 else (curr - prev) / prev * 100.0
  }

  // ---- Quarters ----

  /** The key a quarter's data is stored under: the latest quarter is marked
      quarter-to-date (app.js:143-147, 159). */
  function QuarterKey(qs: seq<string>, i: nat): string
    requires i < |qs|
  {
    if i == |qs| - 1 then qs[i] + QtdSuffix else qs[i]
  }

  const QtdSuffix := "-QTD"

  /** The trend of app.js:184-194 with the zero guard of `Trend`: against
      the manufacturer's rounded score in the previous quarter, 0 in the
      first quarter or when it was absent. Where that score is 0, app.js
      divides by zero and stores an infinity or `NaN`, while this stores 0;
      `QuarterTrendAsWritten` is the unguarded version and
      `QuarterTrendAgrees` relates the two. */
  function QuarterTrend(qs: seq<string>, qd: map<string, seq<MakeStat>>, i: nat, name: string,
                        avg: real): real
    requires i < |qs|
  {
    if i == 0 then 0.0
    else
      match Lookup(qd, qs[i - 1], name)
      case Some(p) => Trend(p.miiScore, avg)
      case None => 0.0
  }

  /** The same trend as app.js:184-194 writes it, with no zero guard. */
  function QuarterTrendAsWritten(qs: seq<string>, qd: map<string, seq<MakeStat>>, i: nat, name: string,
                                 avg: real): Option<real>
    requires i < |qs|
  {
    if i == 0 then Some(0.0)
    else
      match Lookup(qd, qs[i - 1], name)
      case Some(p) => TrendAsWritten(p.miiScore, avg)
      case None => Some(0.0)
  }

  /** The history loop of app.js:197-209 from quarter `i` to `qIndex`: the
      rounded score of every stored quarter the manufacturer appears in, and
      the unrounded mean for the current quarter, which is not stored yet. */
  function HistoryFrom(qs: seq<string>, qd: map<string, seq<MakeStat>>, name: string, avg: real,
                       i: nat, qIndex: nat): seq<real>
    requires qIndex < |qs|
    decreases qIndex + 1 - i
  {
    if i > qIndex then []
    else
      var key := QuarterKey(qs, i);
      var here :=
        if key in qd then
          (match Find(qd[key], name) case Some(m) => [m.miiScore] case None => [])
        else if i == qIndex then [avg]
        else [];
      here + HistoryFrom(qs, qd, name, avg, i + 1, qIndex)
  }

  function History(qs: seq<string>, qd: map<string, seq<MakeStat>>, name: string, avg: real,
                   qIndex: nat): seq<real>
    requires qIndex < |qs|
  {
    HistoryFrom(qs, qd, name, avg, if qIndex >= 2 then qIndex - 2 else 0, qIndex)
  }

  /** The entry of one manufacturer in quarter `qIndex`. */
  function QuarterMakeOf(rows: seq<Row>, qs: seq<string>, qIndex: nat,
                         qd: map<string, seq<MakeStat>>, name: string): MakeStat
    requires qIndex < |qs|
  {
    var own := RowsWith(RowsWith(rows, QuarterColumn, qs[qIndex]), ManufacturerColumn, name);
    var avg := Mean(Scores(own));
    MakeOf(QuarterTiers, name, own, QuarterTrend(qs, qd, qIndex, name, avg),
           History(qs, qd, name, avg, qIndex))
  }

  /** The manufacturers of quarter `qIndex` in order of first appearance. */
  function QuarterMakers(rows: seq<Row>, qs: seq<string>, qIndex: nat): seq<string>
    requires qIndex < |qs|
  {
    FirstSeen(RowsWith(rows, QuarterColumn, qs[qIndex]), ManufacturerColumn)
  }

  function QuarterFn(rows: seq<Row>, qs: seq<string>, qIndex: nat, qd: map<string, seq<MakeStat>>)
    : string -> MakeStat
    requires qIndex < |qs|
  {
    (n: string) => QuarterMakeOf(rows, qs, qIndex, qd, n)
  }

  /** The entries of quarter `qIndex`, highest rounded score first
      (app.js:158-271); `qd` holds the quarters before it. */
  function QuarterMakes(rows: seq<Row>, qs: seq<string>, qIndex: nat,
                        qd: map<string, seq<MakeStat>>): seq<MakeStat>
    requires qIndex < |qs|
  {
    SortStable(MapSeq(QuarterMakers(rows, qs, qIndex), QuarterFn(rows, qs, qIndex, qd)), ByScore)
  }

  /** The quarters loop of app.js:158-272 as a fold: after `k` steps the
      first `k` quarters are stored under their keys, each computed by
      `step` from the quarters stored before it. */
  function Stored<T>(qs: seq<string>, k: nat, step: (nat, map<string, T>) -> T): map<string, T>
    requires k <= |qs|
  {
    if k == 0 then map[]
    else
      var qd := Stored(qs, k - 1, step);
      qd[QuarterKey(qs, k - 1) := step(k - 1, qd)]
  }

  function QuarterStep(rows: seq<Row>, qs: seq<string>): (nat, map<string, seq<MakeStat>>) -> seq<MakeStat>
  {
    (i: nat, qd: map<string, seq<MakeStat>>) => if i < |qs| then QuarterMakes(rows, qs, i, qd) else []
  }

  /** `sampleData.quarterData` after the first `k` quarters were processed. */
  function Build(rows: seq<Row>, qs: seq<string>, k: nat): map<string, seq<MakeStat>>
    requires k <= |qs|
  {
    Stored(qs, k, QuarterStep(rows, qs))
  }

  // ---- Year to date ----

  /** The quarters of the current year (app.js:277). */
  function YtdQuarters(qs: seq<string>, year: string): seq<string>
  {
    Filter(qs, (q: string) => StartsWith(q, year))
  }

  /** The key a YTD quarter is looked up under (app.js:309, 321). */
  function YtdKey(qs: seq<string>, q: string): string
    requires |qs| > 0
  {
    if q == qs[|qs| - 1] then q + QtdSuffix else q
  }

  /** The YTD trend of app.js:304-317 with the zero guard of `Trend`:
      first against last YTD quarter, when the manufacturer appears in both.
      Where its first rounded score is 0, app.js divides by zero, while
      this stores 0. */
  function YtdTrend(qs: seq<string>, ytd: seq<string>, qd: map<string, seq<MakeStat>>,
                    name: string): real
    requires |qs| > 0
  {
    if |ytd| > 1 then
      match (Lookup(qd, ytd[0], name), Lookup(qd, YtdKey(qs, ytd[|ytd| - 1]), name))
      case (Some(f), Some(l)) => Trend(f.miiScore, l.miiScore)
      case _ => 0.0
    else 0.0
  }

  /** The rounded score of `name` in YTD quarter `i`, looked up under the
      quarter-to-date key when `i` is the last YTD quarter and the latest
      quarter overall (app.js:321-322). */
  function YtdEntry(qs: seq<string>, ytd: seq<string>, qd: map<string, seq<MakeStat>>,
                    name: string, i: nat): Option<real>
    requires |qs| > 0 && i < |ytd|
  {
    var key := if i == |ytd| - 1 && ytd[i] == qs[|qs| - 1] then ytd[i] + QtdSuffix else ytd[i];
    match Lookup(qd, key, name)
    case Some(m) => Some(m.miiScore)
    case None => None
  }

  /** The values of the entries that are present, in order
      (`.filter(v => v !== null)`). */
  function Present(s: seq<Option<real>>): (r: seq<real>)
    ensures |r| <= |s|
    ensures forall x :: x in r <==> Some(x) in s
  {
    if |s| == 0 then []
    else
      var init := s[..|s| - 1];
      assert s == init + [s[|s| - 1]];
      Present(init) + (if s[|s| - 1].Some? then [s[|s| - 1].value] else [])
  }

  /** `filter` keeps the present values in order: it distributes over
      concatenation. */
  lemma {:induction false} PresentAppend(a: seq<Option<real>>, b: seq<Option<real>>)
    ensures Present(a + b) == Present(a) + Present(b)
  {
    if |b| == 0 {
      assert a + b == a;
    } else {
      var b' := b[..|b| - 1];
      var last := b[|b| - 1];
      var tail := if last.Some? then [last.value] else [];
      assert (a + b)[..|a + b| - 1] == a + b';
      assert (a + b)[|a + b| - 1] == last;
      PresentAppend(a, b');
      assert Present(a + b) == Present(a + b') + tail;
      assert Present(b) == Present(b') + tail;
    }
  }

  /** A present value is kept, an absent one dropped. */
  lemma PresentSingle(o: Option<real>)
    ensures Present([o]) == if o.Some? then [o.value] else []
  {
  }

  /** The YTD history of app.js:320-324: the rounded score of every YTD
      quarter the manufacturer appears in. */
  function YtdHistory(qs: seq<string>, ytd: seq<string>, qd: map<string, seq<MakeStat>>,
                      name: string): seq<real>
    requires |qs| > 0
  {
    Present(seq(|ytd|, i requires 0 <= i < |ytd| => YtdEntry(qs, ytd, qd, name, i)))
  }

  /** The rounded scores stored for `name` in the YTD quarters from the
      `i`-th on, one per quarter it appears in, in quarter order. */
  function YtdScores(qs: seq<string>, ytd: seq<string>, qd: map<string, seq<MakeStat>>,
                     name: string, i: nat): (r: seq<real>)
    requires |qs| > 0
    ensures |r| <= if i <= |ytd| then |ytd| - i else 0
    decreases |ytd| - i
  {
    if i >= |ytd| then []
    else
      (match YtdEntry(qs, ytd, qd, name, i) case Some(x) => [x] case None => [])
      + YtdScores(qs, ytd, qd, name, i + 1)
  }

  lemma {:induction false} YtdScoresFrom(qs: seq<string>, ytd: seq<string>, qd: map<string, seq<MakeStat>>,
                                         name: string, i: nat)
    requires |qs| > 0 && i <= |ytd|
    ensures var h := seq(|ytd|, k requires 0 <= k < |ytd| => YtdEntry(qs, ytd, qd, name, k));
            Present(h[i..]) == YtdScores(qs, ytd, qd, name, i)
    decreases |ytd| - i
  {
    var h := seq(|ytd|, k requires 0 <= k < |ytd| => YtdEntry(qs, ytd, qd, name, k));
    if i < |ytd| {
      YtdScoresFrom(qs, ytd, qd, name, i + 1);
      assert h[i..] == [h[i]] + h[i + 1..];
      PresentAppend([h[i]], h[i + 1..]);
      PresentSingle(h[i]);
    } else {
      assert h[i..] == [];
    }
  }

  function YtdMakeOf(qs: seq<string>, ytd: seq<string>, ytdRows: seq<Row>,
                     qd: map<string, seq<MakeStat>>, name: string): MakeStat
    requires |qs| > 0
  {
    var own := RowsWith(ytdRows, ManufacturerColumn, name);
    MakeOf(YtdTiers, name, own, YtdTrend(qs, ytd, qd, name), YtdHistory(qs, ytd, qd, name))
  }

  function YtdFn(qs: seq<string>, ytd: seq<string>, ytdRows: seq<Row>, qd: map<string, seq<MakeStat>>)
    : string -> MakeStat
    requires |qs| > 0
  {
    (n: string) => YtdMakeOf(qs, ytd, ytdRows, qd, n)
  }

  /** The YTD entries (app.js:283-385), highest rounded score first. */
  function YtdMakes(rows: seq<Row>, qs: seq<string>, ytd: seq<string>,
                    qd: map<string, seq<MakeStat>>): seq<MakeStat>
    requires |qs| > 0
  {
    var ytdRows := QuarterOrder(rows, ytd);
    SortStable(MapSeq(FirstSeen(ytdRows, ManufacturerColumn), YtdFn(qs, ytd, ytdRows, qd)), ByScore)
  }

  // ---- The whole pass ----

  datatype BoardData = BoardData(quarters: seq<string>, quarterData: map<string, seq<MakeStat>>,
                                 manufacturers: seq<MakeStat>)

  datatype LoadError = NoValidData

  const YtdKeyName := "YTD"

  /** The quarter list shown in the selector: the sorted quarters with the
      last marked quarter-to-date (app.js:147). */
  function DisplayQuarters(qs: seq<string>): (d: seq<string>)
    requires |qs| > 0
    ensures |d| == |qs|
    ensures forall i :: 0 <= i < |qs| - 1 ==> d[i] == qs[i]
    ensures d[|qs| - 1] == qs[|qs| - 1] + QtdSuffix
  {
    qs[..|qs| - 1] + [qs[|qs| - 1] + QtdSuffix]
  }

  /** The default manufacturer list when there is no YTD data: the latest
      quarter's (app.js:394-403). */
  function DefaultMakes(qd: map<string, seq<MakeStat>>, display: seq<string>): seq<MakeStat>
  {
    if YtdKeyName in qd then qd[YtdKeyName]
    else if |display| > 0 && display[|display| - 1] in qd then qd[display[|display| - 1]]
    else []
  }

  lemma QuartersOfNonEmpty(rows: seq<Row>)
    requires |rows| > 0
    ensures |Quarters(rows)| > 0
  {
    assert rows[0].quarter in Quarters(rows);
  }

  /** `processCSVData` with the current year passed in. */
  function ProcessCsv(parse: string -> Option<real>, year: string, raws: seq<RawRow>)
    : (r: Result<BoardData, LoadError>)
    ensures r.Failure? <==> Validate(Leaderboard, parse, raws) == []
  {
    var rows := Validate(Leaderboard, parse, raws);
    if |rows| == 0 then Failure(NoValidData)
    else
      QuartersOfNonEmpty(rows);
      var qs := Quarters(rows);
      var qd := Build(rows, qs, |qs|);
      var ytd := YtdQuarters(qs, year);
      var quarters := (if |ytd| > 0 then [YtdKeyName] else []) + DisplayQuarters(qs);
      if |ytd| > 0 then
        var ytdMakes := YtdMakes(rows, qs, ytd, qd);
        Success(BoardData(quarters, qd[YtdKeyName := ytdMakes], ytdMakes))
      else
        Success(BoardData(quarters, qd, DefaultMakes(qd, DisplayQuarters(qs))))
  }

  // ---- Properties ----

  /** More auctions never lower a confidence tier, in either view and at
      either level. */
  lemma ConfidenceMonotone(t: Tiers, a: nat, b: nat)
    requires a <= b
    ensures Rank(MakeConfidence(t, a)) <= Rank(MakeConfidence(t, b))
    ensures Rank(ModelConfidence(t, a)) <= Rank(ModelConfidence(t, b))
  {
  }

  /** The per-model aggregation partitions a manufacturer's rows
      (app.js:230-253): the models' auction counts add up to the number of
      rows. */
  lemma ModelsSum(t: Tiers, rows: seq<Row>)
    ensures SumBy(Models(t, rows), ModelAuctions) == |rows|
  {
    GroupedSortedSum(rows, ModelColumn, ModelFn(t, rows), ModelAuctions, ByMii);
  }

  /** The models are listed highest mean score first (app.js:265). */
  lemma ModelsSorted(t: Tiers, rows: seq<Row>)
    ensures forall i, j :: 0 <= i < j < |Models(t, rows)| ==> Models(t, rows)[i].mii >= Models(t, rows)[j].mii
  {
    SortStableSorted(MapSeq(FirstSeen(rows, ModelColumn), ModelFn(t, rows)), ByMii);
  }

  /** Each model entry aggregates exactly the rows of its model: their
      count, their mean score and the tier of that count. */
  lemma ModelsEntries(t: Tiers, rows: seq<Row>)
    ensures forall m :: m in Models(t, rows) ==>
              && m.model in FirstSeen(rows, ModelColumn)
              && m.auctions == |RowsWith(rows, ModelColumn, m.model)|
              && m.mii == Mean(Scores(RowsWith(rows, ModelColumn, m.model)))
              && m.avgPrice == OptMean(Prices(RowsWith(rows, ModelColumn, m.model)))
              && m.confidence == ModelConfidence(t, m.auctions)
  {
    GroupedSortedEntries(rows, ModelColumn, ModelFn(t, rows), ModelName, ByMii);
  }

  /** Every model present in the rows has its entry. */
  lemma ModelsCover(t: Tiers, rows: seq<Row>)
    ensures forall i :: 0 <= i < |rows| ==> ModelFn(t, rows)(rows[i].model) in Models(t, rows)
  {
    GroupedSortedCovers(rows, ModelColumn, ModelFn(t, rows), ByMii);
    forall i | 0 <= i < |rows| ensures rows[i].model in FirstSeen(rows, ModelColumn) {
      assert Cell(ModelColumn, rows[i]) == rows[i].model;
    }
  }

  /** No model entry is empty. */
  lemma ModelsNonEmpty(t: Tiers, rows: seq<Row>)
    ensures forall m :: m in Models(t, rows) ==> m.auctions > 0
  {
    ModelsEntries(t, rows);
    forall m | m in Models(t, rows) ensures m.auctions > 0 {
      var k :| 0 <= k < |rows| && Cell(ModelColumn, rows[k]) == m.model;
      RowsWithHas(rows, ModelColumn, k);
    }
  }

  /** A manufacturer entry's model counts add up to its auction count, and
      its rounded figures are within rounding of the exact means. */
  lemma MakeOfModels(t: Tiers, name: string, rows: seq<Row>, trend: real, history: seq<real>)
    ensures var m := MakeOf(t, name, rows, trend, history);
            && SumBy(m.models, ModelAuctions) == m.auctions == |rows|
            && -0.05 <= m.miiScore - Mean(Scores(rows)) <= 0.05
            && -0.05 <= m.trend - trend <= 0.05
            && (m.avgPrice.Some? <==> OptMean(Prices(rows)).Some?)
            && (m.avgPrice.Some? ==>
                  OptMean(Prices(rows)).value - 0.5 < m.avgPrice.value as real <= OptMean(Prices(rows)).value + 0.5)
  {
    ModelsSum(t, rows);
  }

  /** Quarter keys are distinct: the latest quarter's `-QTD` key cannot
      collide with an earlier quarter, which sorts before it. */
  lemma QuarterKeysDistinct(qs: seq<string>)
    requires StrictlyIncreasing(qs)
    ensures forall i, j :: 0 <= i < |qs| && 0 <= j < |qs| && i != j ==> QuarterKey(qs, i) != QuarterKey(qs, j)
  {
    StrictlyIncreasingIsDistinct(qs);
    forall i, j | 0 <= i < |qs| && 0 <= j < |qs| && i < j
      ensures QuarterKey(qs, i) != QuarterKey(qs, j) && QuarterKey(qs, j) != QuarterKey(qs, i)
    {
      if j == |qs| - 1 {
        StrLtExtension(qs[j], QtdSuffix);
        StrLtTransitive(qs[i], qs[j], qs[j] + QtdSuffix);
        StrLtIrreflexive(qs[i]);
      }
    }
  }

  /** After `k` steps no later quarter's key is stored. */
  lemma {:induction false} LaterKeysAbsent<T>(qs: seq<string>, k: nat, i: nat, step: (nat, map<string, T>) -> T)
    requires StrictlyIncreasing(qs)
    requires k <= i < |qs|
    ensures QuarterKey(qs, i) !in Stored(qs, k, step)
  {
    if k > 0 {
      LaterKeysAbsent(qs, k - 1, i, step);
      QuarterKeysDistinct(qs);
      assert QuarterKey(qs, k - 1) != QuarterKey(qs, i);
    }
  }

  /** Quarter `i` is stored under its key, computed from the quarters
      before it, and later quarters do not overwrite it. */
  lemma {:induction false} StoredAt<T>(qs: seq<string>, k: nat, i: nat, step: (nat, map<string, T>) -> T)
    requires StrictlyIncreasing(qs)
    requires i < k <= |qs|
    ensures QuarterKey(qs, i) in Stored(qs, k, step)
    ensures Stored(qs, k, step)[QuarterKey(qs, i)] == step(i, Stored(qs, i, step))
  {
    if i < k - 1 {
      StoredAt(qs, k - 1, i, step);
      QuarterKeysDistinct(qs);
      assert QuarterKey(qs, k - 1) != QuarterKey(qs, i);
    }
  }

  /** The stored list of quarter `i` is its entries computed against the
      quarters before it, and its own key was not stored then. */
  lemma BuildAt(rows: seq<Row>, qs: seq<string>, i: nat)
    requires StrictlyIncreasing(qs)
    requires i < |qs|
    ensures QuarterKey(qs, i) in Build(rows, qs, |qs|)
    ensures Build(rows, qs, |qs|)[QuarterKey(qs, i)] == QuarterMakes(rows, qs, i, Build(rows, qs, i))
    ensures QuarterKey(qs, i) !in Build(rows, qs, i)
  {
    StoredAt(qs, |qs|, i, QuarterStep(rows, qs));
    LaterKeysAbsent(qs, i, i, QuarterStep(rows, qs));
  }

  /** The rounded scores stored for `name` in quarters `i` up to but not
      including `j`, in quarter order, skipping the quarters it is absent
      from. */
  function StoredScores(qs: seq<string>, qd: map<string, seq<MakeStat>>, name: string, i: nat, j: nat)
    : (r: seq<real>)
    requires j <= |qs|
    ensures |r| <= if i <= j then j - i else 0
    decreases j - i
  {
    if i >= j then []
    else
      (match Lookup(qd, qs[i], name) case Some(m) => [m.miiScore] case None => [])
      + StoredScores(qs, qd, name, i + 1, j)
  }

  /** The history from quarter `i` on is the stored scores of the earlier
      quarters followed by the current quarter's unrounded mean. */
  lemma {:induction false} HistoryFromShape(qs: seq<string>, qd: map<string, seq<MakeStat>>, name: string,
                                            avg: real, i: nat, qIndex: nat)
    requires qIndex < |qs| && i <= qIndex
    requires QuarterKey(qs, qIndex) !in qd
    ensures HistoryFrom(qs, qd, name, avg, i, qIndex) == StoredScores(qs, qd, name, i, qIndex) + [avg]
    decreases qIndex - i
  {
    if i < qIndex {
      HistoryFromShape(qs, qd, name, avg, i + 1, qIndex);
      assert QuarterKey(qs, i) == qs[i];
    }
  }

  /** The history is the rounded scores stored for the manufacturer in the
      (up to) two quarters before, where it appears, followed by the current
      quarter's unrounded mean, which is not stored yet (app.js:197-209). */
  lemma HistoryShape(qs: seq<string>, qd: map<string, seq<MakeStat>>, name: string, avg: real,
                     qIndex: nat)
    requires qIndex < |qs|
    requires QuarterKey(qs, qIndex) !in qd
    ensures var lo := if qIndex >= 2 then qIndex - 2 else 0;
            var h := History(qs, qd, name, avg, qIndex);
            && h == StoredScores(qs, qd, name, lo, qIndex) + [avg]
            && 1 <= |h| <= 3
  {
    HistoryFromShape(qs, qd, name, avg, if qIndex >= 2 then qIndex - 2 else 0, qIndex);
  }

  /** A manufacturer's entry for quarter `qIndex`: it aggregates the
      manufacturer's rows in that quarter; its trend is 0 in the first
      quarter and when the manufacturer is absent from the previous one, and
      otherwise the rounded guarded change against its previous rounded
      score; its history is its stored scores of the two quarters before,
      then the current mean (app.js:172-266). */
  lemma QuarterMakeOfFacts(rows: seq<Row>, qs: seq<string>, qIndex: nat,
                           qd: map<string, seq<MakeStat>>, name: string)
    requires qIndex < |qs|
    requires QuarterKey(qs, qIndex) !in qd
    ensures var own := RowsWith(RowsWith(rows, QuarterColumn, qs[qIndex]), ManufacturerColumn, name);
            var m := QuarterMakeOf(rows, qs, qIndex, qd, name);
            && m.make == name
            && m.auctions == |own|
            && m.confidence == MakeConfidence(QuarterTiers, |own|)
            && SumBy(m.models, ModelAuctions) == m.auctions
            && m.history == StoredScores(qs, qd, name, if qIndex >= 2 then qIndex - 2 else 0, qIndex)
                            + [Mean(Scores(own))]
            && (qIndex == 0 ==> m.trend == 0.0)
            && (qIndex > 0 && Lookup(qd, qs[qIndex - 1], name).None? ==> m.trend == 0.0)
            && (qIndex > 0 && Lookup(qd, qs[qIndex - 1], name).Some? ==>
                  m.trend == ToFixed1(Trend(Lookup(qd, qs[qIndex - 1], name).value.miiScore, Mean(Scores(own)))))
  {
    QuarterMakeOfCounts(rows, qs, qIndex, qd, name);
    QuarterMakeOfHistory(rows, qs, qIndex, qd, name);
    QuarterMakeOfTrend(rows, qs, qIndex, qd, name);
  }

  lemma QuarterMakeOfCounts(rows: seq<Row>, qs: seq<string>, qIndex: nat,
                            qd: map<string, seq<MakeStat>>, name: string)
    requires qIndex < |qs|
    ensures var own := RowsWith(RowsWith(rows, QuarterColumn, qs[qIndex]), ManufacturerColumn, name);
            var m := QuarterMakeOf(rows, qs, qIndex, qd, name);
            && m.make == name
            && m.auctions == |own|
            && m.confidence == MakeConfidence(QuarterTiers, |own|)
            && SumBy(m.models, ModelAuctions) == m.auctions
  {
    var own := RowsWith(RowsWith(rows, QuarterColumn, qs[qIndex]), ManufacturerColumn, name);
    var avg := Mean(Scores(own));
    MakeOfModels(QuarterTiers, name, own, QuarterTrend(qs, qd, qIndex, name, avg),
                 History(qs, qd, name, avg, qIndex));
  }

  lemma QuarterMakeOfHistory(rows: seq<Row>, qs: seq<string>, qIndex: nat,
                             qd: map<string, seq<MakeStat>>, name: string)
    requires qIndex < |qs|
    requires QuarterKey(qs, qIndex) !in qd
    ensures var own := RowsWith(RowsWith(rows, QuarterColumn, qs[qIndex]), ManufacturerColumn, name);
            var m := QuarterMakeOf(rows, qs, qIndex, qd, name);
            && m.history == StoredScores(qs, qd, name, if qIndex >= 2 then qIndex - 2 else 0, qIndex)
                            + [Mean(Scores(own))]
            && 1 <= |m.history| <= 3
  {
    var own := RowsWith(RowsWith(rows, QuarterColumn, qs[qIndex]), ManufacturerColumn, name);
    HistoryShape(qs, qd, name, Mean(Scores(own)), qIndex);
  }

  lemma QuarterMakeOfTrend(rows: seq<Row>, qs: seq<string>, qIndex: nat,
                           qd: map<string, seq<MakeStat>>, name: string)
    requires qIndex < |qs|
    ensures var own := RowsWith(RowsWith(rows, QuarterColumn, qs[qIndex]), ManufacturerColumn, name);
            var m := QuarterMakeOf(rows, qs, qIndex, qd, name);
            && (qIndex == 0 ==> m.trend == 0.0)
            && (qIndex > 0 && Lookup(qd, qs[qIndex - 1], name).None? ==> m.trend == 0.0)
            && (qIndex > 0 && Lookup(qd, qs[qIndex - 1], name).Some? ==>
                  m.trend == ToFixed1(Trend(Lookup(qd, qs[qIndex - 1], name).value.miiScore, Mean(Scores(own)))))
  {
    var own := RowsWith(RowsWith(rows, QuarterColumn, qs[qIndex]), ManufacturerColumn, name);
    var m := QuarterMakeOf(rows, qs, qIndex, qd, name);
    var t := QuarterTrend(qs, qd, qIndex, name, Mean(Scores(own)));
    assert m.trend == ToFixed1(t);
    if qIndex == 0 || Lookup(qd, qs[qIndex - 1], name).None? {
      assert t == 0.0;
    }
  }

  /** A quarter's list partitions its rows by manufacturer: the auction
      counts add up to the quarter's rows (app.js:163-171). */
  lemma QuarterMakesSum(rows: seq<Row>, qs: seq<string>, qIndex: nat, qd: map<string, seq<MakeStat>>)
    requires qIndex < |qs|
    ensures SumBy(QuarterMakes(rows, qs, qIndex, qd), MakeAuctions) == |RowsWith(rows, QuarterColumn, qs[qIndex])|
  {
    GroupedSortedSum(RowsWith(rows, QuarterColumn, qs[qIndex]), ManufacturerColumn,
                     QuarterFn(rows, qs, qIndex, qd), MakeAuctions, ByScore);
  }

  /** A quarter's list is sorted by rounded score, highest first
      (app.js:270). */
  lemma QuarterMakesSorted(rows: seq<Row>, qs: seq<string>, qIndex: nat, qd: map<string, seq<MakeStat>>)
    requires qIndex < |qs|
    ensures var ms := QuarterMakes(rows, qs, qIndex, qd);
            forall i, j :: 0 <= i < j < |ms| ==> ms[i].miiScore >= ms[j].miiScore
  {
    SortStableSorted(MapSeq(QuarterMakers(rows, qs, qIndex), QuarterFn(rows, qs, qIndex, qd)), ByScore);
  }

  /** A quarter's list has exactly one entry per manufacturer present,
      each the manufacturer's own. */
  lemma QuarterMakesEntries(rows: seq<Row>, qs: seq<string>, qIndex: nat, qd: map<string, seq<MakeStat>>)
    requires qIndex < |qs|
    ensures var ms := QuarterMakes(rows, qs, qIndex, qd);
            && |ms| == |QuarterMakers(rows, qs, qIndex)|
            && (forall i, j :: 0 <= i < j < |ms| ==> ms[i].make != ms[j].make)
            && (forall m :: m in ms ==>
                  m.make in QuarterMakers(rows, qs, qIndex) && m == QuarterMakeOf(rows, qs, qIndex, qd, m.make))
            && (forall n :: n in QuarterMakers(rows, qs, qIndex) ==> QuarterMakeOf(rows, qs, qIndex, qd, n) in ms)
  {
    var group := RowsWith(rows, QuarterColumn, qs[qIndex]);
    GroupedSortedEntries(group, ManufacturerColumn, QuarterFn(rows, qs, qIndex, qd), MakeName, ByScore);
    GroupedSortedCovers(group, ManufacturerColumn, QuarterFn(rows, qs, qIndex, qd), ByScore);
    GroupedSortedDistinct(group, ManufacturerColumn, QuarterFn(rows, qs, qIndex, qd), MakeName, ByScore);
  }

  /** The YTD list partitions the rows of the YTD quarters by manufacturer
      (app.js:283-291). */
  lemma YtdMakesSum(rows: seq<Row>, qs: seq<string>, ytd: seq<string>, qd: map<string, seq<MakeStat>>)
    requires |qs| > 0
    ensures SumBy(YtdMakes(rows, qs, ytd, qd), MakeAuctions) == |QuarterOrder(rows, ytd)|
  {
    var ytdRows := QuarterOrder(rows, ytd);
    GroupedSortedSum(ytdRows, ManufacturerColumn, YtdFn(qs, ytd, ytdRows, qd), MakeAuctions, ByScore);
  }

  /** The YTD list is sorted by rounded score, highest first (app.js:382). */
  lemma YtdMakesSorted(rows: seq<Row>, qs: seq<string>, ytd: seq<string>, qd: map<string, seq<MakeStat>>)
    requires |qs| > 0
    ensures var ms := YtdMakes(rows, qs, ytd, qd);
            forall i, j :: 0 <= i < j < |ms| ==> ms[i].miiScore >= ms[j].miiScore
  {
    var ytdRows := QuarterOrder(rows, ytd);
    SortStableSorted(MapSeq(FirstSeen(ytdRows, ManufacturerColumn), YtdFn(qs, ytd, ytdRows, qd)), ByScore);
  }

  /** The YTD entry of `name` aggregates its rows over the YTD quarters
      with the YTD tiers; its trend compares its rounded scores in the first
      and last YTD quarters when there are two or more and it appears in
      both, and is 0 otherwise; its history is its rounded score in each
      YTD quarter it appears in, one per such quarter, in quarter order
      (app.js:293-379). */
  lemma YtdMakeOfFacts(qs: seq<string>, ytd: seq<string>, ytdRows: seq<Row>,
                       qd: map<string, seq<MakeStat>>, name: string)
    requires |qs| > 0
    ensures var own := RowsWith(ytdRows, ManufacturerColumn, name);
            var m := YtdMakeOf(qs, ytd, ytdRows, qd, name);
            && m.make == name
            && m.auctions == |own|
            && m.confidence == MakeConfidence(YtdTiers, |own|)
            && m.miiScore == ToFixed1(Mean(Scores(own)))
            && (OptMean(Prices(own)).None? ==> m.avgPrice.None?)
            && (OptMean(Prices(own)).Some? ==> m.avgPrice == Some(RoundHalfUp(OptMean(Prices(own)).value)))
            && (|ytd| > 1 && Lookup(qd, ytd[0], name).Some? && Lookup(qd, YtdKey(qs, ytd[|ytd| - 1]), name).Some? ==>
                  m.trend == ToFixed1(Trend(Lookup(qd, ytd[0], name).value.miiScore,
                                            Lookup(qd, YtdKey(qs, ytd[|ytd| - 1]), name).value.miiScore)))
            && (|ytd| <= 1 || Lookup(qd, ytd[0], name).None? || Lookup(qd, YtdKey(qs, ytd[|ytd| - 1]), name).None? ==>
                  m.trend == 0.0)
            && m.history == YtdScores(qs, ytd, qd, name, 0)
            && |m.history| <= |ytd|
            && (forall x :: x in m.history <==> exists i :: 0 <= i < |ytd| && YtdEntry(qs, ytd, qd, name, i) == Some(x))
  {
    YtdMakeOfCounts(qs, ytd, ytdRows, qd, name);
    YtdMakeOfTrend(qs, ytd, ytdRows, qd, name);
    YtdMakeOfHistory(qs, ytd, ytdRows, qd, name);
  }

  lemma YtdMakeOfCounts(qs: seq<string>, ytd: seq<string>, ytdRows: seq<Row>,
                        qd: map<string, seq<MakeStat>>, name: string)
    requires |qs| > 0
    ensures var own := RowsWith(ytdRows, ManufacturerColumn, name);
            var m := YtdMakeOf(qs, ytd, ytdRows, qd, name);
            && m.make == name
            && m.auctions == |own|
            && m.confidence == MakeConfidence(YtdTiers, |own|)
            && m.miiScore == ToFixed1(Mean(Scores(own)))
            && (OptMean(Prices(own)).None? ==> m.avgPrice.None?)
            && (OptMean(Prices(own)).Some? ==> m.avgPrice == Some(RoundHalfUp(OptMean(Prices(own)).value)))
  {
  }

  lemma YtdMakeOfTrend(qs: seq<string>, ytd: seq<string>, ytdRows: seq<Row>,
                       qd: map<string, seq<MakeStat>>, name: string)
    requires |qs| > 0
    ensures var m := YtdMakeOf(qs, ytd, ytdRows, qd, name);
            && (|ytd| > 1 && Lookup(qd, ytd[0], name).Some? && Lookup(qd, YtdKey(qs, ytd[|ytd| - 1]), name).Some? ==>
                  m.trend == ToFixed1(Trend(Lookup(qd, ytd[0], name).value.miiScore,
                                            Lookup(qd, YtdKey(qs, ytd[|ytd| - 1]), name).value.miiScore)))
            && (|ytd| <= 1 || Lookup(qd, ytd[0], name).None? || Lookup(qd, YtdKey(qs, ytd[|ytd| - 1]), name).None? ==>
                  m.trend == 0.0)
  {
    if |ytd| <= 1 || Lookup(qd, ytd[0], name).None? || Lookup(qd, YtdKey(qs, ytd[|ytd| - 1]), name).None? {
      assert YtdTrend(qs, ytd, qd, name) == 0.0;
    }
  }

  lemma YtdMakeOfHistory(qs: seq<string>, ytd: seq<string>, ytdRows: seq<Row>,
                         qd: map<string, seq<MakeStat>>, name: string)
    requires |qs| > 0
    ensures var m := YtdMakeOf(qs, ytd, ytdRows, qd, name);
            && m.history == YtdScores(qs, ytd, qd, name, 0)
            && |m.history| <= |ytd|
            && (forall x :: x in m.history <==> exists i :: 0 <= i < |ytd| && YtdEntry(qs, ytd, qd, name, i) == Some(x))
  {
    assert YtdMakeOf(qs, ytd, ytdRows, qd, name).history == YtdHistory(qs, ytd, qd, name);
    YtdHistoryScores(qs, ytd, qd, name);
    YtdHistoryMembers(qs, ytd, qd, name);
  }

  /** The YTD history is the reference sequence of stored YTD scores. */
  lemma YtdHistoryScores(qs: seq<string>, ytd: seq<string>, qd: map<string, seq<MakeStat>>, name: string)
    requires |qs| > 0
    ensures YtdHistory(qs, ytd, qd, name) == YtdScores(qs, ytd, qd, name, 0)
  {
    var h := seq(|ytd|, i requires 0 <= i < |ytd| => YtdEntry(qs, ytd, qd, name, i));
    YtdScoresFrom(qs, ytd, qd, name, 0);
    assert h[0..] == h;
  }

  /** A value is in the YTD history exactly when it is the stored score of
      some YTD quarter. */
  lemma YtdHistoryMembers(qs: seq<string>, ytd: seq<string>, qd: map<string, seq<MakeStat>>, name: string)
    requires |qs| > 0
    ensures forall x :: x in YtdHistory(qs, ytd, qd, name) <==>
              exists i :: 0 <= i < |ytd| && YtdEntry(qs, ytd, qd, name, i) == Some(x)
  {
    var h := seq(|ytd|, i requires 0 <= i < |ytd| => YtdEntry(qs, ytd, qd, name, i));
    assert YtdHistory(qs, ytd, qd, name) == Present(h);
    forall x ensures x in Present(h) <==> exists i :: 0 <= i < |ytd| && YtdEntry(qs, ytd, qd, name, i) == Some(x) {
      if Some(x) in h {
        var i :| 0 <= i < |h| && h[i] == Some(x);
      }
      if exists i :: 0 <= i < |ytd| && YtdEntry(qs, ytd, qd, name, i) == Some(x) {
        var i :| 0 <= i < |ytd| && YtdEntry(qs, ytd, qd, name, i) == Some(x);
        assert h[i] == Some(x);
      }
    }
  }

  /** The YTD list has exactly one entry per manufacturer with rows in the
      YTD quarters, each the one `YtdMakeOfFacts` describes. */
  lemma YtdMakesEntries(rows: seq<Row>, qs: seq<string>, ytd: seq<string>, qd: map<string, seq<MakeStat>>)
    requires |qs| > 0
    ensures var ytdRows := QuarterOrder(rows, ytd);
            var ms := YtdMakes(rows, qs, ytd, qd);
            && |ms| == |FirstSeen(ytdRows, ManufacturerColumn)|
            && (forall i, j :: 0 <= i < j < |ms| ==> ms[i].make != ms[j].make)
            && (forall m :: m in ms ==>
                  m.make in FirstSeen(ytdRows, ManufacturerColumn) && m == YtdMakeOf(qs, ytd, ytdRows, qd, m.make))
            && (forall n :: n in FirstSeen(ytdRows, ManufacturerColumn) ==> YtdMakeOf(qs, ytd, ytdRows, qd, n) in ms)
  {
    var ytdRows := QuarterOrder(rows, ytd);
    GroupedSortedEntries(ytdRows, ManufacturerColumn, YtdFn(qs, ytd, ytdRows, qd), MakeName, ByScore);
    GroupedSortedCovers(ytdRows, ManufacturerColumn, YtdFn(qs, ytd, ytdRows, qd), ByScore);
    GroupedSortedDistinct(ytdRows, ManufacturerColumn, YtdFn(qs, ytd, ytdRows, qd), MakeName, ByScore);
  }

  /** The guarded trend agrees with the unguarded one wherever the latter
      is finite; the two differ only when the earlier rounded score is 0. */
  lemma TrendAgrees(prev: real, curr: real)
    ensures prev != 0.0 ==> TrendAsWritten(prev, curr) == Some(Trend(prev, curr))
    ensures prev == 0.0 ==> TrendAsWritten(prev, curr).None? && Trend(prev, curr) == 0.0
  {
  }

  lemma QuarterTrendAgrees(qs: seq<string>, qd: map<string, seq<MakeStat>>, i: nat, name: string, avg: real)
    requires i < |qs|
    ensures QuarterTrendAsWritten(qs, qd, i, name, avg).None?
            <==> i > 0 && Lookup(qd, qs[i - 1], name).Some? && Lookup(qd, qs[i - 1], name).value.miiScore == 0.0
    ensures QuarterTrendAsWritten(qs, qd, i, name, avg).Some? ==>
              QuarterTrendAsWritten(qs, qd, i, name, avg).value == QuarterTrend(qs, qd, i, name, avg)
  {
  }

  /** A manufacturer whose scores in one quarter average below 0.05 (a
      score of "0" passes validation) is stored with a rounded score of 0,
      and its trend in the next quarter divides by that 0. */
  lemma TrendDivisionByZero()
    ensures var prev := MakeOf(QuarterTiers, "Fiat", [Row("2024-Q1", "Fiat", "500", 0.0, Some(9000.0))],
                               0.0, [0.0]);
            var qd := map["2024-Q1" := [prev]];
            && prev.miiScore == 0.0
            && QuarterTrendAsWritten(["2024-Q1", "2024-Q2"], qd, 1, "Fiat", 62.5).None?
            && QuarterTrend(["2024-Q1", "2024-Q2"], qd, 1, "Fiat", 62.5) == 0.0
  {
    var row := Row("2024-Q1", "Fiat", "500", 0.0, Some(9000.0));
    assert Scores([row]) == [0.0];
    assert Sum([0.0]) == 0.0 by {
      assert [0.0][..0] == [];
    }
  }

  /** With at least one valid row the pass succeeds, and the quarter list
      is the sorted distinct quarters with only the last one marked
      quarter-to-date, preceded by "YTD" when the current year has data
      (app.js:139-147, 388). */
  lemma ProcessCsvQuarters(parse: string -> Option<real>, year: string, raws: seq<RawRow>)
    requires Validate(Leaderboard, parse, raws) != []
    ensures var qs := Quarters(Validate(Leaderboard, parse, raws));
            var r := ProcessCsv(parse, year, raws);
            && |qs| > 0
            && r.Success?
            && r.value.quarters
               == (if |YtdQuarters(qs, year)| > 0 then [YtdKeyName] else []) + DisplayQuarters(qs)
  {
    var rows := Validate(Leaderboard, parse, raws);
    QuartersOfNonEmpty(rows);
    var qs := Quarters(rows);
  }

  /** Every quarter's list is stored under its key, computed against the
      quarters before it, unless a quarter named "YTD" is overwritten by the
      YTD list (app.js:270, 381). */
  lemma ProcessCsvStored(parse: string -> Option<real>, year: string, raws: seq<RawRow>, i: nat)
    requires Validate(Leaderboard, parse, raws) != []
    requires i < |Quarters(Validate(Leaderboard, parse, raws))|
    ensures var rows := Validate(Leaderboard, parse, raws);
            var qs := Quarters(rows);
            var r := ProcessCsv(parse, year, raws);
            (QuarterKey(qs, i) != YtdKeyName || |YtdQuarters(qs, year)| == 0) ==>
              && r.Success?
              && QuarterKey(qs, i) in r.value.quarterData
              && r.value.quarterData[QuarterKey(qs, i)] == QuarterMakes(rows, qs, i, Build(rows, qs, i))
  {
    var rows := Validate(Leaderboard, parse, raws);
    BuildAt(rows, Quarters(rows), i);
  }

  /** The default list is the YTD list when the current year has data, and
      otherwise the latest quarter's, unless a quarter is named "YTD"
      (app.js:394-403). */
  lemma ProcessCsvDefault(parse: string -> Option<real>, year: string, raws: seq<RawRow>)
    requires Validate(Leaderboard, parse, raws) != []
    ensures var rows := Validate(Leaderboard, parse, raws);
            var qs := Quarters(rows);
            var r := ProcessCsv(parse, year, raws);
            && |qs| > 0
            && r.Success?
            && (|YtdQuarters(qs, year)| > 0 ==>
                  r.value.manufacturers == YtdMakes(rows, qs, YtdQuarters(qs, year), Build(rows, qs, |qs|)))
            && (|YtdQuarters(qs, year)| == 0 && YtdKeyName !in r.value.quarterData ==>
                  r.value.manufacturers == r.value.quarterData[qs[|qs| - 1] + QtdSuffix])
  {
    var rows := Validate(Leaderboard, parse, raws);
    QuartersOfNonEmpty(rows);
    var qs := Quarters(rows);
    BuildAt(rows, qs, |qs| - 1);
  }

  /** Each manufacturer present in a quarter is stored in that quarter's
      list with the entry `QuarterMakeOfFacts` describes, computed against
      the quarters before it. */
  lemma StoredEntry(rows: seq<Row>, qs: seq<string>, i: nat, name: string)
    requires StrictlyIncreasing(qs)
    requires i < |qs|
    requires name in QuarterMakers(rows, qs, i)
    ensures QuarterKey(qs, i) in Build(rows, qs, |qs|)
    ensures QuarterMakeOf(rows, qs, i, Build(rows, qs, i), name) in Build(rows, qs, |qs|)[QuarterKey(qs, i)]
    ensures QuarterKey(qs, i) !in Build(rows, qs, i)
  {
    BuildAt(rows, qs, i);
    QuarterMakesEntries(rows, qs, i, Build(rows, qs, i));
  }
}
