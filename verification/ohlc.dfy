/** OHLC aggregation of the terminal page (`processOHLCData`).

    Rows are bucketed by quarter; each bucket becomes one bar whose close is
    the mean score, high and low the extreme scores, volume the row count
    and avgPrice the mean price. A bar opens at the close of the bar before
    it in the same sequence, and the first bar opens at its own close. The
    market sequence has one bar per quarter; a manufacturer's sequence has
    one bar per quarter in which it has rows. */
module Ohlc {
  import opened Wrappers
  import opened Stats
  import opened Records
  import opened Text

  datatype Bar = Bar(quarter: string, open: real, high: real, low: real, close: real,
                     volume: nat, avgPrice: Option<real>)

  /** A quarter and the rows bucketed under it. */
  datatype Bucket = Bucket(key: string, rows: seq<Row>)

  predicate AllNonEmpty(buckets: seq<Bucket>)
  {
    forall i :: 0 <= i < |buckets| ==> |buckets[i].rows| > 0
  }

  /** The statistics a bar takes from its bucket: everything but `open`. */
  predicate Aggregates(bar: Bar, bucket: Bucket)
  {
    && |bucket.rows| > 0
    && bar.quarter == bucket.key
    && bar.close == Mean(Scores(bucket.rows))
    && bar.high == Max(Scores(bucket.rows))
    && bar.low == Min(Scores(bucket.rows))
    && bar.volume == |bucket.rows|
    && bar.avgPrice == OptMean(Prices(bucket.rows))
  }

  /** The carry-forward rule of dashboard.js:137 and 171-173. */
  predicate CarriesForward(bars: seq<Bar>)
  {
    && (|bars| > 0 ==> bars[0].open == bars[0].close)
    && (forall i :: 0 < i < |bars| ==> bars[i].open == bars[i - 1].close)
  }

  function BarOf(bucket: Bucket, open: real): Bar
    requires |bucket.rows| > 0
  {
    var scores := Scores(bucket.rows);
    Bar(bucket.key, open, Max(scores), Min(scores), Mean(scores), |bucket.rows|,
        OptMean(Prices(bucket.rows)))
  }

  /** The bars of one scope, built left to right with the previous close as
      the running state. */
  function Chain(buckets: seq<Bucket>): (bars: seq<Bar>)
    requires AllNonEmpty(buckets)
    ensures |bars| == |buckets|
    ensures forall i :: 0 <= i < |bars| ==>
              bars[i].quarter == buckets[i].key && bars[i].volume == |buckets[i].rows|
  {
    if |buckets| == 0 then []
    else
      var prev := Chain(buckets[..|buckets| - 1]);
      var b := buckets[|buckets| - 1];
      var open := if |prev| == 0 then Mean(Scores(b.rows)) else prev[|prev| - 1].close;
      prev + [BarOf(b, open)]
  }

  /** Each bar aggregates its own bucket. */
  lemma {:induction false} ChainAggregates(buckets: seq<Bucket>)
    requires AllNonEmpty(buckets)
    ensures forall i :: 0 <= i < |buckets| ==> Aggregates(Chain(buckets)[i], buckets[i])
  {
    if |buckets| > 0 {
      var init := buckets[..|buckets| - 1];
      ChainAggregates(init);
      var bars, prev := Chain(buckets), Chain(init);
      var last := |buckets| - 1;
      assert bars == prev + [bars[last]];
      BarOfAggregates(buckets[last], bars[last].open);
      forall i | 0 <= i < |buckets| ensures Aggregates(bars[i], buckets[i]) {
        if i < last {
          assert bars[i] == prev[i] && buckets[i] == init[i];
        } else {
          assert bars[i] == BarOf(buckets[last], bars[last].open);
        }
      }
    }
  }

  lemma BarOfAggregates(bucket: Bucket, open: real)
    requires |bucket.rows| > 0
    ensures Aggregates(BarOf(bucket, open), bucket)
  {
  }

  /** Carry-forward continuity holds along the whole sequence. */
  lemma {:induction false} ChainCarriesForward(buckets: seq<Bucket>)
    requires AllNonEmpty(buckets)
    ensures CarriesForward(Chain(buckets))
  {
    if |buckets| > 0 {
      var init := buckets[..|buckets| - 1];
      ChainCarriesForward(init);
      ChainPrefix(buckets);
      LastBarOpens(buckets);
      var bars, prev := Chain(buckets), Chain(init);
      var last := |bars| - 1;
      forall i | 0 < i < |bars| ensures bars[i].open == bars[i - 1].close {
        if i < last {
          assert bars[i] == prev[i] && bars[i - 1] == prev[i - 1];
        }
      }
      if last > 0 {
        assert bars[0] == prev[0];
      }
      assert bars[0].open == bars[0].close;
    }
  }

  /** The last bar opens at the close before it, or at its own close when
      it is the only bar. */
  lemma LastBarOpens(buckets: seq<Bucket>)
    requires |buckets| > 0 && AllNonEmpty(buckets)
    ensures var bars := Chain(buckets);
            var last := |bars| - 1;
            bars[last].open == if last == 0 then bars[last].close else bars[last - 1].close
  {
    var bars, prev := Chain(buckets), Chain(buckets[..|buckets| - 1]);
    BarOfAggregates(buckets[|buckets| - 1], bars[|bars| - 1].open);
    assert bars == prev + [bars[|bars| - 1]];
  }

  /** Every bar has low <= close <= high and a positive volume. */
  lemma BarIsConsistent(bar: Bar, bucket: Bucket)
    requires Aggregates(bar, bucket)
    ensures bar.low <= bar.close <= bar.high
    ensures bar.volume >= 1
    ensures forall i :: 0 <= i < |bucket.rows| ==> bar.low <= bucket.rows[i].score <= bar.high
  {
    MeanBetweenMinAndMax(Scores(bucket.rows));
  }

  /** One bucket per quarter of `qs`, holding that quarter's rows. */
  function QuarterBuckets(rows: seq<Row>, qs: seq<string>): (bs: seq<Bucket>)
    ensures |bs| == |qs|
    ensures forall i :: 0 <= i < |qs| ==> bs[i] == Bucket(qs[i], RowsWith(rows, QuarterColumn, qs[i]))
  {
    seq(|qs|, i requires 0 <= i < |qs| => Bucket(qs[i], RowsWith(rows, QuarterColumn, qs[i])))
  }

  /** Bucket `i` is labelled with quarter `qs[i]` and holds exactly the rows
      of that quarter. */
  lemma QuarterBucketsMembers(rows: seq<Row>, qs: seq<string>)
    ensures var bs := QuarterBuckets(rows, qs);
            forall i :: 0 <= i < |qs| ==>
              && bs[i].key == qs[i]
              && forall r :: r in bs[i].rows <==> r in rows && r.quarter == qs[i]
  {
    var bs := QuarterBuckets(rows, qs);
    forall i, r | 0 <= i < |qs| ensures r in bs[i].rows <==> r in rows && r.quarter == qs[i] {
      RowsWithMembers(rows, QuarterColumn, qs[i]);
      if r in rows && r.quarter == qs[i] {
        var k :| 0 <= k < |rows| && rows[k] == r;
      }
    }
  }

  lemma QuarterBucketsNonEmpty(rows: seq<Row>)
    ensures AllNonEmpty(QuarterBuckets(rows, Quarters(rows)))
  {
    var qs := Quarters(rows);
    var bs := QuarterBuckets(rows, qs);
    forall i | 0 <= i < |bs| ensures |bs[i].rows| > 0 {
      assert qs[i] in qs;
      var k :| 0 <= k < |rows| && rows[k].quarter == qs[i];
      RowsWithHas(rows, QuarterColumn, k);
    }
  }

  /** One bar per distinct quarter of `rows`, in quarter order. */
  function SeriesOf(rows: seq<Row>): (bars: seq<Bar>)
    ensures |bars| == |Quarters(rows)|
    ensures |rows| > 0 ==> |bars| > 0
    ensures forall i :: 0 <= i < |bars| ==> bars[i].quarter == Quarters(rows)[i]
  {
    QuarterBucketsNonEmpty(rows);
    if |rows| > 0 then assert rows[0].quarter in Quarters(rows); Chain(QuarterBuckets(rows, Quarters(rows)))
    else Chain(QuarterBuckets(rows, Quarters(rows)))
  }

  /** The i-th bar of a series aggregates the rows of the i-th quarter, and
      the series carries forward. */
  lemma SeriesAggregates(rows: seq<Row>)
    ensures var bars := SeriesOf(rows);
            && CarriesForward(bars)
            && forall i :: 0 <= i < |bars| ==>
                 Aggregates(bars[i], Bucket(Quarters(rows)[i], RowsWith(rows, QuarterColumn, Quarters(rows)[i])))
  {
    QuarterBucketsNonEmpty(rows);
    ChainAggregates(QuarterBuckets(rows, Quarters(rows)));
    ChainCarriesForward(QuarterBuckets(rows, Quarters(rows)));
  }

  /** `marketOHLC`: the series of all rows. */
  function MarketBars(rows: seq<Row>): seq<Bar>
  {
    SeriesOf(rows)
  }

  /** The rows of manufacturer `m`. */
  function RowsOfManufacturer(rows: seq<Row>, m: string): seq<Row>
  {
    RowsWith(rows, ManufacturerColumn, m)
  }

  /** `manufacturerOHLC[m]`: the series of `m`'s own rows, so its bars sit
      at the quarters in which `m` has rows and carry forward from `m`'s own
      previous bar. */
  function ManufacturerBars(rows: seq<Row>, m: string): (bars: seq<Bar>)
    ensures (exists i :: 0 <= i < |rows| && rows[i].manufacturer == m) ==> |bars| > 0
  {
    var own := RowsOfManufacturer(rows, m);
    if exists i :: 0 <= i < |rows| && rows[i].manufacturer == m then
      var i :| 0 <= i < |rows| && rows[i].manufacturer == m;
      RowsWithHas(rows, ManufacturerColumn, i);
      SeriesOf(own)
    else SeriesOf(own)
  }

  /** Sum of the volumes of `bars`. */
  function TotalVolume(bars: seq<Bar>): nat
  {
    if |bars| == 0 then 0 else TotalVolume(bars[..|bars| - 1]) + bars[|bars| - 1].volume
  }

  /** The per-manufacturer summary of dashboard.js:186-205, taken at the
      manufacturer's latest bar. */
  datatype Summary = Summary(name: string, mii: real, volume: nat, avgPrice: Option<real>,
                             high: real, low: real, change: real, totalVolume: nat)

  function Summarize(name: string, bars: seq<Bar>): (s: Summary)
    requires |bars| > 0
    ensures s.name == name
    ensures |bars| == 1 ==> s.change == 0.0
  {
    var last := bars[|bars| - 1];
    var change := if |bars| >= 2 then PercentChange(bars[|bars| - 2].close, last.close) else 0.0;
    Summary(name, last.close, last.volume, last.avgPrice, last.high, last.low, change,
            TotalVolume(bars))
  }

  /** The result of `processOHLCData`. */
  datatype OhlcData = OhlcData(quarters: seq<string>, market: seq<Bar>,
                               byManufacturer: map<string, seq<Bar>>,
                               summaries: map<string, Summary>)

  /** The manufacturers that have at least one row. */
  function Manufacturers(rows: seq<Row>): set<string>
  {
    set i | 0 <= i < |rows| :: rows[i].manufacturer
  }

  function ProcessOhlc(parse: string -> Option<real>, raws: seq<RawRow>): (d: OhlcData)
    ensures d.byManufacturer.Keys == d.summaries.Keys
  {
    var rows := Validate(Terminal, parse, raws);
    var makers := Manufacturers(rows);
    OhlcData(
      Quarters(rows),
      MarketBars(rows),
      map m | m in makers :: ManufacturerBars(rows, m),
      map m | m in makers :: Summarize(m, ManufacturerBars(rows, m)))
  }

  // ---------------------------------------------------------------------
  // Properties of the aggregation
  // ---------------------------------------------------------------------

  /** Volume of the bar at quarter `q`, 0 when there is none. */
  function VolumeAt(bars: seq<Bar>, q: string): nat
  {
    if |bars| == 0 then 0
    else if bars[|bars| - 1].quarter == q then bars[|bars| - 1].volume
    else VolumeAt(bars[..|bars| - 1], q)
  }

  /** Every quarter of `qs` has at least one row. */
  predicate Occupied(rows: seq<Row>, qs: seq<string>)
  {
    forall k :: 0 <= k < |qs| ==> |RowsWith(rows, QuarterColumn, qs[k])| > 0
  }

  lemma OccupiedBucketsNonEmpty(rows: seq<Row>, qs: seq<string>)
    requires Occupied(rows, qs)
    ensures AllNonEmpty(QuarterBuckets(rows, qs))
  {
    var bs := QuarterBuckets(rows, qs);
    assert forall k :: 0 <= k < |bs| ==> bs[k].rows == RowsWith(rows, QuarterColumn, qs[k]);
  }

  lemma ChainOfPrefix(rows: seq<Row>, qs: seq<string>)
    requires |qs| > 0 && Occupied(rows, qs)
    ensures Occupied(rows, qs[..|qs| - 1])
    ensures AllNonEmpty(QuarterBuckets(rows, qs))
    ensures QuarterBuckets(rows, qs)[..|qs| - 1] == QuarterBuckets(rows, qs[..|qs| - 1])
    ensures Chain(QuarterBuckets(rows, qs))[..|qs| - 1] == Chain(QuarterBuckets(rows, qs[..|qs| - 1]))
  {
    OccupiedBucketsNonEmpty(rows, qs);
    OccupiedPrefix(rows, qs);
    QuarterBucketsPrefix(rows, qs);
    ChainPrefix(QuarterBuckets(rows, qs));
  }

  lemma OccupiedPrefix(rows: seq<Row>, qs: seq<string>)
    requires |qs| > 0 && Occupied(rows, qs)
    ensures Occupied(rows, qs[..|qs| - 1])
  {
    var init := qs[..|qs| - 1];
    assert forall k :: 0 <= k < |init| ==> init[k] == qs[k];
  }

  lemma QuarterBucketsPrefix(rows: seq<Row>, qs: seq<string>)
    requires |qs| > 0
    ensures QuarterBuckets(rows, qs)[..|qs| - 1] == QuarterBuckets(rows, qs[..|qs| - 1])
  {
    var init := qs[..|qs| - 1];
    var bs := QuarterBuckets(rows, qs)[..|qs| - 1];
    var front := QuarterBuckets(rows, init);
    assert |bs| == |front|;
    forall k | 0 <= k < |front| ensures bs[k] == front[k] {
      assert init[k] == qs[k];
    }
  }

  /** Dropping the last bucket drops the last bar. */
  lemma ChainPrefix(buckets: seq<Bucket>)
    requires |buckets| > 0 && AllNonEmpty(buckets)
    ensures AllNonEmpty(buckets[..|buckets| - 1])
    ensures Chain(buckets)[..|buckets| - 1] == Chain(buckets[..|buckets| - 1])
  {
  }

  lemma QuartersOccupied(rows: seq<Row>)
    ensures Occupied(rows, Quarters(rows))
  {
    var qs := Quarters(rows);
    forall k | 0 <= k < |qs| ensures |RowsWith(rows, QuarterColumn, qs[k])| > 0 {
      assert qs[k] in qs;
      var i :| 0 <= i < |rows| && rows[i].quarter == qs[k];
      RowsWithHas(rows, QuarterColumn, i);
    }
  }

  /** The total volume of the bars over `qs` is the number of rows in
      those quarters. */
  lemma {:induction false} ChainVolume(rows: seq<Row>, qs: seq<string>)
    requires Occupied(rows, qs)
    ensures AllNonEmpty(QuarterBuckets(rows, qs))
    ensures TotalVolume(Chain(QuarterBuckets(rows, qs))) == GroupTotal(rows, QuarterColumn, qs)
  {
    OccupiedBucketsNonEmpty(rows, qs);
    if |qs| > 0 {
      ChainOfPrefix(rows, qs);
      ChainVolume(rows, qs[..|qs| - 1]);
    }
  }

  /** The bar a series keeps for quarter `q` has as volume the number of
      rows in `q`, and 0 when `q` is not among the series' quarters. */
  lemma {:induction false} ChainVolumeAt(rows: seq<Row>, qs: seq<string>, q: string)
    requires Occupied(rows, qs)
    ensures AllNonEmpty(QuarterBuckets(rows, qs))
    ensures VolumeAt(Chain(QuarterBuckets(rows, qs)), q)
         == if q in qs then |RowsWith(rows, QuarterColumn, q)| else 0
  {
    OccupiedBucketsNonEmpty(rows, qs);
    if |qs| > 0 {
      var init, top := qs[..|qs| - 1], qs[|qs| - 1];
      ChainOfPrefix(rows, qs);
      ChainVolumeAt(rows, init, q);
      LastBarVolume(rows, qs);
      VolumeAtSnoc(Chain(QuarterBuckets(rows, qs)), q);
      InSnoc(qs, q);
    }
  }

  /** The last bar of a series is the last quarter's, with its row count. */
  lemma LastBarVolume(rows: seq<Row>, qs: seq<string>)
    requires |qs| > 0 && AllNonEmpty(QuarterBuckets(rows, qs))
    ensures var bars := Chain(QuarterBuckets(rows, qs));
            && bars[|bars| - 1].quarter == qs[|qs| - 1]
            && bars[|bars| - 1].volume == |RowsWith(rows, QuarterColumn, qs[|qs| - 1])|
  {
  }

  /** `VolumeAt` looks at the last bar first, then at the ones before it. */
  lemma VolumeAtSnoc(bars: seq<Bar>, q: string)
    requires |bars| > 0
    ensures VolumeAt(bars, q)
         == if bars[|bars| - 1].quarter == q then bars[|bars| - 1].volume
            else VolumeAt(bars[..|bars| - 1], q)
  {
  }

  lemma InSnoc(qs: seq<string>, q: string)
    requires |qs| > 0
    ensures q in qs <==> q in qs[..|qs| - 1] || q == qs[|qs| - 1]
  {
    assert qs == qs[..|qs| - 1] + [qs[|qs| - 1]];
  }

  /** In any series, the bar at quarter `q` counts exactly the rows of `q`. */
  lemma SeriesVolumeAt(rows: seq<Row>, q: string)
    ensures VolumeAt(SeriesOf(rows), q) == |RowsWith(rows, QuarterColumn, q)|
  {
    var qs := Quarters(rows);
    QuartersOccupied(rows);
    ChainVolumeAt(rows, qs, q);
    if q !in qs {
      RowsWithEmpty(rows, QuarterColumn, q);
    }
  }

  /** Volume conservation: the bars of a series count every row once. */
  lemma SeriesVolume(rows: seq<Row>)
    ensures TotalVolume(SeriesOf(rows)) == |rows|
  {
    var qs := Quarters(rows);
    QuartersOccupied(rows);
    ChainVolume(rows, qs);
    QuartersDistinct(rows);
    GroupsPartition(rows, QuarterColumn, qs);
  }

  /** Sum over `makers` of each manufacturer's volume at quarter `q`. */
  function VolumeAtAcross(rows: seq<Row>, q: string, makers: seq<string>): nat
  {
    if |makers| == 0 then 0
    else VolumeAtAcross(rows, q, makers[..|makers| - 1])
         + VolumeAt(ManufacturerBars(rows, makers[|makers| - 1]), q)
  }

  lemma {:induction false} VolumeAtAcrossIsGroupTotal(rows: seq<Row>, q: string, makers: seq<string>)
    ensures VolumeAtAcross(rows, q, makers)
         == GroupTotal(RowsWith(rows, QuarterColumn, q), ManufacturerColumn, makers)
  {
    if |makers| > 0 {
      var m := makers[|makers| - 1];
      VolumeAtAcrossIsGroupTotal(rows, q, makers[..|makers| - 1]);
      SeriesVolumeAt(RowsOfManufacturer(rows, m), q);
      RowsWithCommute(rows, ManufacturerColumn, m, QuarterColumn, q);
    }
  }

  /** Grouping partitions each quarter: the manufacturers' volumes at the
      i-th quarter add up to the market bar's volume there. The makers are
      listed as `mfrGroups` lists them, in order of first appearance. */
  lemma QuarterVolumePartition(rows: seq<Row>, i: nat)
    requires i < |MarketBars(rows)|
    ensures var q := Quarters(rows)[i];
            (VolumeAtAcross(rows, q, FirstSeen(RowsWith(rows, QuarterColumn, q), ManufacturerColumn))
             == MarketBars(rows)[i].volume)
  {
    var q := Quarters(rows)[i];
    var inQ := RowsWith(rows, QuarterColumn, q);
    var makers := FirstSeen(inQ, ManufacturerColumn);
    VolumeAtAcrossIsGroupTotal(rows, q, makers);
    forall k | 0 <= k < |inQ| ensures Cell(ManufacturerColumn, inQ[k]) in makers {
    }
    GroupsPartition(inQ, ManufacturerColumn, makers);
  }

  /** The group `mfrGroups[m]` of quarter `q` (dashboard.js:158-163). */
  function GroupOf(rows: seq<Row>, q: string, m: string): seq<Row>
  {
    RowsWith(RowsWith(rows, QuarterColumn, q), ManufacturerColumn, m)
  }

  /** A manufacturer's bars carry forward from its own previous bar, and
      each aggregates that manufacturer's group of its quarter. */
  lemma ManufacturerBarsAggregate(rows: seq<Row>, m: string)
    ensures var bars := ManufacturerBars(rows, m);
            && CarriesForward(bars)
            && forall i :: 0 <= i < |bars| ==>
                 Aggregates(bars[i], Bucket(bars[i].quarter, GroupOf(rows, bars[i].quarter, m)))
  {
    var own := RowsOfManufacturer(rows, m);
    var bars := ManufacturerBars(rows, m);
    SeriesAggregates(own);
    forall i | 0 <= i < |bars|
      ensures Aggregates(bars[i], Bucket(bars[i].quarter, GroupOf(rows, bars[i].quarter, m)))
    {
      RowsWithCommute(rows, ManufacturerColumn, m, QuarterColumn, bars[i].quarter);
    }
  }

  /** A manufacturer's bar quarters increase strictly and are all market
      quarters: they form a subsequence of `quarters`. */
  lemma ManufacturerQuartersIncrease(rows: seq<Row>, m: string)
    ensures var bars := ManufacturerBars(rows, m);
            && (forall i, j :: 0 <= i < j < |bars| ==> StrLt(bars[i].quarter, bars[j].quarter))
            && (forall i :: 0 <= i < |bars| ==> bars[i].quarter in Quarters(rows))
  {
    var own := RowsOfManufacturer(rows, m);
    var bars := ManufacturerBars(rows, m);
    var qs := Quarters(own);
    RowsWithMembers(rows, ManufacturerColumn, m);
    forall i | 0 <= i < |bars| ensures bars[i].quarter in Quarters(rows) {
      assert qs[i] in qs;
      var k :| 0 <= k < |own| && own[k].quarter == qs[i];
      assert own[k] in rows;
    }
  }

  /** A series has a bar at quarter `q` exactly when some row is in `q`. */
  lemma SeriesBarPresence(rows: seq<Row>, q: string)
    ensures (exists i :: 0 <= i < |SeriesOf(rows)| && SeriesOf(rows)[i].quarter == q)
        <==> |RowsWith(rows, QuarterColumn, q)| > 0
  {
    var bars, qs := SeriesOf(rows), Quarters(rows);
    if exists i :: 0 <= i < |bars| && bars[i].quarter == q {
      var i :| 0 <= i < |bars| && bars[i].quarter == q;
      assert qs[i] == q;
      QuartersOccupied(rows);
    }
    if |RowsWith(rows, QuarterColumn, q)| > 0 {
      RowsWithMembers(rows, QuarterColumn, q);
      var r := RowsWith(rows, QuarterColumn, q)[0];
      assert r in rows && r.quarter == q;
      assert q in qs;
      var i :| 0 <= i < |qs| && qs[i] == q;
      assert bars[i].quarter == q;
    }
  }

  /** A manufacturer has a bar at quarter `q` exactly when it has rows
      there. */
  lemma ManufacturerBarPresence(rows: seq<Row>, m: string, q: string)
    ensures (exists i :: 0 <= i < |ManufacturerBars(rows, m)| && ManufacturerBars(rows, m)[i].quarter == q)
        <==> |GroupOf(rows, q, m)| > 0
  {
    var own := RowsOfManufacturer(rows, m);
    RowsWithCommute(rows, ManufacturerColumn, m, QuarterColumn, q);
    assert GroupOf(rows, q, m) == RowsWith(own, QuarterColumn, q);
    assert ManufacturerBars(rows, m) == SeriesOf(own);
    SeriesBarPresence(own, q);
  }

  /** The last bar of a manufacturer is at the latest quarter in which it
      has rows. */
  lemma LatestManufacturerBar(rows: seq<Row>, m: string)
    requires exists k :: 0 <= k < |rows| && rows[k].manufacturer == m
    ensures var own := RowsOfManufacturer(rows, m);
            var bars := ManufacturerBars(rows, m);
            && |bars| > 0
            && (exists k :: 0 <= k < |own| && own[k].quarter == bars[|bars| - 1].quarter)
            && forall k :: 0 <= k < |own| ==> StrLe(own[k].quarter, bars[|bars| - 1].quarter)
  {
    var own := RowsOfManufacturer(rows, m);
    var bars := ManufacturerBars(rows, m);
    var qs := Quarters(own);
    var last := bars[|bars| - 1];
    assert last.quarter == qs[|qs| - 1];
    assert qs[|qs| - 1] in qs;
    forall k | 0 <= k < |own| ensures StrLe(own[k].quarter, last.quarter) {
      assert own[k].quarter in qs;
      var j :| 0 <= j < |qs| && qs[j] == own[k].quarter;
    }
  }

  /** The fields `Summarize` copies from the last bar. */
  lemma SummaryFromLastBar(name: string, bars: seq<Bar>)
    requires |bars| > 0
    ensures var s := Summarize(name, bars);
            var last := bars[|bars| - 1];
            && s.mii == last.close && s.volume == last.volume && s.avgPrice == last.avgPrice
            && s.high == last.high && s.low == last.low
            && s.totalVolume == TotalVolume(bars)
            && (|bars| >= 2 ==> s.change == PercentChange(bars[|bars| - 2].close, last.close))
  {
  }

  /** A manufacturer's last bar aggregates its rows of that bar's quarter:
      with `SummaryFromLastBar`, its summary's high, low and average price
      are those rows' maximum, minimum and mean price. */
  lemma LastManufacturerBarAggregates(rows: seq<Row>, m: string)
    requires exists k :: 0 <= k < |rows| && rows[k].manufacturer == m
    ensures var bars := ManufacturerBars(rows, m);
            && |bars| > 0
            && Aggregates(bars[|bars| - 1], Bucket(bars[|bars| - 1].quarter,
                                                   GroupOf(rows, bars[|bars| - 1].quarter, m)))
  {
    LatestManufacturerBar(rows, m);
    ManufacturerBarsAggregate(rows, m);
  }

  /** The summary of a manufacturer reports the mean score of its rows in
      the latest quarter; `change` compares the last two closes, and
      `totalVolume` counts every row of the manufacturer. */
  lemma SummaryOfManufacturer(rows: seq<Row>, m: string)
    requires exists k :: 0 <= k < |rows| && rows[k].manufacturer == m
    ensures var bars := ManufacturerBars(rows, m);
            var s := Summarize(m, bars);
            && |bars| > 0
            && var last := bars[|bars| - 1];
            && s.mii == Mean(Scores(GroupOf(rows, last.quarter, m)))
            && s.volume == |GroupOf(rows, last.quarter, m)|
            && s.low <= s.mii <= s.high
            && (|bars| < 2 ==> s.change == 0.0)
            && (|bars| >= 2 ==> s.change == PercentChange(bars[|bars| - 2].close, last.close))
            && s.totalVolume == |RowsOfManufacturer(rows, m)|
  {
    var own := RowsOfManufacturer(rows, m);
    var bars := ManufacturerBars(rows, m);
    LatestManufacturerBar(rows, m);
    var last := bars[|bars| - 1];
    ManufacturerBarsAggregate(rows, m);
    assert Aggregates(last, Bucket(last.quarter, GroupOf(rows, last.quarter, m)));
    BarIsConsistent(last, Bucket(last.quarter, GroupOf(rows, last.quarter, m)));
    SeriesVolume(own);
  }

  /** The summary's score, high, low, volume and average price are the
      mean, maximum, minimum, count and mean price of the manufacturer's
      rows in the latest quarter in which it has rows, as the update at
      dashboard.js:186-205 writes them when that quarter is reached. */
  lemma SummaryOfLatestGroup(rows: seq<Row>, m: string)
    requires exists k :: 0 <= k < |rows| && rows[k].manufacturer == m
    ensures var bars := ManufacturerBars(rows, m);
            var s := Summarize(m, bars);
            && |bars| > 0
            && var q := bars[|bars| - 1].quarter;
            && (forall r :: r in rows && r.manufacturer == m ==> StrLe(r.quarter, q))
            && var g := GroupOf(rows, q, m);
            && |g| > 0
            && s.mii == Mean(Scores(g))
            && s.high == Max(Scores(g))
            && s.low == Min(Scores(g))
            && s.volume == |g|
            && s.avgPrice == OptMean(Prices(g))
  {
    LastManufacturerBarAggregates(rows, m);
    SummaryFromLastBar(m, ManufacturerBars(rows, m));
    LatestOfAllRows(rows, m);
  }

  /** The last bar's quarter is the latest of all the manufacturer's rows,
      not only of its own list. */
  lemma LatestOfAllRows(rows: seq<Row>, m: string)
    requires exists k :: 0 <= k < |rows| && rows[k].manufacturer == m
    ensures var bars := ManufacturerBars(rows, m);
            && |bars| > 0
            && forall r :: r in rows && r.manufacturer == m ==> StrLe(r.quarter, bars[|bars| - 1].quarter)
  {
    LatestManufacturerBar(rows, m);
    var bars := ManufacturerBars(rows, m);
    var own := RowsOfManufacturer(rows, m);
    RowsWithMembers(rows, ManufacturerColumn, m);
    forall r | r in rows && r.manufacturer == m ensures StrLe(r.quarter, bars[|bars| - 1].quarter) {
      var i :| 0 <= i < |rows| && rows[i] == r;
      var k :| 0 <= k < |own| && own[k] == r;
    }
  }

  /** `summaries` and `byManufacturer` hold exactly the manufacturers of the
      valid rows, and each summary is that of the manufacturer's bars. */
  lemma ProcessOhlcManufacturers(parse: string -> Option<real>, raws: seq<RawRow>, m: string)
    ensures var d := ProcessOhlc(parse, raws);
            var rows := Validate(Terminal, parse, raws);
            && (m in d.summaries <==> exists k :: 0 <= k < |rows| && rows[k].manufacturer == m)
            && (m in d.summaries ==>
                  d.byManufacturer[m] == ManufacturerBars(rows, m)
                  && d.summaries[m] == Summarize(m, ManufacturerBars(rows, m)))
  {
  }
}
