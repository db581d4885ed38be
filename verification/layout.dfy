/** Layout arithmetic of `drawCandlestickChart`: margins, the split of the
    plot into candle, gap and volume areas, the padded price scale, the
    volume scale, candle slots and the horizontal grid. Drawing itself is
    not modelled; the layout is what the tooltip handler reads back. */
module Chart {
  import opened Wrappers
  import opened Stats
  import opened Ohlc

  /** The options of dashboard.js:243-251 that influence geometry. */
  datatype Options = Options(showVolume: bool, showGrid: bool, showYAxis: bool,
                             showXAxis: bool, compact: bool)

  datatype Layout = Layout(
    W: real, H: real,
    left: real, right: real, top: real, bottom: real,
    chartW: real, chartH: real,
    candleAreaH: real, gapH: real, volumeAreaH: real,
    minPrice: real, maxPrice: real,
    scaleMinP: real, scaleMaxP: real, scalePRange: real,
    maxVol: real,
    n: nat, slotW: real, bodyW: real,
    compact: bool)

  function LeftMargin(o: Options): real
  {
    if o.showYAxis then (if o.compact then 35.0 else 50.0) else 8.0
  }

  function RightMargin(o: Options): real
  {
    if o.compact then 8.0 else 15.0
  }

  function TopMargin(o: Options): real
  {
    if o.compact then 6.0 else 12.0
  }

  function BottomMargin(o: Options): real
  {
    if o.showXAxis then (if o.compact then 16.0 else 22.0) else 6.0
  }

  function VolumeRatio(o: Options): real
  {
    if o.showVolume then 0.22 else 0.0
  }

  function GapRatio(o: Options): real
  {
    if o.showVolume then 0.04 else 0.0
  }

  /** Every price a bar draws: high, low, open and close. */
  function AllPrices(bars: seq<Bar>): (ps: seq<real>)
    ensures |ps| == 4 * |bars|
    ensures forall i :: 0 <= i < |bars| ==>
              ps[4 * i] == bars[i].high && ps[4 * i + 1] == bars[i].low
              && ps[4 * i + 2] == bars[i].open && ps[4 * i + 3] == bars[i].close
  {
    if |bars| == 0 then []
    else
      var b := bars[|bars| - 1];
      AllPrices(bars[..|bars| - 1]) + [b.high, b.low, b.open, b.close]
  }

  /** `Math.max(...volumes, 1)`. */
  function MaxVolume(bars: seq<Bar>): (r: real)
    ensures r >= 1.0
    ensures forall i :: 0 <= i < |bars| ==> bars[i].volume as real <= r
    ensures r == 1.0 || exists i :: 0 <= i < |bars| && bars[i].volume as real == r
  {
    if |bars| == 0 then 1.0
    else
      var m := MaxVolume(bars[..|bars| - 1]);
      var v := bars[|bars| - 1].volume as real;
      if v > m then v else m
  }

  /** `Math.max(Math.min(slot * 0.55, cap), 3)`. */
  function BodyWidth(slotW: real, compact: bool): real
  {
    var cap := if compact then 14.0 else 28.0;
    var w := if slotW * 0.55 < cap then slotW * 0.55 else cap;
    if w > 3.0 then w else 3.0
  }

  /** The layout of a chart of `bars` on a `W` by `H` canvas; `None` is the
      "NO DATA" early return of dashboard.js:235-241. */
  function MakeLayout(W: real, H: real, bars: seq<Bar>, o: Options): (r: Option<Layout>)
    ensures r.Some? <==> |bars| > 0
    ensures r.Some? ==> r.value.n == |bars| && r.value.W == W && r.value.H == H
  {
    if |bars| == 0 then None
    else
      var left, right, top, bottom := LeftMargin(o), RightMargin(o), TopMargin(o), BottomMargin(o);
      var chartW, chartH := W - left - right, H - top - bottom;
      var ps := AllPrices(bars);
      var lo, hi := Min(ps), Max(ps);
      var range := if hi - lo == 0.0 then 1.0 else hi - lo;
      var pad := range * 0.12;
      var slotW := chartW / (|bars| as real);
      Some(Layout(
        W, H, left, right, top, bottom, chartW, chartH,
        chartH * (1.0 - VolumeRatio(o) - GapRatio(o)), chartH * GapRatio(o),
        chartH * VolumeRatio(o),
        lo, hi, lo - pad, hi + pad, (hi + pad) - (lo - pad),
        MaxVolume(bars), |bars|, slotW, BodyWidth(slotW, o.compact), o.compact))
  }

  /** `scaleY`: the canvas y of a price. */
  function ScaleY(l: Layout, p: real): real
    requires l.scalePRange != 0.0
  {
    l.top + ((l.scaleMaxP - p) / l.scalePRange) * l.candleAreaH
  }

  /** The top of the volume area. */
  function VolumeTop(l: Layout): real
  {
    l.top + l.candleAreaH + l.gapH
  }

  /** `scaleVolY`: the canvas y of the top of a volume bar. */
  function ScaleVolY(l: Layout, v: real): real
    requires l.maxVol != 0.0
  {
    VolumeTop(l) + l.volumeAreaH - (v / l.maxVol) * l.volumeAreaH
  }

  /** `candleX`: the horizontal centre of candle `i`. */
  function CandleX(l: Layout, i: int): real
  {
    l.left + (i as real) * l.slotW + l.slotW / 2.0
  }

  function GridCount(l: Layout): nat
  {
    if l.compact then 3 else 5
  }

  /** The y of grid line `i` (dashboard.js:304). */
  function GridY(l: Layout, i: nat): real
  {
    l.top + ((i as real) / (GridCount(l) as real)) * l.candleAreaH
  }

  /** The price printed beside grid line `i` (dashboard.js:311). */
  function GridPrice(l: Layout, i: nat): real
  {
    l.scaleMaxP - ((i as real) / (GridCount(l) as real)) * l.scalePRange
  }

  // ---- Properties ----

  /** The facts every layout `MakeLayout` builds satisfies. */
  predicate Sound(l: Layout)
  {
    && l.n > 0
    && l.minPrice <= l.maxPrice
    && l.scalePRange > 0.0
    && l.scaleMinP < l.minPrice && l.maxPrice < l.scaleMaxP
    && l.scalePRange == l.scaleMaxP - l.scaleMinP
    && l.maxVol >= 1.0
    && l.left + l.chartW + l.right == l.W
    && l.top + l.chartH + l.bottom == l.H
    && l.candleAreaH + l.gapH + l.volumeAreaH == l.chartH
    && l.slotW == l.chartW / (l.n as real)
    && l.bodyW == BodyWidth(l.slotW, l.compact)
  }

  /** The smallest and largest price drawn bound every bar. */
  lemma AllPricesBound(bars: seq<Bar>)
    requires |bars| > 0
    ensures var ps := AllPrices(bars);
            forall i :: 0 <= i < |bars| ==>
              && Min(ps) <= bars[i].low && bars[i].high <= Max(ps)
              && Min(ps) <= bars[i].open <= Max(ps)
              && Min(ps) <= bars[i].close <= Max(ps)
  {
    var ps := AllPrices(bars);
    forall i | 0 <= i < |bars|
      ensures Min(ps) <= bars[i].low && bars[i].high <= Max(ps)
      ensures Min(ps) <= bars[i].open <= Max(ps)
      ensures Min(ps) <= bars[i].close <= Max(ps)
    {
      assert ps[4 * i] == bars[i].high && ps[4 * i + 1] == bars[i].low;
      assert ps[4 * i + 2] == bars[i].open && ps[4 * i + 3] == bars[i].close;
    }
  }

  /** The price scale pads the drawn range by 12% on each side; a flat
      series pads as if its range were 1 (dashboard.js:268-273). */
  lemma PricePadding(W: real, H: real, bars: seq<Bar>, o: Options)
    requires |bars| > 0
    ensures var l := MakeLayout(W, H, bars, o).value;
            && (l.minPrice == l.maxPrice ==> l.scaleMinP == l.minPrice - 0.12 && l.scaleMaxP == l.maxPrice + 0.12)
            && (l.minPrice != l.maxPrice ==>
                  && l.scaleMaxP - l.maxPrice == 0.12 * (l.maxPrice - l.minPrice)
                  && l.minPrice - l.scaleMinP == 0.12 * (l.maxPrice - l.minPrice))
  {
  }

  /** The margins, the three areas and the price scale fit together: the
      plot fills the canvas between the margins, the areas stack to the
      plot height, and the price scale strictly covers every price drawn. */
  lemma LayoutIsSound(W: real, H: real, bars: seq<Bar>, o: Options)
    requires |bars| > 0
    ensures Sound(MakeLayout(W, H, bars, o).value)
    ensures var l := MakeLayout(W, H, bars, o).value;
            forall i :: 0 <= i < |bars| ==>
              && l.minPrice <= bars[i].low && bars[i].high <= l.maxPrice
              && l.minPrice <= bars[i].open <= l.maxPrice
              && l.minPrice <= bars[i].close <= l.maxPrice
              && bars[i].volume as real <= l.maxVol
  {
    var l := MakeLayout(W, H, bars, o).value;
    var ps := AllPrices(bars);
    AllPricesBound(bars);
    assert l.minPrice == Min(ps) && l.maxPrice == Max(ps);
    assert l.minPrice <= l.maxPrice by {
      assert Min(ps) <= bars[0].high <= Max(ps);
    }
    var range := if l.maxPrice - l.minPrice == 0.0 then 1.0 else l.maxPrice - l.minPrice;
    assert range > 0.0;
    assert l.scaleMinP == l.minPrice - range * 0.12 && l.scaleMaxP == l.maxPrice + range * 0.12;
    assert l.candleAreaH + l.gapH + l.volumeAreaH == l.chartH by {
      var v, g := VolumeRatio(o), GapRatio(o);
      assert l.chartH * (1.0 - v - g) + l.chartH * g + l.chartH * v == l.chartH;
    }
    assert Sound(l);
  }

  lemma DivTimes(a: real, n: real)
    requires n != 0.0
    ensures (a / n) * n == a
  {
  }

  /** The padded scale maps its top price to the top of the candle area and
      its bottom price to the bottom. */
  lemma ScaleYEndpoints(l: Layout)
    requires Sound(l)
    ensures ScaleY(l, l.scaleMaxP) == l.top
    ensures ScaleY(l, l.scaleMinP) == l.top + l.candleAreaH
  {
    assert (l.scaleMaxP - l.scaleMinP) / l.scalePRange == 1.0;
  }

  /** A higher price is drawn higher up (a smaller y), strictly so when the
      candle area has height. */
  lemma ScaleYMonotone(l: Layout, p: real, q: real)
    requires Sound(l)
    requires p <= q
    ensures l.candleAreaH >= 0.0 ==> ScaleY(l, q) <= ScaleY(l, p)
    ensures l.candleAreaH > 0.0 && p < q ==> ScaleY(l, q) < ScaleY(l, p)
  {
    var a, b := (l.scaleMaxP - p) / l.scalePRange, (l.scaleMaxP - q) / l.scalePRange;
    assert b <= a;
    assert p < q ==> b < a;
    if l.candleAreaH >= 0.0 {
      assert b * l.candleAreaH <= a * l.candleAreaH;
    }
    if l.candleAreaH > 0.0 && p < q {
      assert b * l.candleAreaH < a * l.candleAreaH;
    }
  }

  /** Every price on the scale, in particular every price of every bar, is
      drawn inside the candle area. */
  lemma ScaleYWithinCandleArea(l: Layout, p: real)
    requires Sound(l)
    requires l.candleAreaH >= 0.0
    requires l.scaleMinP <= p <= l.scaleMaxP
    ensures l.top <= ScaleY(l, p) <= l.top + l.candleAreaH
  {
    ScaleYEndpoints(l);
    ScaleYMonotone(l, p, l.scaleMaxP);
    ScaleYMonotone(l, l.scaleMinP, p);
  }

  /** Each grid line's label is the price the scale draws at that line. */
  lemma GridLabelsMatchLines(l: Layout, i: nat)
    requires Sound(l)
    requires i <= GridCount(l)
    ensures ScaleY(l, GridPrice(l, i)) == GridY(l, i)
  {
    var f := (i as real) / (GridCount(l) as real);
    assert (l.scaleMaxP - GridPrice(l, i)) == f * l.scalePRange;
    assert (f * l.scalePRange) / l.scalePRange == f;
  }

  /** A volume bar rises from the bottom of the volume area by the share of
      the largest volume, so a volume in `[0, maxVol]` stays in the area. */
  lemma VolumeBarHeight(l: Layout, v: real)
    requires Sound(l)
    requires l.volumeAreaH >= 0.0
    requires 0.0 <= v <= l.maxVol
    ensures VolumeTop(l) + l.volumeAreaH - ScaleVolY(l, v) == (v / l.maxVol) * l.volumeAreaH
    ensures VolumeTop(l) <= ScaleVolY(l, v) <= VolumeTop(l) + l.volumeAreaH
    ensures VolumeTop(l) + l.volumeAreaH == l.top + l.chartH
  {
    var f := v / l.maxVol;
    assert 0.0 <= f <= 1.0;
    assert f * l.volumeAreaH <= l.volumeAreaH;
    assert 0.0 <= f * l.volumeAreaH;
  }

  /** The candle body is at least 3 wide, at most the cap, and no wider
      than 55% of the slot whenever that share is at least 3. */
  lemma BodyWidthBounds(slotW: real, compact: bool)
    ensures var w := BodyWidth(slotW, compact);
            var cap := if compact then 14.0 else 28.0;
            && 3.0 <= w
            && w <= cap
            && (slotW * 0.55 >= 3.0 ==> w <= slotW * 0.55)
            && (3.0 <= slotW * 0.55 <= cap ==> w == slotW * 0.55)
  {
  }

  /** Candle centres are one slot apart, and every slot lies between the
      left margin and the right margin when the plot has non-negative
      width. */
  lemma CandleSlots(l: Layout, i: nat)
    requires Sound(l)
    requires i < l.n
    requires l.chartW >= 0.0
    ensures CandleX(l, i + 1) - CandleX(l, i) == l.slotW
    ensures l.left <= CandleX(l, i) - l.slotW / 2.0
    ensures CandleX(l, i) + l.slotW / 2.0 <= l.W - l.right
  {
    var n, x, w := l.n as real, i as real, l.slotW;
    assert ((i + 1) as real) * w == x * w + w;
    DivTimes(l.chartW, n);
    SlotWithin(x, n, w, l.chartW);
    assert CandleX(l, i) - w / 2.0 == l.left + x * w;
    assert CandleX(l, i) + w / 2.0 == l.left + (x + 1.0) * w;
  }

  /** Slot `x` of `n` slots of width `w` filling `width` starts at or after
      0 and ends at or before `width`. */
  lemma SlotWithin(x: real, n: real, w: real, width: real)
    requires 0.0 <= x && x + 1.0 <= n
    requires w * n == width && width >= 0.0
    ensures 0.0 <= x * w
    ensures (x + 1.0) * w <= width
  {
    assert w >= 0.0;
    MulNonNegative(n - (x + 1.0), w);
    assert (n - (x + 1.0)) * w == n * w - (x + 1.0) * w;
    MulNonNegative(x, w);
  }

  lemma MulNonNegative(a: real, b: real)
    requires 0.0 <= a && 0.0 <= b
    ensures 0.0 <= a * b
  {
  }
}
