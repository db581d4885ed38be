/** The mouse-move handler of `setupChartTooltip`: which candle the cursor
    is over, what the tooltip shows, and where the tooltip is placed. The
    handler reads back the layout `drawCandlestickChart` stored on the
    canvas (dashboard.js:392-396). */
module HitTest {
  import opened Wrappers
  import opened Stats
  import opened Ohlc
  import opened Chart

  /** What the chart stored for hit testing: its layout and its bars. */
  datatype Stored = Stored(layout: Layout, bars: seq<Bar>)

  function Abs(x: real): real
  {
    if x < 0.0 then -x else x
  }

  /** The cursor at `mx` is within half a slot of candle `i`'s centre. */
  predicate Near(l: Layout, mx: real, i: int)
  {
    Abs(mx - CandleX(l, i)) < l.slotW / 2.0
  }

  /** The cursor is horizontally inside the plot. */
  predicate InPlot(l: Layout, mx: real)
  {
    l.left <= mx <= l.W - l.right
  }

  /** The scan of dashboard.js:410-417: the first candle the cursor is
      near, or -1. */
  method FindCandle(l: Layout, mx: real) returns (found: int)
    ensures -1 <= found < l.n
    ensures found == -1 <==> forall i :: 0 <= i < l.n ==> !Near(l, mx, i)
    ensures found >= 0 ==> Near(l, mx, found)
    ensures forall j :: 0 <= j < found ==> !Near(l, mx, j)
  {
    found := -1;
    var i := 0;
    while i < l.n
      invariant 0 <= i <= l.n
      invariant forall j :: 0 <= j < i ==> !Near(l, mx, j)
    {
      if Abs(mx - CandleX(l, i)) < l.slotW / 2.0 {
        found := i;
        assert Near(l, mx, i);
        return;
      }
      i := i + 1;
    }
  }

  /** The candle under the cursor, if the scan found one and the cursor
      is inside the plot (dashboard.js:419). */
  method CandleAt(l: Layout, mx: real) returns (r: Option<nat>)
    ensures r.Some? <==> InPlot(l, mx) && exists i :: 0 <= i < l.n && Near(l, mx, i)
    ensures r.Some? ==> r.value < l.n && Near(l, mx, r.value)
    ensures r.Some? ==> forall j :: 0 <= j < r.value ==> !Near(l, mx, j)
  {
    var found := FindCandle(l, mx);
    if found >= 0 && l.left <= mx && mx <= l.W - l.right {
      r := Some(found);
    } else {
      r := None;
    }
  }

  /** With slots of positive width the cursor is near at most one
      candle, so the scan's "first" is "the only". */
  lemma NearIsUnique(l: Layout, mx: real, i: int, j: int)
    requires l.slotW > 0.0
    requires Near(l, mx, i) && Near(l, mx, j)
    ensures i == j
  {
    var w := l.slotW;
    var d := CandleX(l, i) - CandleX(l, j);
    assert d == ((i - j) as real) * w;
    assert Abs(d) < w;
    if i != j {
      var k := if i < j then (j - i) as real else (i - j) as real;
      MulNonNegative(k - 1.0, w);
    }
  }

  /** A cursor at the centre of candle `i` of a non-degenerate chart hits
      candle `i` and only it. */
  lemma CentreHits(l: Layout, i: nat)
    requires Sound(l)
    requires i < l.n
    requires l.slotW > 0.0
    ensures Near(l, CandleX(l, i), i) && InPlot(l, CandleX(l, i))
    ensures forall j :: Near(l, CandleX(l, i), j) ==> j == i
  {
    assert l.chartW >= 0.0 by {
      DivTimes(l.chartW, l.n as real);
      MulNonNegative(l.slotW, l.n as real);
    }
    CandleSlots(l, i);
    forall j | Near(l, CandleX(l, i), j) ensures j == i {
      NearIsUnique(l, CandleX(l, i), i, j);
    }
  }

  /** The tooltip's contents (dashboard.js:420-432): the bar's OHLC, its
      volume, whether it closed at or above its open, and its
      open-to-close change. */
  datatype Tooltip = Tooltip(quarter: string, open: real, high: real, low: real, close: real,
                             volume: nat, isUp: bool, change: real)

  function TooltipOf(b: Bar): (t: Tooltip)
    ensures t.isUp <==> b.close >= b.open
    ensures b.open > 0.0 ==> (t.isUp <==> t.change >= 0.0)
    ensures b.open <= 0.0 ==> t.change == 0.0
    ensures b.open > 0.0 ==> b.open + b.open * t.change / 100.0 == b.close
  {
    Tooltip(b.quarter, b.open, b.high, b.low, b.close, b.volume, b.close >= b.open,
            PercentChange(b.open, b.close))
  }

  /** Tooltip placement (dashboard.js:437-443): 12 to the right of the
      cursor, flipped to 12 to its left when it would overflow the right
      edge, and vertically centred on the cursor, clamped to the canvas. */
  function Place(mx: real, my: real, ttW: real, ttH: real, W: real, H: real): (p: (real, real))
  {
    var right := mx + 12.0;
    var left := if right + ttW > W then mx - ttW - 12.0 else right;
    var centred := my - ttH / 2.0;
    var top := if centred < H - ttH then centred else H - ttH;
    (left, if top > 0.0 then top else 0.0)
  }

  /** The tooltip never covers the cursor horizontally, stays inside the
      right edge when it is not flipped, and is vertically clamped to the
      canvas, centred on the cursor whenever that fits. */
  lemma PlaceBounds(mx: real, my: real, ttW: real, ttH: real, W: real, H: real)
    requires ttW >= 0.0 && ttH >= 0.0
    ensures var (left, top) := Place(mx, my, ttW, ttH, W, H);
            && (left == mx + 12.0 || left + ttW == mx - 12.0)
            && (left == mx + 12.0 <==> mx + 12.0 + ttW <= W)
            && (left > mx || left + ttW < mx)
            && top >= 0.0
            && (ttH <= H ==> top + ttH <= H)
            && (0.0 <= my - ttH / 2.0 <= H - ttH ==> top == my - ttH / 2.0)
  {
  }

  /** The effect of one mouse move on the tooltip element. */
  datatype Effect = Unchanged | Hide | Show(tooltip: Tooltip, left: real, top: real)

  /** The mouse-move handler: no stored layout leaves the tooltip as it is
      (dashboard.js:403); a cursor over a candle inside the plot shows that
      candle's tooltip; anything else hides it. */
  method OnMouseMove(stored: Option<Stored>, mx: real, my: real, ttW: real, ttH: real)
    returns (e: Effect)
    requires stored.Some? ==> stored.value.layout.n == |stored.value.bars|
    ensures stored.None? <==> e.Unchanged?
    ensures e.Show? ==> exists i :: 0 <= i < |stored.value.bars|
                                  && Near(stored.value.layout, mx, i)
                                  && e.tooltip == TooltipOf(stored.value.bars[i])
    ensures e.Show? ==> InPlot(stored.value.layout, mx)
    ensures e.Show? ==> (e.left, e.top) == Place(mx, my, ttW, ttH, stored.value.layout.W, stored.value.layout.H)
    ensures stored.Some? && e.Hide? ==>
              !InPlot(stored.value.layout, mx)
              || forall i :: 0 <= i < |stored.value.bars| ==> !Near(stored.value.layout, mx, i)
  {
    if stored.None? {
      return Unchanged;
    }
    var l, bars := stored.value.layout, stored.value.bars;
    var hit := CandleAt(l, mx);
    match hit {
      case None =>
        e := Hide;
      case Some(i) =>
        var (left, top) := Place(mx, my, ttW, ttH, l.W, l.H);
        e := Show(TooltipOf(bars[i]), left, top);
    }
  }
}
