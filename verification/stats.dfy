/** Sums, means and extrema over sequences of reals. JavaScript numbers are
    modelled as exact reals; `NaN` is `None` where it can arise. */
module Stats {
  import opened Wrappers

  function Sum(s: seq<real>): real
  {
    if |s| == 0 then 0.0 else Sum(s[..|s| - 1]) + s[|s| - 1]
  }

  /** `avg` of dashboard.js: the mean, and 0 for the empty array. */
  function Mean(s: seq<real>): real
  {
    if |s| == 0 then 0.0 else Sum(s) / (|s| as real)
  }

  /** `Math.max(...s)` for a non-empty `s`. */
  function Max(s: seq<real>): (r: real)
    requires |s| > 0
    ensures r in s
    ensures forall i :: 0 <= i < |s| ==> s[i] <= r
  {
    if |s| == 1 then s[0]
    else
      var m := Max(s[..|s| - 1]);
      if s[|s| - 1] > m then s[|s| - 1] else m
  }

  /** `Math.min(...s)` for a non-empty `s`. */
  function Min(s: seq<real>): (r: real)
    requires |s| > 0
    ensures r in s
    ensures forall i :: 0 <= i < |s| ==> r <= s[i]
  {
    if |s| == 1 then s[0]
    else
      var m := Min(s[..|s| - 1]);
      if s[|s| - 1] < m then s[|s| - 1] else m
  }

  lemma {:induction false} SumAppend(s: seq<real>, t: seq<real>)
    ensures Sum(s + t) == Sum(s) + Sum(t)
    decreases |t|
  {
    if |t| == 0 {
      assert s + t == s;
    } else {
      assert (s + t)[..|s + t| - 1] == s + t[..|t| - 1];
      SumAppend(s, t[..|t| - 1]);
    }
  }

  lemma {:induction false} SumAtMost(s: seq<real>, m: real)
    requires forall i :: 0 <= i < |s| ==> s[i] <= m
    ensures Sum(s) <= (|s| as real) * m
  {
    if |s| > 0 {
      SumAtMost(s[..|s| - 1], m);
    }
  }

  lemma {:induction false} SumAtLeast(s: seq<real>, m: real)
    requires forall i :: 0 <= i < |s| ==> m <= s[i]
    ensures (|s| as real) * m <= Sum(s)
  {
    if |s| > 0 {
      SumAtLeast(s[..|s| - 1], m);
    }
  }

  lemma MeanAtMost(s: seq<real>, m: real)
    requires |s| > 0
    requires forall i :: 0 <= i < |s| ==> s[i] <= m
    ensures Mean(s) <= m
  {
    SumAtMost(s, m);
    var n, total := |s| as real, Sum(s);
    assert total / n * n == total;
  }

  lemma MeanAtLeast(s: seq<real>, m: real)
    requires |s| > 0
    requires forall i :: 0 <= i < |s| ==> m <= s[i]
    ensures m <= Mean(s)
  {
    SumAtLeast(s, m);
    var n, total := |s| as real, Sum(s);
    assert total / n * n == total;
  }

  /** The mean of a non-empty sample lies between its minimum and maximum. */
  lemma MeanBetweenMinAndMax(s: seq<real>)
    requires |s| > 0
    ensures Min(s) <= Mean(s) <= Max(s)
  {
    MeanAtMost(s, Max(s));
    MeanAtLeast(s, Min(s));
  }

  /** A constant sample has that constant as its mean. */
  lemma {:induction false} MeanOfConstant(s: seq<real>, c: real)
    requires |s| > 0
    requires forall i :: 0 <= i < |s| ==> s[i] == c
    ensures Mean(s) == c
  {
    SumAtMost(s, c);
    SumAtLeast(s, c);
  }

  /** Mean of an array that may hold `NaN`s (`None`): `NaN` as soon as one
      element is `NaN`, as in JavaScript arithmetic. */
  function OptMean(s: seq<Option<real>>): (r: Option<real>)
    ensures r.Some? <==> forall i :: 0 <= i < |s| ==> s[i].Some?
  {
    if forall i :: 0 <= i < |s| ==> s[i].Some? then
      Some(Mean(seq(|s|, i requires 0 <= i < |s| => s[i].value)))
    else None
  }

  function SumNat(s: seq<nat>): nat
  {
    if |s| == 0 then 0 else SumNat(s[..|s| - 1]) + s[|s| - 1]
  }

  lemma {:induction false} SumNatAppend(s: seq<nat>, t: seq<nat>)
    ensures SumNat(s + t) == SumNat(s) + SumNat(t)
    decreases |t|
  {
    if |t| == 0 {
      assert s + t == s;
    } else {
      assert (s + t)[..|s + t| - 1] == s + t[..|t| - 1];
      SumNatAppend(s, t[..|t| - 1]);
    }
  }

  /** Percent change from `prev` to `curr`, forced to 0 unless `prev` is
      positive (dashboard.js:192 and the tooltip at dashboard.js:424). */
  function PercentChange(prev: real, curr: real): (r: real)
    ensures prev <= 0.0 ==> r == 0.0
    ensures prev > 0.0 ==> (r > 0.0 <==> curr > prev) && (r < 0.0 <==> curr < prev)
    ensures prev > 0.0 ==> prev + prev * r / 100.0 == curr
  {
    if prev > 0.0 then (curr - prev) / prev * 100.0 else 0.0
  }

  /** `Math.round`: the nearest integer, halves rounded up. */
  function RoundHalfUp(x: real): (r: int)
    ensures x - 0.5 < r as real <= x + 0.5
  {
    (x + 0.5).Floor
  }

  /** The nearest multiple of 0.1 to a non-negative `y`, halves rounded
      up. */
  function RoundTenth(y: real): (r: real)
    requires y >= 0.0
    ensures -0.05 < r - y <= 0.05
    ensures r >= 0.0
    ensures (r * 10.0).Floor as real == r * 10.0
  {
    var k := (y * 10.0 + 0.5).Floor;
    TenthOf(k);
    k as real / 10.0
  }

  lemma TenthOf(k: int)
    ensures (k as real / 10.0) * 10.0 == k as real
    ensures ((k as real / 10.0) * 10.0).Floor == k
  {
  }

  /** `parseFloat(x.toFixed(1))`: the nearest multiple of 0.1, halves
      rounded away from zero. */
  function ToFixed1(x: real): (r: real)
    ensures x >= 0.0 ==> -0.05 < r - x <= 0.05
    ensures x < 0.0 ==> -0.05 <= r - x < 0.05
    ensures x >= 0.0 ==> r >= 0.0
    ensures x <= 0.0 ==> r <= 0.0
    ensures (r * 10.0).Floor as real == r * 10.0
  {
    if x >= 0.0 then RoundTenth(x)
    else
      var t := RoundTenth(-x);
      assert (-t * 10.0).Floor == -((t * 10.0).Floor);
      -t
  }
}
