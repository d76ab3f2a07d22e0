/** IndicatorEngine: the 20- and 50-period simple moving averages of the
    closes and the 14-period RSI (simple-average variant), each as a column
    aligned with the closes, with `None` where pandas has NaN. */
module IndicatorEngine {
  import opened Cells

  const FastWindow: nat := 20
  const SlowWindow: nat := 50
  const RsiWindow: nat := 14

  /** Sum of a sequence, accumulated from the front. */
  function Sum(s: seq<real>): (total: real)
  {
    if |s| == 0 then 0.0 else Sum(s[..|s| - 1]) + s[|s| - 1]
  }

  /** The `w` values ending at index `i`, inclusive. */
  function Window(xs: seq<real>, w: nat, i: nat): (win: seq<real>)
    requires 0 < w <= i + 1 <= |xs|
    ensures |win| == w
    ensures forall k :: 0 <= k < w ==> win[k] == xs[i + 1 - w + k]
  {
    xs[i + 1 - w .. i + 1]
  }

  /** `xs.rolling(window=w).mean()`: NaN until a full window exists. Over
      the closes with `w` = 20 and 50 it gives MA20 and MA50. */
  function Rolling(xs: seq<real>, w: nat): (r: seq<Option<real>>)
    requires w > 0
    ensures |r| == |xs|
    ensures forall i :: 0 <= i < |xs| ==> (r[i].Some? <==> i >= w - 1)
    ensures forall i :: w - 1 <= i < |xs| ==>
              r[i].value * (w as real) == Sum(xs[i + 1 - w .. i + 1])
  {
    seq(|xs|, i requires 0 <= i < |xs| =>
      if i + 1 >= w then Some(Sum(Window(xs, w, i)) / (w as real)) else None)
  }

  /** `close.diff()`: NaN at index 0. */
  function Delta(closes: seq<real>): (d: seq<Option<real>>)
    ensures |d| == |closes|
    ensures forall i :: 0 <= i < |closes| ==> (d[i].None? <==> i == 0)
  {
    seq(|closes|, i requires 0 <= i < |closes| =>
      if i == 0 then None else Some(closes[i] - closes[i - 1]))
  }

  /** `delta.where(delta > 0, 0)`: the NaN at index 0 fails `> 0` and becomes 0. */
  function Gains(closes: seq<real>): (g: seq<real>)
    ensures |g| == |closes|
    ensures forall i :: 0 <= i < |closes| ==> g[i] >= 0.0
  {
    var d := Delta(closes);
    seq(|closes|, i requires 0 <= i < |closes| =>
      if Gt(d[i], Some(0.0)) then d[i].value else 0.0)
  }

  /** `-delta.where(delta < 0, 0)`. */
  function Losses(closes: seq<real>): (l: seq<real>)
    ensures |l| == |closes|
    ensures forall i :: 0 <= i < |closes| ==> l[i] >= 0.0
  {
    var d := Delta(closes);
    seq(|closes|, i requires 0 <= i < |closes| =>
      -(if Lt(d[i], Some(0.0)) then d[i].value else 0.0))
  }

  /** `gain.rolling(14).mean()`: defined from index 13 on, never negative. */
  function AvgGain(closes: seq<real>): (a: seq<Option<real>>)
    ensures |a| == |closes|
    ensures forall i :: 0 <= i < |closes| ==> (a[i].Some? <==> i >= RsiWindow - 1)
    ensures forall i :: 0 <= i < |closes| && a[i].Some? ==> a[i].value >= 0.0
  {
    RollingNonNegative(Gains(closes), RsiWindow);
    Rolling(Gains(closes), RsiWindow)
  }

  /** `loss.rolling(14).mean()`: defined from index 13 on, never negative. */
  function AvgLoss(closes: seq<real>): (a: seq<Option<real>>)
    ensures |a| == |closes|
    ensures forall i :: 0 <= i < |closes| ==> (a[i].Some? <==> i >= RsiWindow - 1)
    ensures forall i :: 0 <= i < |closes| && a[i].Some? ==> a[i].value >= 0.0
  {
    RollingNonNegative(Losses(closes), RsiWindow);
    Rolling(Losses(closes), RsiWindow)
  }

  /** `100 - 100 / (1 + g / l)` in float arithmetic: with `l == 0` the ratio
      is +inf when `g > 0` (so the RSI is 100) and NaN when `g == 0`. The
      result is the closed form `100 g / (g + l)`, defined exactly when
      `g + l > 0`. */
  function RsiOf(g: real, l: real): (r: Option<real>)
    requires g >= 0.0 && l >= 0.0
    ensures r.Some? <==> g + l > 0.0
    ensures r.Some? ==> r.value == 100.0 * g / (g + l)
    ensures r.Some? ==> 0.0 <= r.value <= 100.0
    ensures r.Some? ==> (r.value == 100.0 <==> l == 0.0)
    ensures r.Some? ==> (r.value == 0.0 <==> g == 0.0)
  {
    if l > 0.0 then
      var rs := g / l;
      assert 100.0 / (1.0 + rs) == 100.0 * l / (g + l) by {
        assert (1.0 + rs) * l == g + l;
      }
      Some(100.0 - 100.0 / (1.0 + rs))
    else if g > 0.0 then Some(100.0)
    else None
  }

  /** `df['RSI']`: NaN where either average is NaN or the division is 0/0. */
  function Rsi(closes: seq<real>): (rsi: seq<Option<real>>)
    ensures |rsi| == |closes|
    ensures forall i :: 0 <= i < |closes| ==>
              (rsi[i].Some? <==> i >= RsiWindow - 1 && AvgGain(closes)[i].value + AvgLoss(closes)[i].value > 0.0)
    ensures forall i :: 0 <= i < |closes| && rsi[i].Some? ==> 0.0 <= rsi[i].value <= 100.0
  {
    var ag, al := AvgGain(closes), AvgLoss(closes);
    seq(|closes|, i requires 0 <= i < |closes| =>
      if ag[i].Some? && al[i].Some? then RsiOf(ag[i].value, al[i].value) else None)
  }

  // ---------------------------------------------------------------------
  // Sums

  lemma {:induction false} SumNonNegative(s: seq<real>)
    requires forall k :: 0 <= k < |s| ==> s[k] >= 0.0
    ensures Sum(s) >= 0.0
  {
    if |s| > 0 {
      SumNonNegative(s[..|s| - 1]);
    }
  }

  lemma {:induction false} SumZero(s: seq<real>)
    requires forall k :: 0 <= k < |s| ==> s[k] == 0.0
    ensures Sum(s) == 0.0
  {
    if |s| > 0 {
      SumZero(s[..|s| - 1]);
    }
  }

  lemma {:induction false} SumPositive(s: seq<real>, j: nat)
    requires forall k :: 0 <= k < |s| ==> s[k] >= 0.0
    requires j < |s| && s[j] > 0.0
    ensures Sum(s) > 0.0
  {
    if j == |s| - 1 {
      SumNonNegative(s[..|s| - 1]);
    } else {
      SumPositive(s[..|s| - 1], j);
    }
  }

  lemma {:induction false} SumBounds(s: seq<real>, lo: real, hi: real)
    requires forall k :: 0 <= k < |s| ==> lo <= s[k] <= hi
    ensures (|s| as real) * lo <= Sum(s) <= (|s| as real) * hi
  {
    if |s| > 0 {
      SumBounds(s[..|s| - 1], lo, hi);
    }
  }

  // ---------------------------------------------------------------------
  // Moving averages

  /** A rolling mean of non-negative values is never negative. */
  lemma RollingNonNegative(xs: seq<real>, w: nat)
    requires w > 0
    requires forall k :: 0 <= k < |xs| ==> xs[k] >= 0.0
    ensures forall i :: 0 <= i < |xs| && Rolling(xs, w)[i].Some? ==> Rolling(xs, w)[i].value >= 0.0
  {
    forall i | 0 <= i < |xs| && Rolling(xs, w)[i].Some? ensures Rolling(xs, w)[i].value >= 0.0 {
      SumNonNegative(Window(xs, w, i));
    }
  }

  /** A moving average lies between the least and the greatest close of its
      window; in particular a flat run of closes has that close as average. */
  lemma MovingAverageWithinWindow(closes: seq<real>, w: nat, i: nat, lo: real, hi: real)
    requires 0 < w <= i + 1 <= |closes|
    requires forall k :: i + 1 - w <= k <= i ==> lo <= closes[k] <= hi
    ensures Rolling(closes, w)[i].Some?
    ensures lo <= Rolling(closes, w)[i].value <= hi
  {
    var win := Window(closes, w, i);
    SumBounds(win, lo, hi);
  }

  // ---------------------------------------------------------------------
  // Gains and losses

  lemma GainLoss(closes: seq<real>, i: nat)
    requires i < |closes|
    ensures Gains(closes)[i] >= 0.0 && Losses(closes)[i] >= 0.0
    ensures Gains(closes)[i] == 0.0 || Losses(closes)[i] == 0.0
    ensures i == 0 ==> Gains(closes)[i] == 0.0 && Losses(closes)[i] == 0.0
    ensures i >= 1 ==> Gains(closes)[i] - Losses(closes)[i] == closes[i] - closes[i - 1]
  {
  }

  // ---------------------------------------------------------------------
  // RSI

  /** RSI is defined exactly from index 13 on, where the two averages do
      not both vanish; then it lies in [0, 100], is 100 exactly when the
      average loss is 0 and 0 exactly when the average gain is 0. */
  lemma RsiDefinedAndBounded(closes: seq<real>, i: nat)
    requires i < |closes|
    ensures Rsi(closes)[i].Some? <==>
              i >= RsiWindow - 1 &&
              AvgGain(closes)[i].value + AvgLoss(closes)[i].value > 0.0
    ensures Rsi(closes)[i].Some? ==>
              0.0 <= Rsi(closes)[i].value <= 100.0 &&
              (Rsi(closes)[i].value == 100.0 <==> AvgLoss(closes)[i].value == 0.0) &&
              (Rsi(closes)[i].value == 0.0 <==> AvgGain(closes)[i].value == 0.0)
  {
  }

  /** Index of the close the RSI window at `i` measures the change from:
      `i - 14`, or 0 at `i == 13` where the window starts with the NaN delta. */
  function Base(i: nat): (b: nat)
  {
    if i >= RsiWindow then i - RsiWindow else 0
  }

  /** Gains minus losses over indices `a..b` telescope to the change of
      the close over that stretch. */
  lemma {:induction false} Telescope(closes: seq<real>, a: nat, b: nat)
    requires a <= b < |closes|
    ensures Sum(Gains(closes)[a .. b + 1]) - Sum(Losses(closes)[a .. b + 1])
            == closes[b] - closes[if a == 0 then 0 else a - 1]
  {
    var g, l := Gains(closes)[a .. b + 1], Losses(closes)[a .. b + 1];
    GainLoss(closes, b);
    if b == a {
      assert g[..0] == [] && l[..0] == [];
    } else {
      Telescope(closes, a, b - 1);
      assert g[..|g| - 1] == Gains(closes)[a .. b];
      assert l[..|l| - 1] == Losses(closes)[a .. b];
    }
  }

  /** The averages differ by the 14-period change of the close, so RSI is
      above, at or below 50 exactly as the close rose, held or fell over
      the window. */
  lemma RsiTrend(closes: seq<real>, i: nat)
    requires RsiWindow - 1 <= i < |closes|
    ensures (AvgGain(closes)[i].value - AvgLoss(closes)[i].value) * (RsiWindow as real)
            == closes[i] - closes[Base(i)]
    ensures Rsi(closes)[i].Some? ==>
              (Rsi(closes)[i].value > 50.0 <==> closes[i] > closes[Base(i)]) &&
              (Rsi(closes)[i].value == 50.0 <==> closes[i] == closes[Base(i)]) &&
              (Rsi(closes)[i].value < 50.0 <==> closes[i] < closes[Base(i)])
  {
    var a := i + 1 - RsiWindow;
    Telescope(closes, a, i);
    assert Window(Gains(closes), RsiWindow, i) == Gains(closes)[a .. i + 1];
    assert Window(Losses(closes), RsiWindow, i) == Losses(closes)[a .. i + 1];
    if Rsi(closes)[i].Some? {
      var g, l := AvgGain(closes)[i].value, AvgLoss(closes)[i].value;
      var r := Rsi(closes)[i].value;
      assert r * (g + l) == 100.0 * g;
      assert (r - 50.0) * (g + l) == 50.0 * (g - l);
      SignOfProduct(r - 50.0, g + l);
    }
  }

  lemma SignOfProduct(x: real, y: real)
    requires y > 0.0
    ensures x > 0.0 <==> x * y > 0.0
    ensures x == 0.0 <==> x * y == 0.0
  {
  }

  /** A run of strictly falling closes over the whole RSI window drives the
      RSI to 0: every gain in the window is 0 and the last loss is not. */
  lemma FallingRunRsiZero(closes: seq<real>, i: nat)
    requires RsiWindow - 1 <= i < |closes|
    requires forall j :: i + 1 - RsiWindow <= j <= i && j >= 1 ==> closes[j] < closes[j - 1]
    ensures Rsi(closes)[i] == Some(0.0)
  {
    var g, l := Window(Gains(closes), RsiWindow, i), Window(Losses(closes), RsiWindow, i);
    forall k | 0 <= k < |g| ensures g[k] == 0.0 && l[k] >= 0.0 {
      GainLoss(closes, i + 1 - RsiWindow + k);
    }
    SumZero(g);
    GainLoss(closes, i);
    SumPositive(l, RsiWindow - 1);
    var ag, al := AvgGain(closes)[i], AvgLoss(closes)[i];
    assert ag == Some(Sum(g) / (RsiWindow as real)) && al == Some(Sum(l) / (RsiWindow as real));
    assert ag.value == 0.0 && al.value > 0.0;
    assert Rsi(closes)[i] == RsiOf(ag.value, al.value);
  }
}
