/** SignalClassifier: one Buy/Sell/Hold per period, from the moving-average
    crossover, overwritten first by the oversold rule (RSI < 30 gives Buy)
    and then by the overbought rule (RSI > 70 gives Sell). */
module SignalClassifier {
  import opened Cells

  datatype Signal = Buy | Sell | Hold

  const Oversold: real := 30.0
  const Overbought: real := 70.0

  /** MA20 rises strictly above MA50 at `i`, having been at or below it at `i - 1`. */
  predicate GoldenCross(ma20: seq<Option<real>>, ma50: seq<Option<real>>, i: nat)
    requires 1 <= i < |ma20| == |ma50|
  {
    Gt(ma20[i], ma50[i]) && Le(ma20[i - 1], ma50[i - 1])
  }

  /** MA20 falls strictly below MA50 at `i`, having been at or above it at `i - 1`. */
  predicate DeathCross(ma20: seq<Option<real>>, ma50: seq<Option<real>>, i: nat)
    requires 1 <= i < |ma20| == |ma50|
  {
    Lt(ma20[i], ma50[i]) && Ge(ma20[i - 1], ma50[i - 1])
  }

  /** What the crossover loop leaves at `i`: index 0 is never visited. */
  function CrossoverAt(ma20: seq<Option<real>>, ma50: seq<Option<real>>, i: nat): (sig: Signal)
    requires i < |ma20| == |ma50|
    ensures sig == Buy <==> i >= 1 && GoldenCross(ma20, ma50, i)
    ensures sig == Sell <==> i >= 1 && DeathCross(ma20, ma50, i)
  {
    if i == 0 then Hold
    else if GoldenCross(ma20, ma50, i) then Buy
    else if DeathCross(ma20, ma50, i) then Sell
    else Hold
  }

  /** The Signal column after the crossover loop. */
  function Crossovers(ma20: seq<Option<real>>, ma50: seq<Option<real>>): (s: seq<Signal>)
    requires |ma20| == |ma50|
    ensures |s| == |ma20|
    ensures |s| > 0 ==> s[0] == Hold
    ensures forall i :: 0 <= i < |s| ==> s[i] == CrossoverAt(ma20, ma50, i)
  {
    seq(|ma20|, i requires 0 <= i < |ma20| => CrossoverAt(ma20, ma50, i))
  }

  /** `df.loc[mask, 'Signal'] = v`. */
  function Overwrite(s: seq<Signal>, mask: seq<bool>, v: Signal): (r: seq<Signal>)
    requires |mask| == |s|
    ensures |r| == |s|
    ensures forall i :: 0 <= i < |s| ==> r[i] == (if mask[i] then v else s[i])
  {
    seq(|s|, i requires 0 <= i < |s| => if mask[i] then v else s[i])
  }

  /** `df['RSI'] < 30` (false where the RSI is NaN). */
  function OversoldMask(rsi: seq<Option<real>>): (m: seq<bool>)
    ensures |m| == |rsi|
    ensures forall i :: 0 <= i < |rsi| ==> (m[i] <==> rsi[i].Some? && rsi[i].value < Oversold)
  {
    seq(|rsi|, i requires 0 <= i < |rsi| => Lt(rsi[i], Some(Oversold)))
  }

  /** `df['RSI'] > 70` (false where the RSI is NaN). */
  function OverboughtMask(rsi: seq<Option<real>>): (m: seq<bool>)
    ensures |m| == |rsi|
    ensures forall i :: 0 <= i < |rsi| ==> (m[i] <==> rsi[i].Some? && rsi[i].value > Overbought)
  {
    seq(|rsi|, i requires 0 <= i < |rsi| => Gt(rsi[i], Some(Overbought)))
  }

  /** The final Signal column: the three layers in their fixed order. */
  function Signals(ma20: seq<Option<real>>, ma50: seq<Option<real>>, rsi: seq<Option<real>>): (s: seq<Signal>)
    requires |ma20| == |ma50| == |rsi|
    ensures |s| == |ma20|
    ensures forall i :: 0 <= i < |s| && Gt(rsi[i], Some(Overbought)) ==> s[i] == Sell
  {
    Overwrite(Overwrite(Crossovers(ma20, ma50), OversoldMask(rsi), Buy), OverboughtMask(rsi), Sell)
  }

  /** `df['Signal'] = 'Hold'`, the crossover loop over `range(1, len(df))`
      writing in place, and the two masked overwrites. */
  method Classify(ma20: seq<Option<real>>, ma50: seq<Option<real>>, rsi: seq<Option<real>>)
    returns (signals: seq<Signal>)
    requires |ma20| == |ma50| == |rsi|
    ensures signals == Signals(ma20, ma50, rsi)
  {
    var n := |ma20|;
    var column := new Signal[n](_ => Hold);
    var i := 1;
    while i < n
      invariant 1 <= i && (i <= n || n == 0)
      invariant forall k :: 0 <= k < n ==>
                  column[k] == if k < i then CrossoverAt(ma20, ma50, k) else Hold
    {
      if Gt(ma20[i], ma50[i]) && Le(ma20[i - 1], ma50[i - 1]) {
        column[i] := Buy;
      } else if Lt(ma20[i], ma50[i]) && Ge(ma20[i - 1], ma50[i - 1]) {
        column[i] := Sell;
      }
      i := i + 1;
    }
    ghost var crossed := column[..];
    assert crossed == Crossovers(ma20, ma50);
    var j := 0;
    while j < n
      invariant 0 <= j <= n
      invariant forall k :: 0 <= k < n ==>
                  column[k] == if k < j && Lt(rsi[k], Some(Oversold)) then Buy else crossed[k]
    {
      if Lt(rsi[j], Some(Oversold)) {
        column[j] := Buy;
      }
      j := j + 1;
    }
    ghost var oversold := column[..];
    assert oversold == Overwrite(crossed, OversoldMask(rsi), Buy);
    j := 0;
    while j < n
      invariant 0 <= j <= n
      invariant forall k :: 0 <= k < n ==>
                  column[k] == if k < j && Gt(rsi[k], Some(Overbought)) then Sell else oversold[k]
    {
      if Gt(rsi[j], Some(Overbought)) {
        column[j] := Sell;
      }
      j := j + 1;
    }
    signals := column[..];
  }

  // ---------------------------------------------------------------------
  // Properties of the specification

  /** The crossover loop sets Buy exactly on a golden cross with all four
      averages defined, Sell exactly on a death cross, and leaves Hold
      everywhere else, index 0 included. */
  lemma CrossoverCases(ma20: seq<Option<real>>, ma50: seq<Option<real>>, i: nat)
    requires i < |ma20| == |ma50|
    ensures Crossovers(ma20, ma50)[i] == Buy <==>
              i >= 1 && ma20[i].Some? && ma50[i].Some? && ma20[i - 1].Some? && ma50[i - 1].Some? &&
              ma20[i].value > ma50[i].value && ma20[i - 1].value <= ma50[i - 1].value
    ensures Crossovers(ma20, ma50)[i] == Sell <==>
              i >= 1 && ma20[i].Some? && ma50[i].Some? && ma20[i - 1].Some? && ma50[i - 1].Some? &&
              ma20[i].value < ma50[i].value && ma20[i - 1].value >= ma50[i - 1].value
    ensures i == 0 ==> Crossovers(ma20, ma50)[i] == Hold
  {
  }

  /** Equal averages at `i` never fire a crossover at `i`. */
  lemma NoCrossoverWhenEqual(ma20: seq<Option<real>>, ma50: seq<Option<real>>, i: nat)
    requires i < |ma20| == |ma50|
    requires ma20[i] == ma50[i]
    ensures Crossovers(ma20, ma50)[i] == Hold
  {
  }

  /** Each index ends under exactly one rule: RSI above 70 gives Sell, else
      RSI below 30 gives Buy, else the crossover result stands. */
  lemma SignalRule(ma20: seq<Option<real>>, ma50: seq<Option<real>>, rsi: seq<Option<real>>, i: nat)
    requires |ma20| == |ma50| == |rsi| && i < |rsi|
    ensures rsi[i].Some? && rsi[i].value > Overbought ==> Signals(ma20, ma50, rsi)[i] == Sell
    ensures rsi[i].Some? && rsi[i].value < Oversold ==> Signals(ma20, ma50, rsi)[i] == Buy
    ensures rsi[i].None? || Oversold <= rsi[i].value <= Overbought ==>
              Signals(ma20, ma50, rsi)[i] == Crossovers(ma20, ma50)[i]
  {
  }

  /** A golden cross where RSI is above 70 ends as Sell, a death cross where
      RSI is below 30 ends as Buy. */
  lemma OverridesBeatCrossover(ma20: seq<Option<real>>, ma50: seq<Option<real>>, rsi: seq<Option<real>>, i: nat)
    requires 1 <= i < |ma20| == |ma50| == |rsi|
    ensures GoldenCross(ma20, ma50, i) && Gt(rsi[i], Some(Overbought)) ==>
              Crossovers(ma20, ma50)[i] == Buy && Signals(ma20, ma50, rsi)[i] == Sell
    ensures DeathCross(ma20, ma50, i) && Lt(rsi[i], Some(Oversold)) ==>
              Crossovers(ma20, ma50)[i] == Sell && Signals(ma20, ma50, rsi)[i] == Buy
  {
  }
}
