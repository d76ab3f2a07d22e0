/** The script's run over one downloaded series: stop on an empty download,
    compute the indicator columns, classify, and report the last row. */
module Pipeline {
  import opened Cells
  import opened IndicatorEngine
  import opened SignalClassifier

  datatype Error = NoData

  /** The data frame after app.py has added its columns. */
  datatype Frame = Frame(
    close: seq<real>,
    ma20: seq<Option<real>>,
    ma50: seq<Option<real>>,
    rsi: seq<Option<real>>,
    signal: seq<Signal>)

  /** One row of the frame, as `df.iloc[k]` gives it. */
  datatype Row = Row(close: real, ma20: Option<real>, ma50: Option<real>, rsi: Option<real>, signal: Signal)

  /** Every column has one entry per close. */
  predicate Aligned(f: Frame)
  {
    |f.ma20| == |f.close| && |f.ma50| == |f.close| && |f.rsi| == |f.close| && |f.signal| == |f.close|
  }

  /** The signals the script derives from a series of closes. */
  function SignalsOf(closes: seq<real>): (s: seq<Signal>)
    ensures |s| == |closes|
  {
    Signals(Rolling(closes, FastWindow), Rolling(closes, SlowWindow), Rsi(closes))
  }

  /** Lines 20-47 of the script: an empty download stops the run; otherwise
      the frame holds the closes, the three indicator columns and the
      signals, one entry per close. */
  method Analyze(closes: seq<real>) returns (r: Result<Frame, Error>)
    ensures r.Failure? <==> |closes| == 0
    ensures r.Success? ==>
              Aligned(r.value) && r.value.close == closes &&
              r.value.ma20 == Rolling(closes, FastWindow) &&
              r.value.ma50 == Rolling(closes, SlowWindow) &&
              r.value.rsi == Rsi(closes) &&
              r.value.signal == SignalsOf(closes)
  {
    if |closes| == 0 {
      return Failure(NoData);
    }
    var ma20 := Rolling(closes, FastWindow);
    var ma50 := Rolling(closes, SlowWindow);
    var rsi := Rsi(closes);
    var signal := Classify(ma20, ma50, rsi);
    r := Success(Frame(closes, ma20, ma50, rsi, signal));
  }

  /** `df.iloc[-1]`: the last row of a non-empty frame. */
  function Latest(f: Frame): (row: Row)
    requires Aligned(f) && |f.close| > 0
    ensures row.close == f.close[|f.close| - 1] && row.signal == f.signal[|f.signal| - 1]
    ensures row.ma20 == f.ma20[|f.close| - 1] && row.ma50 == f.ma50[|f.close| - 1]
    ensures row.rsi == f.rsi[|f.close| - 1]
  {
    var k := |f.close| - 1;
    Row(f.close[k], f.ma20[k], f.ma50[k], f.rsi[k], f.signal[k])
  }

  // ---------------------------------------------------------------------
  // Properties of the whole run

  /** No crossover fires before index 50: MA50 is first defined at index
      49, and a crossover needs it at `i - 1` too. */
  lemma NoCrossoverBefore50(closes: seq<real>, i: nat)
    requires i < |closes| && i < SlowWindow
    ensures Crossovers(Rolling(closes, FastWindow), Rolling(closes, SlowWindow))[i] == Hold
  {
    var ma20, ma50 := Rolling(closes, FastWindow), Rolling(closes, SlowWindow);
    if i >= 1 {
      assert ma50[i - 1].None?;
    }
  }

  /** Before index 13 neither the RSI nor the crossover is defined, so the
      signal is Hold. */
  lemma EarlyPeriodsHold(closes: seq<real>, i: nat)
    requires i < |closes| && i < RsiWindow - 1
    ensures SignalsOf(closes)[i] == Hold
  {
    NoCrossoverBefore50(closes, i);
    SignalRule(Rolling(closes, FastWindow), Rolling(closes, SlowWindow), Rsi(closes), i);
  }

  /** A run of strictly falling closes over the 14-period window forces Buy,
      whatever the crossover said. */
  lemma FallingRunForcesBuy(closes: seq<real>, i: nat)
    requires RsiWindow - 1 <= i < |closes|
    requires forall j :: i + 1 - RsiWindow <= j <= i && j >= 1 ==> closes[j] < closes[j - 1]
    ensures SignalsOf(closes)[i] == Buy
  {
    FallingRunRsiZero(closes, i);
    SignalRule(Rolling(closes, FastWindow), Rolling(closes, SlowWindow), Rsi(closes), i);
  }

  /** The headline signal of a run is the classification of the last close. */
  lemma LatestOfRun(closes: seq<real>)
    requires |closes| > 0
    ensures var f := Frame(closes, Rolling(closes, FastWindow), Rolling(closes, SlowWindow),
                           Rsi(closes), SignalsOf(closes));
            Latest(f).close == closes[|closes| - 1] &&
            Latest(f).signal ==
              (var rsi := Rsi(closes)[|closes| - 1];
               if rsi.Some? && rsi.value > Overbought then Sell
               else if rsi.Some? && rsi.value < Oversold then Buy
               else Crossovers(f.ma20, f.ma50)[|closes| - 1])
  {
    var n := |closes|;
    SignalRule(Rolling(closes, FastWindow), Rolling(closes, SlowWindow), Rsi(closes), n - 1);
  }
}
