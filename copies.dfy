/** Where the near-copies of the indicator code part ways: the precedence
    of overbought_oversold, and which frame wins when both a cached
    download and a frame from the caller exist. */
module CopyComparison {
  import opened PriceData
  import opened PriceSummary
  import opened RsiSignals
  import Bollinger
  import Functions
  import StockAnalysis
  import QuoteAnalysis

  /** The functions.py classifier is the StockAnalysis chain overridden by
      Overbought whenever some inspected value reaches 80. */
  lemma OverboughtPrecedence(series: seq<Option<real>>, lastNDays: int)
    ensures Functions.OverboughtOversold(series, lastNDays) ==
              if SomeAtLeast(SliceFrom(series, -lastNDays), 80.0) then Some(Overbought)
              else StockAnalysis.OverboughtOversold(series, lastNDays)
  {
  }

  /** The two classifiers disagree exactly when some inspected value
      reaches 80 while StockAnalysis stops earlier in its chain: at a value
      of at most 20 (Oversold), or at a value of at most 30 among values
      all above 20 (Maybe Oversold). */
  lemma ClassifiersDisagree(series: seq<Option<real>>, lastNDays: int)
    ensures var sub := SliceFrom(series, -lastNDays);
            Functions.OverboughtOversold(series, lastNDays) != StockAnalysis.OverboughtOversold(series, lastNDays) <==>
              SomeAtLeast(sub, 80.0) &&
              (SomeAtMost(sub, 20.0) || (AllAbove(sub, 20.0) && SomeAtMost(sub, 30.0)))
  {
  }

  /** RSI values 18 then 85: functions.py reports Overbought, StockAnalysis
      Oversold. */
  lemma LowThenHighDisagree()
    ensures Functions.OverboughtOversold([Some(18.0), Some(85.0)], 2) == Some(Overbought)
    ensures StockAnalysis.OverboughtOversold([Some(18.0), Some(85.0)], 2) == Some(Oversold)
  {
    var s := [Some(18.0), Some(85.0)];
    assert SliceFrom(s, -2) == s;
    assert s[0].Some? && s[0].value <= 20.0;
    assert s[1].Some? && s[1].value >= 80.0;
  }

  /** RSI values 25 then 85: functions.py reports Overbought, StockAnalysis
      Maybe Oversold. */
  lemma NearLowThenHighDisagree()
    ensures Functions.OverboughtOversold([Some(25.0), Some(85.0)], 2) == Some(Overbought)
    ensures StockAnalysis.OverboughtOversold([Some(25.0), Some(85.0)], 2) == Some(MaybeOversold)
  {
    var t := [Some(25.0), Some(85.0)];
    assert SliceFrom(t, -2) == t;
    assert t[0].Some? && t[0].value <= 30.0;
    assert t[1].Some? && t[1].value >= 80.0;
    assert AllAbove(t, 20.0);
    assert !SomeAtMost(t, 20.0);
  }

  /** The same situation given to both Analysis classes: each has
      downloaded `cached` already, and the caller passes a frame holding
      `passed`. StockAnalysis summarises the caller's frame, the analysis/
      copy the cached download. */
  method CachePrecedenceDiffers(symbol: string, cached: seq<Bar>, passed: seq<Bar>)
    returns (fromStock: Option<Summary>, fromQuote: Outcome<Summary>)
    requires |cached| > 0 && |passed| > 0
    ensures fromStock.Some? && Describes(fromStock.value, symbol, passed)
    ensures fromQuote.Ok? && Describes(fromQuote.value, symbol, cached)
  {
    var stock := new StockAnalysis.Analysis(symbol, k => Some(cached));
    var okStock := stock.GetHistData();
    var quote := new QuoteAnalysis.Analysis(symbol, k => Some(cached));
    var okQuote := quote.GetQuote();
    var frame := new Bollinger.Frame(passed);
    fromStock := stock.MinMax(frame);
    fromQuote := quote.MinMax(frame);
  }
}
