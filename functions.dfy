/** functions.py: the Stock helpers that fetch a fresh frame on every call,
    and the free functions RSI and overbought_oversold.

    The Yahoo download behind get_hist_data is the parameter `fetched`:
    Some(rows) when DataReader delivers, None when it raises. Every method
    of Stock catches every exception, prints a message and returns None;
    that None is the Option None of the results here. */
module Functions {
  import opened PriceData
  import opened PriceSummary
  import opened Bollinger
  import opened BandSignals
  import opened RsiSignals

  /** The defaults add_Bollinger_Band is called with by BBand_Outliers. */
  const DefaultWindow: int := 20
  const DefaultNumSd: real := 2.0

  /** The number of trailing rows BBand_Outliers inspects, whatever
      last_n_days says. */
  const InspectedRows: int := 3

  /** Stock.get_Min_and_Max: the summary of the fetched frame; None when the
      fetch fails or the frame is empty (idxmax raises on an empty column). */
  function GetMinAndMax(symbol: string, fetched: Option<seq<Bar>>): (r: Option<Summary>)
    ensures r.Some? <==> fetched.Some? && |fetched.value| > 0
    ensures r.Some? ==> Describes(r.value, symbol, fetched.value)
  {
    if fetched.None? then None else Summarize(symbol, fetched.value)
  }

  /** Stock.add_Bollinger_Band: the columns are written into the freshly
      fetched frame and the frame without rolling_std is returned. A
      negative window makes rolling() raise before any column is written. */
  method AddBollingerBand(fetched: Option<seq<Bar>>, windowSize: int, numSd: real, sd: seq<real> -> real)
    returns (r: Option<seq<BandedBar>>)
    ensures r.Some? <==> fetched.Some? && windowSize >= 0
    ensures r.Some? ==> r.value == BollingerRows(fetched.value, windowSize, numSd, sd)
  {
    if fetched.None? {
      return None;
    }
    var df := new Frame(fetched.value);
    if windowSize < 0 {
      return None;
    }
    df.AddBollingerColumns(windowSize, numSd, sd);
    r := df.WithoutStd();
  }

  /** Stock.BBand_Outliers: the bands with the default window and width,
      the last three rows (last_n_days is ignored), the classification, and
      None as the indicator when no test passes. When the fetch fails the
      whole call gives None. */
  method BBandOutliers(symbol: string, fetched: Option<seq<Bar>>, lastNDays: int, sd: seq<real> -> real)
    returns (r: Option<BandReport>)
    ensures r.Some? <==> fetched.Some?
    ensures r.Some? ==>
              var rows := BollingerRows(fetched.value, DefaultWindow, DefaultNumSd, sd);
              r.value.symbol == symbol &&
              r.value.indicator == ReportedOrNone(Classify(rows[|rows| - Min(InspectedRows, |rows|)..]))
    ensures r.Some? ==>
              var rows := BollingerRows(fetched.value, DefaultWindow, DefaultNumSd, sd);
              (r.value.indicator.None? <==>
                 forall x :: x in rows[|rows| - Min(InspectedRows, |rows|)..] ==>
                   !SomeFieldAbove(x) && !SomeFieldBelow(x))
  {
    var df := AddBollingerBand(fetched, DefaultWindow, DefaultNumSd, sd);
    if df.None? {
      return None;
    }
    var subdf := SliceFrom(df.value, -InspectedRows);
    ClassifyOutcomes(subdf);
    r := Some(BandReport(symbol, ReportedOrNone(Classify(subdf))));
  }

  /** `a == True & b == True`: `&` binds tighter than `==`, so Python reads
      the chained comparison a == (True & b) == True. It holds exactly when
      both tests hold. */
  function ChainedTest(a: bool, b: bool): (r: bool)
    ensures r <==> a && b
  {
    var mid := true && b;
    a == mid && mid == true
  }

  /** overbought_oversold: the if/elif chain over the last last_n_days RSI
      values, then a separate `if` for Overbought that overrides it. When
      neither assigned `indicator`, `return indicator` raises and the
      handler returns None. Every outcome, stated over the inspected values:
      Overbought whenever some value reaches 80, even when another is at
      most 20; otherwise Oversold, Maybe Oversold or None; never Maybe
      Overbought. */
  function OverboughtOversold(series: seq<Option<real>>, lastNDays: int): (r: Option<RsiSignal>)
    ensures var sub := SliceFrom(series, -lastNDays);
            (r == Some(Overbought) <==> SomeAtLeast(sub, 80.0)) &&
            (r == Some(Oversold) <==> SomeAtMost(sub, 20.0) && !SomeAtLeast(sub, 80.0)) &&
            (r == Some(MaybeOversold) <==>
               AllAbove(sub, 20.0) && SomeAtMost(sub, 30.0) && !SomeAtLeast(sub, 80.0)) &&
            r != Some(MaybeOverbought) &&
            (r == None <==>
               !SomeAtMost(sub, 20.0) && !SomeAtLeast(sub, 80.0) &&
               !(AllAbove(sub, 20.0) && SomeAtMost(sub, 30.0)))
  {
    var sub := SliceFrom(series, -lastNDays);
    MasksMean(sub);
    var chained :=
      if AnyTrue(Mask(sub, AtMost, 20.0)) then Some(Oversold)
      else if ChainedTest(AllTrue(Mask(sub, Above, 20.0)), AnyTrue(Mask(sub, AtMost, 30.0))) then Some(MaybeOversold)
      else if ChainedTest(AllTrue(Mask(sub, Below, 70.0)), AnyTrue(Mask(sub, AtLeast, 70.0))) then Some(MaybeOverbought)
      else None;
    if AnyTrue(Mask(sub, AtLeast, 80.0)) then Some(Overbought) else chained
  }

  /** With no NaN among the inspected values the result is None exactly when
      every value lies strictly between 30 and 80. */
  lemma QuietSeriesHasNoSignal(series: seq<Option<real>>, lastNDays: int)
    requires AllDefined(SliceFrom(series, -lastNDays))
    ensures OverboughtOversold(series, lastNDays) == None <==>
              DefinedWithin(SliceFrom(series, -lastNDays), 30.0, 80.0)
  {
    DefinedValues(SliceFrom(series, -lastNDays), 20.0, 30.0, 80.0);
  }
}
