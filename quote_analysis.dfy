/** analysis/analysis_func.py: the Analysis class built on Quote, which
    caches the downloaded frame in `quote` / `quote_gotten`.

    Unlike the StockAnalysis copy, a cached quote takes precedence over a
    frame the caller passes, and nothing is caught: a failed download, an
    empty frame or a negative window raises out of the call, which the
    model reports as Outcome.Raised. The downloads (Quote.get_quote) are the
    answers `downloads(k)`, one per attempt, and `fetches` counts the
    attempts, as in StockAnalysis. */
module QuoteAnalysis {
  import opened PriceData
  import opened PriceSummary
  import opened Bollinger
  import opened BandSignals

  /** The default arguments of Bollinger_Band and BBand_Outliers: a 20-row
      window, 2 standard deviations, and the last 3 rows inspected. */
  const DefaultWindowSize: int := 20
  const DefaultNumSd: real := 2.0
  const DefaultLastNDays: int := 3

  class Analysis {
    const symbol: string
    const downloads: nat -> Option<seq<Bar>>
    var quote: Frame?
    var quoteGotten: bool
    var fetches: nat

    /** A quote is cached exactly when quote_gotten is set. */
    ghost predicate Valid()
      reads this
    {
      quoteGotten <==> quote != null
    }

    /** What the next download gives. */
    function NextDownload(): Option<seq<Bar>>
      reads this
    {
      downloads(fetches)
    }

    /** The rows Min_Max and Bollinger_Band read: the cached quote when
        there is one, else the caller's frame, else the next download. */
    function SourceBars(arg: Frame?): Option<seq<Bar>>
      reads this, arg, quote
    {
      if quote != null then Some(quote.bars)
      else if arg != null then Some(arg.bars)
      else NextDownload()
    }

    /** __init__: nothing downloaded yet. */
    constructor (symbol: string, downloads: nat -> Option<seq<Bar>>)
      ensures Valid()
      ensures this.symbol == symbol && this.downloads == downloads
      ensures quote == null && !quoteGotten && fetches == 0
    {
      this.symbol := symbol;
      this.downloads := downloads;
      quote := null;
      quoteGotten := false;
      fetches := 0;
    }

    /** get_quote: download, cache the frame and set quote_gotten. A
        failing download raises and leaves the cache as it was. */
    method GetQuote() returns (ok: bool)
      requires Valid()
      modifies this
      ensures Valid()
      ensures fetches == old(fetches) + 1
      ensures ok <==> old(NextDownload()).Some?
      ensures ok ==>
                fresh(quote) && quoteGotten && quote.bars == old(NextDownload()).value &&
                quote.NoIndicatorColumns()
      ensures !ok ==> quote == old(quote) && quoteGotten == old(quoteGotten)
    {
      var download := downloads(fetches);
      fetches := fetches + 1;
      if download.None? {
        return false;
      }
      quote := new Frame(download.value);
      quoteGotten := true;
      ok := true;
    }

    /** The frame choice that opens Min_Max and Bollinger_Band: the cached
        quote first; then a frame passed in, used without downloading and
        without setting quote_gotten; a download only when neither exists. */
    method SelectFrame(arg: Frame?) returns (r: Outcome<Frame>)
      requires Valid()
      modifies this
      ensures Valid()
      ensures old(quoteGotten) ==>
                r == Ok(quote) && quote == old(quote) && quoteGotten && fetches == old(fetches)
      ensures !old(quoteGotten) && arg != null ==>
                r == Ok(arg) && quote == old(quote) && !quoteGotten && fetches == old(fetches)
      ensures !old(quoteGotten) && arg == null ==>
                fetches == old(fetches) + 1 &&
                (r.Ok? <==> old(NextDownload()).Some?) &&
                (r.Ok? ==> fresh(r.value) && r.value == quote && quoteGotten && quote.NoIndicatorColumns()) &&
                (r.Raised? ==> r == Raised(FetchFailed) && quote == old(quote) && !quoteGotten)
      ensures r.Ok? ==> Some(r.value.bars) == old(SourceBars(arg))
    {
      if quoteGotten {
        return Ok(quote);
      }
      if arg != null {
        return Ok(arg);
      }
      var ok := GetQuote();
      if !ok {
        return Raised(FetchFailed);
      }
      r := Ok(quote);
    }

    /** Min_Max: the summary of the chosen frame. Nothing is caught, so a
        failed download raises, and so does idxmax on an empty frame. */
    method MinMax(arg: Frame?) returns (r: Outcome<Summary>)
      requires Valid()
      modifies this
      ensures Valid()
      ensures fetches == old(fetches) + (if !old(quoteGotten) && arg == null then 1 else 0)
      ensures old(quoteGotten) ==> quoteGotten && quote == old(quote)
      ensures !old(quoteGotten) && arg != null ==> !quoteGotten && quote == old(quote)
      ensures !old(quoteGotten) && arg == null ==>
                (quoteGotten <==> old(NextDownload()).Some?) &&
                (quoteGotten ==> fresh(quote) && quote.bars == old(NextDownload()).value && quote.NoIndicatorColumns()) &&
                (!quoteGotten ==> quote == null)
      ensures old(SourceBars(arg)).None? ==> r == Raised(FetchFailed)
      ensures old(SourceBars(arg)).Some? && |old(SourceBars(arg)).value| == 0 ==> r == Raised(EmptySeries)
      ensures r.Ok? ==> Describes(r.value, symbol, old(SourceBars(arg)).value)
      ensures r.Ok? <==> old(SourceBars(arg)).Some? && |old(SourceBars(arg)).value| > 0
    {
      var df := SelectFrame(arg);
      if df.Raised? {
        return Raised(df.failure);
      }
      var s := Summarize(symbol, df.value.bars);
      if s.None? {
        return Raised(EmptySeries);
      }
      r := Ok(s.value);
    }

    /** Bollinger_Band: writes the four columns into the chosen frame and
        returns it without rolling_std. The frame is chosen (and possibly
        downloaded) before rolling() rejects a negative window. */
    method BollingerBand(windowSize: int, numSd: real, arg: Frame?, sd: seq<real> -> real)
      returns (r: Outcome<seq<BandedBar>>)
      requires Valid()
      modifies this, arg, quote
      ensures Valid()
      ensures fetches == old(fetches) + (if !old(quoteGotten) && arg == null then 1 else 0)
      ensures old(quoteGotten) ==> quoteGotten && quote == old(quote)
      ensures !old(quoteGotten) && arg != null ==> !quoteGotten && quote == old(quote)
      ensures !old(quoteGotten) && arg == null ==>
                (quoteGotten <==> old(NextDownload()).Some?) && (quoteGotten ==> fresh(quote) && quote.bars == old(NextDownload()).value) &&
                (!quoteGotten ==> quote == null) &&
                (quoteGotten && windowSize < 0 ==> quote.NoIndicatorColumns())
      ensures old(SourceBars(arg)).None? ==> r == Raised(FetchFailed)
      ensures old(SourceBars(arg)).Some? && windowSize < 0 ==> r == Raised(NegativeWindow)
      ensures r.Ok? <==> old(SourceBars(arg)).Some? && windowSize >= 0
      ensures r.Ok? ==> r.value == BollingerRows(old(SourceBars(arg)).value, windowSize, numSd, sd)
      ensures r.Ok? ==>
                var f := if quoteGotten then quote else arg;
                f != null && f.bars == old(SourceBars(arg)).value && f.WithoutStd() == Some(r.value) &&
                f.rollingStd == Some(RollingStdColumn(Closes(f.bars), windowSize, sd))
      ensures old(quoteGotten) && arg != null && arg != old(quote) ==> unchanged(arg)
      ensures windowSize < 0 && arg != null ==> unchanged(arg)
      ensures windowSize < 0 && old(quote) != null ==> unchanged(old(quote))
    {
      var df := SelectFrame(arg);
      if df.Raised? {
        return Raised(df.failure);
      }
      if windowSize < 0 {
        return Raised(NegativeWindow);
      }
      var f := df.value;
      f.AddBollingerColumns(windowSize, numSd, sd);
      r := Ok(f.WithoutStd().value);
    }

    /** BBand_Outliers: the classification of tail(last_n_days) with the
        string " " as the fallback; the failures of Bollinger_Band pass
        through. */
    method BBandOutliers(lastNDays: int, windowSize: int, numSd: real, arg: Frame?, sd: seq<real> -> real)
      returns (r: Outcome<BandReport>)
      requires Valid()
      modifies this, arg, quote
      ensures Valid()
      ensures fetches == old(fetches) + (if !old(quoteGotten) && arg == null then 1 else 0)
      ensures old(quoteGotten) ==> quoteGotten && quote == old(quote)
      ensures !old(quoteGotten) && arg != null ==> !quoteGotten && quote == old(quote)
      ensures !old(quoteGotten) && arg == null ==>
                (quoteGotten <==> old(NextDownload()).Some?) && (quoteGotten ==> fresh(quote) && quote.bars == old(NextDownload()).value) &&
                (!quoteGotten ==> quote == null) &&
                (quoteGotten && windowSize < 0 ==> quote.NoIndicatorColumns())
      ensures old(SourceBars(arg)).None? ==> r == Raised(FetchFailed)
      ensures old(SourceBars(arg)).Some? && windowSize < 0 ==> r == Raised(NegativeWindow)
      ensures r.Ok? <==> old(SourceBars(arg)).Some? && windowSize >= 0
      ensures r.Ok? ==>
                var f := if quoteGotten then quote else arg;
                f != null && f.bars == old(SourceBars(arg)).value &&
                f.WithoutStd() == Some(BollingerRows(f.bars, windowSize, numSd, sd)) &&
                f.rollingStd == Some(RollingStdColumn(Closes(f.bars), windowSize, sd))
      ensures old(quoteGotten) && arg != null && arg != old(quote) ==> unchanged(arg)
      ensures windowSize < 0 && arg != null ==> unchanged(arg)
      ensures windowSize < 0 && old(quote) != null ==> unchanged(old(quote))
      ensures r.Ok? ==>
                var rows := BollingerRows(old(SourceBars(arg)).value, windowSize, numSd, sd);
                r.value.symbol == symbol &&
                r.value.indicator == ReportedOrBlank(Classify(Tail(rows, lastNDays)))
      ensures r.Ok? && lastNDays == 0 ==> r.value.indicator == Some(" ")
    {
      var df := BollingerBand(windowSize, numSd, arg, sd);
      if df.Raised? {
        return Raised(df.failure);
      }
      var subdf := Tail(df.value, lastNDays);
      r := Ok(BandReport(symbol, ReportedOrBlank(Classify(subdf))));
    }
  }
}
