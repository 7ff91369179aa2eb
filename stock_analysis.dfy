/** StockAnalysis/analysis_func.py: the Analysis class, which caches the
    downloaded frame in `data` / `data_gotten`, and its indicators.

    The downloads (GetData.get_hist_data, which raises when Yahoo fails)
    are the answers `downloads(k)` fixed at construction, one per attempt:
    Some(rows) for a successful k-th download, None for a failing one, so a
    retry can succeed after a failure and a repeated download can return
    other rows. The counter `fetches` records how many downloads were
    started and so which answer comes next. Frames are objects
    (Bollinger.Frame): the cached frame and a frame passed by the caller
    can be written by Bollinger_Band. */
module StockAnalysis {
  import opened PriceData
  import opened PriceSummary
  import opened Bollinger
  import opened BandSignals
  import opened Rsi
  import opened RsiSignals

  /** The default arguments: Bollinger_Band and BBand_Outliers use a
      20-row window and 2 standard deviations, BBand_Outliers inspects the
      last 3 rows, RSI smooths over 14 rows with ewm, and
      overbought_oversold inspects the last 5 values. */
  const DefaultWindowSize: int := 20
  const DefaultNumSd: real := 2.0
  const DefaultLastNDays: int := 3
  const DefaultRsiWindow: int := 14
  const DefaultEwma: bool := true
  const DefaultRsiDays: int := 5

  class Analysis {
    const symbol: string
    const downloads: nat -> Option<seq<Bar>>
    var data: Frame?
    var dataGotten: bool
    var fetches: nat

    /** A frame is cached exactly when data_gotten is set. */
    ghost predicate Valid()
      reads this
    {
      dataGotten <==> data != null
    }

    /** What the next download gives. */
    function NextDownload(): Option<seq<Bar>>
      reads this
    {
      downloads(fetches)
    }

    /** The rows the indicators read: the caller's frame when one is given,
        otherwise the cached frame, otherwise the next download. */
    function SourceBars(arg: Frame?): Option<seq<Bar>>
      reads this, arg, data
    {
      if arg != null then Some(arg.bars)
      else if data != null then Some(data.bars)
      else NextDownload()
    }

    /** __init__: nothing downloaded yet. */
    constructor (symbol: string, downloads: nat -> Option<seq<Bar>>)
      ensures Valid()
      ensures this.symbol == symbol && this.downloads == downloads
      ensures data == null && !dataGotten && fetches == 0
    {
      this.symbol := symbol;
      this.downloads := downloads;
      data := null;
      dataGotten := false;
      fetches := 0;
    }

    /** get_hist_data: download, cache the frame and set data_gotten. A
        failing download raises and leaves the cache as it was. */
    method GetHistData() returns (ok: bool)
      requires Valid()
      modifies this
      ensures Valid()
      ensures fetches == old(fetches) + 1
      ensures ok <==> old(NextDownload()).Some?
      ensures ok ==>
                fresh(data) && dataGotten && data.bars == old(NextDownload()).value &&
                data.NoIndicatorColumns()
      ensures !ok ==> data == old(data) && dataGotten == old(dataGotten)
    {
      var download := downloads(fetches);
      fetches := fetches + 1;
      if download.None? {
        return false;
      }
      data := new Frame(download.value);
      dataGotten := true;
      ok := true;
    }

    /** check_data_availability: a frame passed in is returned as it is,
        with no download and no change to the cache; otherwise the cached
        frame, downloading it first only while data_gotten is false. */
    method CheckDataAvailability(arg: Frame?) returns (r: Outcome<Frame>)
      requires Valid()
      modifies this
      ensures Valid()
      ensures arg != null ==>
                r == Ok(arg) && data == old(data) && dataGotten == old(dataGotten) &&
                fetches == old(fetches)
      ensures arg == null && old(dataGotten) ==>
                r == Ok(data) && data == old(data) && dataGotten && fetches == old(fetches)
      ensures arg == null && !old(dataGotten) ==>
                fetches == old(fetches) + 1 && (r.Ok? ==> fresh(r.value) && r.value.NoIndicatorColumns())
      ensures r.Ok? <==> old(SourceBars(arg)).Some?
      ensures r.Ok? ==> Some(r.value.bars) == old(SourceBars(arg))
      ensures arg == null && r.Ok? ==> r.value == data && dataGotten
      ensures r.Raised? ==> r.failure == FetchFailed && data == old(data) && dataGotten == old(dataGotten)
    {
      if arg != null {
        return Ok(arg);
      }
      if !dataGotten {
        var ok := GetHistData();
        if !ok {
          return Raised(FetchFailed);
        }
      }
      r := Ok(data);
    }

    /** Min_Max: the summary of the chosen frame; the bare `except: pass`
        turns a failed download and an empty frame into None. */
    method MinMax(arg: Frame?) returns (r: Option<Summary>)
      requires Valid()
      modifies this
      ensures Valid()
      ensures fetches == old(fetches) + (if arg == null && !old(dataGotten) then 1 else 0)
      ensures arg != null ==> data == old(data) && dataGotten == old(dataGotten)
      ensures old(dataGotten) ==> dataGotten && data == old(data)
      ensures arg == null && !old(dataGotten) ==>
                (dataGotten <==> old(NextDownload()).Some?) &&
                (dataGotten ==> fresh(data) && data.bars == old(NextDownload()).value && data.NoIndicatorColumns()) &&
                (!dataGotten ==> data == null)
      ensures r.Some? <==> old(SourceBars(arg)).Some? && |old(SourceBars(arg)).value| > 0
      ensures r.Some? ==> Describes(r.value, symbol, old(SourceBars(arg)).value)
    {
      var df := CheckDataAvailability(arg);
      if df.Raised? {
        return None;
      }
      r := Summarize(symbol, df.value.bars);
    }

    /** Bollinger_Band: writes rolling_mean, rolling_std and the two bands
        into the chosen frame (the caller's, or the cached one) and returns
        it without rolling_std. A negative window raises inside rolling()
        before any column is written; the handler returns None. */
    method BollingerBand(windowSize: int, numSd: real, arg: Frame?, sd: seq<real> -> real)
      returns (r: Option<seq<BandedBar>>)
      requires Valid()
      modifies this, arg, data
      ensures Valid()
      ensures fetches == old(fetches) + (if arg == null && !old(dataGotten) then 1 else 0)
      ensures arg != null ==> data == old(data) && dataGotten == old(dataGotten)
      ensures old(dataGotten) ==> dataGotten && data == old(data)
      ensures arg == null && !old(dataGotten) ==>
                (dataGotten <==> old(NextDownload()).Some?) && (dataGotten ==> fresh(data) && data.bars == old(NextDownload()).value) &&
                (!dataGotten ==> data == null) &&
                (dataGotten && windowSize < 0 ==> data.NoIndicatorColumns())
      ensures r.Some? <==> windowSize >= 0 && old(SourceBars(arg)).Some?
      ensures r.Some? ==> r.value == BollingerRows(old(SourceBars(arg)).value, windowSize, numSd, sd)
      ensures r.Some? ==>
                var f := if arg != null then arg else data;
                f != null && f.bars == old(SourceBars(arg)).value &&
                f.WithoutStd() == r &&
                f.rollingStd == Some(RollingStdColumn(Closes(f.bars), windowSize, sd))
      ensures windowSize < 0 && arg != null ==> unchanged(arg)
      ensures windowSize < 0 && old(data) != null ==> unchanged(old(data))
      ensures arg != null && old(data) != null && arg != old(data) ==> unchanged(old(data))
    {
      var df := CheckDataAvailability(arg);
      if df.Raised? {
        return None;
      }
      if windowSize < 0 {
        return None;
      }
      var f := df.value;
      f.AddBollingerColumns(windowSize, numSd, sd);
      r := f.WithoutStd();
    }

    /** BBand_Outliers: the classification of the last `last_n_days` rows
        (DataFrame.tail, so 0 inspects nothing) with None as the fallback;
        None as the whole result when Bollinger_Band gave None. */
    method BBandOutliers(lastNDays: int, windowSize: int, numSd: real, arg: Frame?, sd: seq<real> -> real)
      returns (r: Option<BandReport>)
      requires Valid()
      modifies this, arg, data
      ensures Valid()
      ensures fetches == old(fetches) + (if arg == null && !old(dataGotten) then 1 else 0)
      ensures arg != null ==> data == old(data) && dataGotten == old(dataGotten)
      ensures old(dataGotten) ==> dataGotten && data == old(data)
      ensures arg == null && !old(dataGotten) ==>
                (dataGotten <==> old(NextDownload()).Some?) && (dataGotten ==> fresh(data) && data.bars == old(NextDownload()).value) &&
                (!dataGotten ==> data == null) &&
                (dataGotten && windowSize < 0 ==> data.NoIndicatorColumns())
      ensures r.Some? <==> windowSize >= 0 && old(SourceBars(arg)).Some?
      ensures r.Some? ==>
                var f := if arg != null then arg else data;
                f != null && f.bars == old(SourceBars(arg)).value &&
                f.WithoutStd() == Some(BollingerRows(f.bars, windowSize, numSd, sd)) &&
                f.rollingStd == Some(RollingStdColumn(Closes(f.bars), windowSize, sd))
      ensures windowSize < 0 && arg != null ==> unchanged(arg)
      ensures windowSize < 0 && old(data) != null ==> unchanged(old(data))
      ensures arg != null && old(data) != null && arg != old(data) ==> unchanged(old(data))
      ensures r.Some? ==>
                var rows := BollingerRows(old(SourceBars(arg)).value, windowSize, numSd, sd);
                r.value.symbol == symbol &&
                r.value.indicator == ReportedOrNone(Classify(Tail(rows, lastNDays)))
      ensures r.Some? && lastNDays == 0 ==> r.value.indicator.None?
    {
      var df := BollingerBand(windowSize, numSd, arg, sd);
      if df.None? {
        return None;
      }
      var subdf := Tail(df.value, lastNDays);
      r := Some(BandReport(symbol, ReportedOrNone(Classify(subdf))));
    }

    /** RSI: without a series, the Close column of the cached (or freshly
        downloaded) frame; then the gain/loss split, the smoothing and the
        formula. The download comes first, so it can fail even on the SMA
        branch, which itself always raises on an undefined name. */
    method Rsi(series: Option<seq<real>>, window: int, ewma: bool, ewmMean: (seq<real>, int) -> seq<real>)
      returns (r: Outcome<seq<Option<real>>>)
      requires Valid() && KeepsLength(ewmMean)
      modifies this
      ensures Valid()
      ensures fetches == old(fetches) + (if series.None? && !old(dataGotten) then 1 else 0)
      ensures series.Some? ==> data == old(data) && dataGotten == old(dataGotten)
      ensures old(dataGotten) ==> dataGotten && data == old(data)
      ensures series.None? && !old(dataGotten) ==>
                (dataGotten <==> old(NextDownload()).Some?) &&
                (dataGotten ==> fresh(data) && data.bars == old(NextDownload()).value && data.NoIndicatorColumns()) &&
                (!dataGotten ==> data == null)
      ensures series.None? && old(SourceBars(null)).None? ==> r == Raised(FetchFailed)
      ensures series.Some? || old(SourceBars(null)).Some? ==>
                var cs := if series.Some? then series.value else Closes(old(SourceBars(null)).value);
                (!ewma ==> r == Raised(UndefinedName)) &&
                (ewma && window < 1 ==> r == Raised(InvalidSmoothing)) &&
                (ewma && window >= 1 ==>
                   r == Ok(RsiValues(ewmMean(Gains(Deltas(cs)), window),
                                     ewmMean(Losses(Deltas(cs)), window))))
    {
      var closes: seq<real>;
      if series.Some? {
        closes := series.value;
      } else {
        var df := CheckDataAvailability(null);
        if df.Raised? {
          return Raised(FetchFailed);
        }
        closes := Closes(df.value.bars);
      }
      r := RsiSeries(closes, window, ewma, ewmMean);
    }
  }

  /** overbought_oversold (written without `self` in the class, so a plain
      function of the RSI series): a strict if/elif chain over the last
      last_n_days values, None when no branch is taken. Every outcome,
      stated over the inspected values: Oversold whenever some value is at
      most 20, even when another reaches 80; Overbought only when no value
      is at most 20, Maybe Oversold did not apply and some value reaches 80;
      never Maybe Overbought. */
  function OverboughtOversold(rsi: seq<Option<real>>, lastNDays: int): (r: Option<RsiSignal>)
    ensures var sub := SliceFrom(rsi, -lastNDays);
            (r == Some(Oversold) <==> SomeAtMost(sub, 20.0)) &&
            (r == Some(MaybeOversold) <==>
               !SomeAtMost(sub, 20.0) && AllAbove(sub, 20.0) && SomeAtMost(sub, 30.0)) &&
            r != Some(MaybeOverbought) &&
            (r == Some(Overbought) <==>
               !SomeAtMost(sub, 20.0) && !(AllAbove(sub, 20.0) && SomeAtMost(sub, 30.0)) &&
               SomeAtLeast(sub, 80.0)) &&
            (r == None <==>
               !SomeAtMost(sub, 20.0) && !(AllAbove(sub, 20.0) && SomeAtMost(sub, 30.0)) &&
               !SomeAtLeast(sub, 80.0))
  {
    var sub := SliceFrom(rsi, -lastNDays);
    MasksMean(sub);
    if AnyTrue(Mask(sub, AtMost, 20.0)) then Some(Oversold)
    else if AllTrue(Mask(sub, Above, 20.0)) && AnyTrue(Mask(sub, AtMost, 30.0)) then Some(MaybeOversold)
    else if AllTrue(Mask(sub, Below, 70.0)) && AnyTrue(Mask(sub, AtLeast, 70.0)) then Some(MaybeOverbought)
    else if AnyTrue(Mask(sub, AtLeast, 80.0)) then Some(Overbought)
    else None
  }

  /** With no NaN among the inspected values, Overbought means every value
      is above 30 and some value reaches 80. */
  lemma OverboughtWhenDefined(rsi: seq<Option<real>>, lastNDays: int)
    requires AllDefined(SliceFrom(rsi, -lastNDays))
    ensures OverboughtOversold(rsi, lastNDays) == Some(Overbought) <==>
              AllAbove(SliceFrom(rsi, -lastNDays), 30.0) && SomeAtLeast(SliceFrom(rsi, -lastNDays), 80.0)
  {
    var sub := SliceFrom(rsi, -lastNDays);
    if AllAbove(sub, 30.0) {
      assert AllAbove(sub, 20.0);
      assert !SomeAtMost(sub, 30.0);
    }
    if !SomeAtMost(sub, 20.0) {
      assert AllAbove(sub, 20.0);
      if !SomeAtMost(sub, 30.0) {
        assert AllAbove(sub, 30.0);
      }
    }
  }
}
