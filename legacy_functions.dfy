/** legacy/funtions.py: the older Stock class. Its get_Min_and_Max and
    add_Bollinger_Band are the code of functions.py under another name for
    the download (get_quote), so the model reuses Functions.GetMinAndMax
    and Functions.AddBollingerBand; what this copy does differently is the
    fallback of BBand_Outliers, the one-character string " " instead of
    None. */
module LegacyFunctions {
  import opened PriceData
  import opened PriceSummary
  import opened Bollinger
  import opened BandSignals
  import Functions

  /** What get_Min_and_Max promises: nothing when the download fails or
      is empty; otherwise the first row with the greatest close, the first
      row with the least close and the last row, and, against a positive
      maximum, two relative changes that are at most zero with the drop to
      the minimum the deeper one. */
  lemma MinAndMaxReport(symbol: string, fetched: Option<seq<Bar>>)
    ensures var r := Functions.GetMinAndMax(symbol, fetched);
            r.None? <==> fetched.None? || |fetched.value| == 0
    ensures var r := Functions.GetMinAndMax(symbol, fetched);
            r.Some? ==>
              var cs := Closes(fetched.value);
              (exists i :: IsFirstMax(cs, i) && r.value.maxDate == fetched.value[i].date) &&
              (exists j :: IsFirstMin(cs, j) && r.value.minDate == fetched.value[j].date) &&
              (forall k :: 0 <= k < |cs| ==> r.value.minClose <= cs[k] <= r.value.maxClose) &&
              r.value.lastClose == cs[|cs| - 1] &&
              r.value.lastDate == fetched.value[|cs| - 1].date
    ensures var r := Functions.GetMinAndMax(symbol, fetched);
            r.Some? && r.value.maxClose > 0.0 ==>
              r.value.minToMax.Some? && r.value.currentToMax.Some? &&
              r.value.minToMax.value <= r.value.currentToMax.value <= 0.0
  {
    var r := Functions.GetMinAndMax(symbol, fetched);
    if r.Some? {
      var cs := Closes(fetched.value);
      var i :| IsFirstMax(cs, i) && r.value.maxDate == fetched.value[i].date && r.value.maxClose == cs[i];
      var j :| IsFirstMin(cs, j) && r.value.minDate == fetched.value[j].date && r.value.minClose == cs[j];
      if r.value.maxClose > 0.0 {
        ChangesAgainstMax(r.value, symbol, fetched.value);
      }
    }
  }

  /** Stock.BBand_Outliers of the legacy copy: the default bands, the last
      three rows whatever last_n_days says, and " " as the indicator when no
      test passes; None when the download fails. */
  method BBandOutliers(symbol: string, fetched: Option<seq<Bar>>, lastNDays: int, sd: seq<real> -> real)
    returns (r: Option<BandReport>)
    ensures r.Some? <==> fetched.Some?
    ensures r.Some? ==>
              var rows := BollingerRows(fetched.value, Functions.DefaultWindow, Functions.DefaultNumSd, sd);
              var inspected := rows[|rows| - Min(Functions.InspectedRows, |rows|)..];
              r.value.symbol == symbol &&
              r.value.indicator.Some? &&
              r.value.indicator == ReportedOrBlank(Classify(inspected)) &&
              (r.value.indicator == Some(" ") <==>
                 forall x :: x in inspected ==> !SomeFieldAbove(x) && !SomeFieldBelow(x))
  {
    var df := Functions.AddBollingerBand(fetched, Functions.DefaultWindow, Functions.DefaultNumSd, sd);
    if df.None? {
      return None;
    }
    var subdf := SliceFrom(df.value, -Functions.InspectedRows);
    ClassifyOutcomes(subdf);
    FallbacksDiffer(Classify(subdf));
    r := Some(BandReport(symbol, ReportedOrBlank(Classify(subdf))));
  }
}
