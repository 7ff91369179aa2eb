/** Bollinger Bands: the rolling mean and sample deviation of the Close
    column over a trailing window, and the bands mean +/- num_sd * sd.

    The sample standard deviation (the square root inside rolling().std())
    is a parameter `sd` of the model: nothing is assumed about it except,
    where a lemma says so, that it is never negative. */
module Bollinger {
  import opened PriceData

  function Sum(xs: seq<real>): real {
    if xs == [] then 0.0 else Sum(xs[..|xs| - 1]) + xs[|xs| - 1]
  }

  /** The `w` closes ending at row i, i included. */
  function Window(cs: seq<real>, w: nat, i: nat): (win: seq<real>)
    requires 1 <= w <= i + 1 && i < |cs|
    ensures |win| == w
    ensures forall k :: 0 <= k < w ==> win[k] == cs[i + 1 - w + k]
  {
    cs[i + 1 - w..i + 1]
  }

  /** rolling(window=w).mean() at row i: min_periods defaults to w, so the
      value is NaN (None) until w rows are available. */
  function RollingMeanAt(cs: seq<real>, w: nat, i: nat): Option<real>
    requires i < |cs|
  {
    if 1 <= w <= i + 1 then Some(Sum(Window(cs, w, i)) / w as real) else None
  }

  /** rolling(window=w).std() at row i: NaN until w rows are available, and
      NaN for a one-row window, whose ddof = 1 deviation divides by zero. */
  function RollingStdAt(cs: seq<real>, w: nat, i: nat, sd: seq<real> -> real): Option<real>
    requires i < |cs|
  {
    if 2 <= w <= i + 1 then Some(sd(Window(cs, w, i))) else None
  }

  function RollingMeanColumn(cs: seq<real>, w: nat): (col: seq<Option<real>>)
    ensures |col| == |cs|
  {
    seq(|cs|, i requires 0 <= i < |cs| => RollingMeanAt(cs, w, i))
  }

  function RollingStdColumn(cs: seq<real>, w: nat, sd: seq<real> -> real): (col: seq<Option<real>>)
    ensures |col| == |cs|
  {
    seq(|cs|, i requires 0 <= i < |cs| => RollingStdAt(cs, w, i, sd))
  }

  /** rolling_mean + rolling_std * num_sd, row by row; NaN in either
      operand gives NaN. */
  function UpperColumn(mean: seq<Option<real>>, std: seq<Option<real>>, numSd: real): (col: seq<Option<real>>)
    requires |mean| == |std|
    ensures |col| == |mean|
  {
    seq(|mean|, i requires 0 <= i < |mean| =>
      if mean[i].Some? && std[i].Some? then Some(mean[i].value + std[i].value * numSd) else None)
  }

  /** rolling_mean - rolling_std * num_sd, row by row. */
  function LowerColumn(mean: seq<Option<real>>, std: seq<Option<real>>, numSd: real): (col: seq<Option<real>>)
    requires |mean| == |std|
    ensures |col| == |mean|
  {
    seq(|mean|, i requires 0 <= i < |mean| =>
      if mean[i].Some? && std[i].Some? then Some(mean[i].value - std[i].value * numSd) else None)
  }

  /** The frame's rows read together with its mean and band columns. */
  function Banded(bars: seq<Bar>, mean: seq<Option<real>>, upper: seq<Option<real>>,
                  lower: seq<Option<real>>): (rows: seq<BandedBar>)
    requires |mean| == |upper| == |lower| == |bars|
    ensures |rows| == |bars|
  {
    seq(|bars|, i requires 0 <= i < |bars| => BandedBar(bars[i], mean[i], upper[i], lower[i]))
  }

  /** The frame add_Bollinger_Band returns: every input row, with
      rolling_mean, upper_band and lower_band (rolling_std dropped). The
      warm-up gap: the row count and every price column are kept; the mean
      is present exactly from row w-1 on, and the two bands exactly from
      row w-1 on when the window has at least two rows (never for a window
      of one, whose deviation is NaN). */
  function BollingerRows(bars: seq<Bar>, w: nat, numSd: real, sd: seq<real> -> real): (rows: seq<BandedBar>)
    ensures |rows| == |bars|
    ensures forall i :: 0 <= i < |bars| ==>
              rows[i].bar == bars[i] &&
              (rows[i].rollingMean.Some? <==> 1 <= w <= i + 1) &&
              (rows[i].upperBand.Some? <==> 2 <= w <= i + 1) &&
              (rows[i].lowerBand.Some? <==> 2 <= w <= i + 1)
  {
    var cs := Closes(bars);
    var mean := RollingMeanColumn(cs, w);
    var std := RollingStdColumn(cs, w, sd);
    Banded(bars, mean, UpperColumn(mean, std, numSd), LowerColumn(mean, std, numSd))
  }

  /** Where the bands exist they sit symmetrically about the rolling mean at
      distance num_sd times the window's deviation, so with num_sd >= 0 and
      a non-negative deviation, lower <= mean <= upper. */
  lemma BandsSymmetric(bars: seq<Bar>, w: nat, numSd: real, sd: seq<real> -> real, i: nat)
    requires i < |bars| && 2 <= w <= i + 1
    ensures var row := BollingerRows(bars, w, numSd, sd)[i];
            var d := numSd * sd(Window(Closes(bars), w, i));
            row.rollingMean.Some? && row.upperBand.Some? && row.lowerBand.Some? &&
            row.upperBand.value - row.rollingMean.value == d &&
            row.rollingMean.value - row.lowerBand.value == d
    ensures numSd >= 0.0 && sd(Window(Closes(bars), w, i)) >= 0.0 ==>
            var row := BollingerRows(bars, w, numSd, sd)[i];
            row.lowerBand.value <= row.rollingMean.value <= row.upperBand.value
  {
    assert BollingerRows(bars, w, numSd, sd)[i].upperBand.Some?;
    var s := sd(Window(Closes(bars), w, i));
    assert numSd >= 0.0 && s >= 0.0 ==> numSd * s >= 0.0;
  }

  lemma {:induction false} SumBounds(xs: seq<real>, lo: real, hi: real)
    requires forall k :: 0 <= k < |xs| ==> lo <= xs[k] <= hi
    ensures lo * |xs| as real <= Sum(xs) <= hi * |xs| as real
    decreases |xs|
  {
    if xs != [] {
      SumBounds(xs[..|xs| - 1], lo, hi);
      assert lo * |xs| as real == lo * (|xs| - 1) as real + lo;
      assert hi * |xs| as real == hi * (|xs| - 1) as real + hi;
    }
  }

  /** The rolling mean stays within the range of the closes in its window. */
  lemma MeanWithinWindow(cs: seq<real>, w: nat, i: nat, lo: real, hi: real)
    requires i < |cs| && 1 <= w <= i + 1
    requires forall k :: i + 1 - w <= k <= i ==> lo <= cs[k] <= hi
    ensures RollingMeanAt(cs, w, i).Some?
    ensures lo <= RollingMeanAt(cs, w, i).value <= hi
  {
    var win := Window(cs, w, i);
    SumBounds(win, lo, hi);
    var n := w as real;
    DivideBounds(lo * n, Sum(win), hi * n, n);
    assert lo * n / n == lo && hi * n / n == hi;
  }

  lemma DivideBounds(a: real, b: real, c: real, n: real)
    requires a <= b <= c && n > 0.0
    ensures a / n <= b / n <= c / n
  {
    assert b / n - a / n == (b - a) / n;
    assert c / n - b / n == (c - b) / n;
  }

  /** A run of w equal closes has that close as its rolling mean. */
  lemma ConstantWindowMean(cs: seq<real>, w: nat, i: nat, c: real)
    requires i < |cs| && 1 <= w <= i + 1
    requires forall k :: i + 1 - w <= k <= i ==> cs[k] == c
    ensures RollingMeanAt(cs, w, i) == Some(c)
  {
    MeanWithinWindow(cs, w, i, c, c);
  }

  /** A price frame whose columns add_Bollinger_Band / Bollinger_Band write
      in place: the provider's rows and, once written, the four rolling
      columns (None while a column does not exist). */
  class Frame {
    var bars: seq<Bar>
    var rollingMean: Option<seq<Option<real>>>
    var rollingStd: Option<seq<Option<real>>>
    var upperBand: Option<seq<Option<real>>>
    var lowerBand: Option<seq<Option<real>>>

    /** The frame holds only the provider's columns: none of the four
        indicator columns has been written. */
    predicate NoIndicatorColumns()
      reads this
    {
      rollingMean.None? && rollingStd.None? && upperBand.None? && lowerBand.None?
    }

    /** A frame as the provider returns it, with no rolling columns. */
    constructor (bars: seq<Bar>)
      ensures this.bars == bars
      ensures NoIndicatorColumns()
    {
      this.bars := bars;
      rollingMean, rollingStd, upperBand, lowerBand := None, None, None, None;
    }

    /** df.drop(columns=['rolling_std']) read as banded rows; None while the
        mean and band columns have not been written. */
    function WithoutStd(): (r: Option<seq<BandedBar>>)
      reads this
      ensures r.Some? ==> |r.value| == |bars|
    {
      if rollingMean.Some? && upperBand.Some? && lowerBand.Some? &&
         |rollingMean.value| == |upperBand.value| == |lowerBand.value| == |bars|
      then Some(Banded(bars, rollingMean.value, upperBand.value, lowerBand.value))
      else None
    }

    /** The four column assignments: rolling_mean, rolling_std, then the two
        bands computed from those columns. The price rows stay as they were. */
    method AddBollingerColumns(w: nat, numSd: real, sd: seq<real> -> real)
      modifies this
      ensures bars == old(bars)
      ensures rollingMean == Some(RollingMeanColumn(Closes(bars), w))
      ensures rollingStd == Some(RollingStdColumn(Closes(bars), w, sd))
      ensures upperBand == Some(UpperColumn(rollingMean.value, rollingStd.value, numSd))
      ensures lowerBand == Some(LowerColumn(rollingMean.value, rollingStd.value, numSd))
      ensures WithoutStd() == Some(BollingerRows(bars, w, numSd, sd))
    {
      var cs := Closes(bars);
      rollingMean := Some(RollingMeanColumn(cs, w));
      rollingStd := Some(RollingStdColumn(cs, w, sd));
      upperBand := Some(UpperColumn(rollingMean.value, rollingStd.value, numSd));
      lowerBand := Some(LowerColumn(rollingMean.value, rollingStd.value, numSd));
    }
  }
}
