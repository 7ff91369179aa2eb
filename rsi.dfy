/** The RSI front end: day-to-day differences of the closes, their split
    into gains and losses, and the formula 100 - 100 / (1 + up / down)
    applied to the smoothed averages. The exponential smoothing itself
    (pandas ewm(com=window-1).mean()) is a parameter `ewmMean`. */
module Rsi {
  import opened PriceData

  /** series.diff().dropna(): one difference per pair of neighbouring closes. */
  function Deltas(cs: seq<real>): (d: seq<real>)
    ensures |d| == if |cs| == 0 then 0 else |cs| - 1
    ensures forall i :: 0 <= i < |d| ==> d[i] == cs[i + 1] - cs[i]
  {
    if |cs| <= 1 then [] else seq(|cs| - 1, i requires 0 <= i < |cs| - 1 => cs[i + 1] - cs[i])
  }

  /** `up` after up[up < 0] = 0. */
  function Gains(d: seq<real>): (g: seq<real>)
    ensures |g| == |d|
  {
    seq(|d|, i requires 0 <= i < |d| => if d[i] < 0.0 then 0.0 else d[i])
  }

  /** `down` after down[down > 0] = 0 and down.abs(). */
  function Losses(d: seq<real>): (l: seq<real>)
    ensures |l| == |d|
  {
    seq(|d|, i requires 0 <= i < |d| => if d[i] > 0.0 then 0.0 else -d[i])
  }

  function Max(a: real, b: real): real { if a >= b then a else b }

  /** The split is max(d, 0) and max(-d, 0): both parts are non-negative,
      at most one is non-zero, and gain - loss gives back the difference. */
  lemma GainLossSplit(d: seq<real>, i: int)
    requires 0 <= i < |d|
    ensures Gains(d)[i] == Max(d[i], 0.0) && Losses(d)[i] == Max(-d[i], 0.0)
    ensures Gains(d)[i] >= 0.0 && Losses(d)[i] >= 0.0
    ensures Gains(d)[i] == 0.0 || Losses(d)[i] == 0.0
    ensures Gains(d)[i] - Losses(d)[i] == d[i]
  {
  }

  /** A flat price series has neither gains nor losses. */
  lemma FlatPricesNoMoves(cs: seq<real>, c: real)
    requires forall i :: 0 <= i < |cs| ==> cs[i] == c
    ensures forall i :: 0 <= i < |Deltas(cs)| ==> Gains(Deltas(cs))[i] == 0.0 && Losses(Deltas(cs))[i] == 0.0
  {
  }

  /** `down` after down[down > 0] = 0, before abs(). */
  function NonPositivePart(d: seq<real>): (p: seq<real>)
    ensures |p| == |d|
  {
    seq(|d|, i requires 0 <= i < |d| => if d[i] > 0.0 then 0.0 else d[i])
  }

  /** Series.abs(). */
  function AbsAll(s: seq<real>): (a: seq<real>)
    ensures |a| == |s|
  {
    seq(|s|, i requires 0 <= i < |s| => if s[i] < 0.0 then -s[i] else s[i])
  }

  /** Series.copy(): a fresh array holding the values of `s`. */
  method CopyOf(s: seq<real>) returns (a: array<real>)
    ensures fresh(a) && a[..] == s
  {
    a := new real[|s|](k requires 0 <= k < |s| => s[k]);
  }

  /** up[up < 0] = 0, in place. */
  method ClipNegatives(a: array<real>)
    modifies a
    ensures a[..] == Gains(old(a[..]))
  {
    for i := 0 to a.Length
      invariant forall k :: 0 <= k < i ==> a[k] == (if old(a[k]) < 0.0 then 0.0 else old(a[k]))
      invariant forall k :: i <= k < a.Length ==> a[k] == old(a[k])
    {
      if a[i] < 0.0 {
        a[i] := 0.0;
      }
    }
  }

  /** down[down > 0] = 0, in place. */
  method ClipPositives(a: array<real>)
    modifies a
    ensures a[..] == NonPositivePart(old(a[..]))
  {
    for i := 0 to a.Length
      invariant forall k :: 0 <= k < i ==> a[k] == (if old(a[k]) > 0.0 then 0.0 else old(a[k]))
      invariant forall k :: i <= k < a.Length ==> a[k] == old(a[k])
    {
      if a[i] > 0.0 {
        a[i] := 0.0;
      }
    }
  }

  /** series.diff().dropna(), computed into a fresh array. */
  method Differences(closes: seq<real>) returns (delta: array<real>)
    ensures fresh(delta) && delta[..] == Deltas(closes)
  {
    var n := if |closes| == 0 then 0 else |closes| - 1;
    delta := new real[n];
    for i := 0 to n
      invariant forall k :: 0 <= k < i ==> delta[k] == closes[k + 1] - closes[k]
    {
      delta[i] := closes[i + 1] - closes[i];
    }
  }

  /** The masking steps of RSI, run on arrays as the source runs them on
      Series copies: the differences, a copy clipped to its gains, a copy
      clipped to its non-positive part, and the absolute value of the
      latter. */
  method SplitGainsLosses(closes: seq<real>) returns (up: seq<real>, down: seq<real>)
    ensures up == Gains(Deltas(closes))
    ensures down == Losses(Deltas(closes))
  {
    var delta := Differences(closes);
    ghost var d := delta[..];
    // up, down = delta.copy(), delta.copy()
    var u := CopyOf(delta[..]);
    ClipNegatives(u);
    up := u[..];
    var dn := CopyOf(delta[..]);
    ClipPositives(dn);
    down := AbsAll(dn[..]);
    LossesAreAbsOfNonPositive(d);
  }

  /** abs() after zeroing the positive part is the loss split. */
  lemma LossesAreAbsOfNonPositive(d: seq<real>)
    ensures AbsAll(NonPositivePart(d)) == Losses(d)
  {
    var a, l := AbsAll(NonPositivePart(d)), Losses(d);
    forall i | 0 <= i < |d| ensures a[i] == l[i] {
      assert NonPositivePart(d)[i] == (if d[i] > 0.0 then 0.0 else d[i]);
    }
  }

  /** With a positive average loss, the RSI formula is the share of gains
      in the total movement, 100 * up / (up + down), and so lies in
      [0, 100). */
  lemma RsiShareOfGains(up: real, down: real)
    requires up >= 0.0 && down > 0.0
    ensures 1.0 + up / down > 0.0
    ensures 100.0 - 100.0 / (1.0 + up / down) == 100.0 * up / (up + down)
    ensures 0.0 <= 100.0 * up / (up + down) < 100.0
  {
    var t := up + down;
    var rs := up / down;
    assert rs >= 0.0;
    assert 1.0 + rs == t / down by {
      assert t / down == up / down + down / down;
      assert down / down == 1.0;
    }
    assert 100.0 / (t / down) == 100.0 * down / t;
    assert 100.0 * down / t + 100.0 * up / t == 100.0 by {
      assert 100.0 * down / t + 100.0 * up / t == 100.0 * t / t;
      assert t / t == 1.0;
    }
    assert 100.0 * up / t < 100.0 by {
      assert 100.0 * down / t > 0.0;
    }
  }

  /** 100 - 100 / (1 + up / down) in float arithmetic, None where that
      result is NaN or infinite: 0 / 0 gives NaN, x / 0 with x != 0 gives
      an infinite RS and so an RSI of 100, and 1 + RS == 0 gives an
      infinite quotient. For non-negative averages the value is undefined
      only when both are zero, lies in [0, 100] otherwise, and with a
      positive average loss is the share of gains in the total movement. */
  function RsiValue(up: real, down: real): (r: Option<real>)
    ensures down == 0.0 ==> (r.None? <==> up == 0.0)
    ensures down == 0.0 && up != 0.0 ==> r == Some(100.0)
    ensures up >= 0.0 && down > 0.0 ==> r == Some(100.0 * up / (up + down))
    ensures up >= 0.0 && down >= 0.0 ==>
              (r.None? <==> up == 0.0 && down == 0.0) &&
              (r.Some? ==> 0.0 <= r.value <= 100.0)
  {
    if down == 0.0 then (if up == 0.0 then None else Some(100.0))
    else if 1.0 + up / down == 0.0 then None
    else if up >= 0.0 && down > 0.0 then
      RsiShareOfGains(up, down);
      Some(100.0 - 100.0 / (1.0 + up / down))
    else Some(100.0 - 100.0 / (1.0 + up / down))
  }

  /** RS = roll_up / roll_down and the RSI formula, element by element. */
  function RsiValues(rollUp: seq<real>, rollDown: seq<real>): (rsi: seq<Option<real>>)
    requires |rollUp| == |rollDown|
    ensures |rsi| == |rollUp|
  {
    seq(|rollUp|, i requires 0 <= i < |rollUp| => RsiValue(rollUp[i], rollDown[i]))
  }

  /** The smoothing keeps one value per input row, as ewm().mean() does. */
  ghost predicate KeepsLength(ewmMean: (seq<real>, int) -> seq<real>) {
    forall xs, w :: |ewmMean(xs, w)| == |xs|
  }

  /** Every value is at least zero. */
  ghost predicate NonNegative(xs: seq<real>) {
    forall k :: 0 <= k < |xs| ==> xs[k] >= 0.0
  }

  /** The smoothing of non-negative values is non-negative, as any
      weighted mean with non-negative weights is. */
  ghost predicate KeepsSign(ewmMean: (seq<real>, int) -> seq<real>) {
    forall xs, w :: NonNegative(xs) ==> NonNegative(ewmMean(xs, w))
  }

  /** Gains and losses are non-negative. */
  lemma PartsNonNegative(d: seq<real>)
    ensures NonNegative(Gains(d)) && NonNegative(Losses(d))
  {
    forall k | 0 <= k < |d| ensures Gains(d)[k] >= 0.0 && Losses(d)[k] >= 0.0 {
      GainLossSplit(d, k);
    }
  }

  /** RSI(series, window, ewma): split the differences, smooth both parts
      with ewm(com=window-1).mean() and apply the formula. The SMA branch
      reads the undefined name `window_length` and always raises; ewm
      rejects a negative centre of mass, i.e. window < 1. */
  method RsiSeries(series: seq<real>, window: int, ewma: bool, ewmMean: (seq<real>, int) -> seq<real>)
    returns (r: Outcome<seq<Option<real>>>)
    requires KeepsLength(ewmMean)
    ensures !ewma ==> r == Raised(UndefinedName)
    ensures ewma && window < 1 ==> r == Raised(InvalidSmoothing)
    ensures ewma && window >= 1 ==>
              r == Ok(RsiValues(ewmMean(Gains(Deltas(series)), window),
                                ewmMean(Losses(Deltas(series)), window)))
    ensures r.Ok? ==> |r.value| == |Deltas(series)|
    ensures r.Ok? && KeepsSign(ewmMean) ==>
              forall k :: 0 <= k < |r.value| && r.value[k].Some? ==> 0.0 <= r.value[k].value <= 100.0
  {
    PartsNonNegative(Deltas(series));
    var up, down := SplitGainsLosses(series);
    if !ewma {
      return Raised(UndefinedName);
    }
    if window < 1 {
      return Raised(InvalidSmoothing);
    }
    var rollUp, rollDown := ewmMean(up, window), ewmMean(down, window);
    r := Ok(RsiValues(rollUp, rollDown));
  }
}
