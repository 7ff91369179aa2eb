/** Values shared by every copy of the indicator code: the rows the price
    provider returns, the outcome of a call that may raise, and the slicing
    rules of Python and pandas used to pick trailing rows. */
module PriceData {

  datatype Option<+T> = None | Some(value: T)

  /** Why a call raised instead of returning. */
  datatype Failure =
    | FetchFailed       // the provider could not deliver the series
    | EmptySeries       // idxmax / idxmin of an empty Close column
    | NegativeWindow    // rolling(window=w) with w < 0
    | InvalidSmoothing  // ewm(com=window-1) with a negative centre of mass
    | UndefinedName     // the SMA branch of RSI reads an undefined variable

  /** The outcome of a call that either returns a value or raises. */
  datatype Outcome<+T> = Ok(value: T) | Raised(failure: Failure)

  /** One row of the frame the provider returns after reset_index: the Date
      column (an opaque day number, ordered like the dates) and the price
      columns. */
  datatype Bar = Bar(date: int, high: real, low: real, open: real, close: real,
                     adjClose: real, volume: int)

  /** A row after the Bollinger columns were added and rolling_std dropped;
      None stands for NaN (the warm-up rows). */
  datatype BandedBar = BandedBar(bar: Bar, rollingMean: Option<real>,
                                 upperBand: Option<real>, lowerBand: Option<real>)

  function Min(a: int, b: int): int { if a <= b then a else b }

  /** The Close column. */
  function Closes(bars: seq<Bar>): (cs: seq<real>)
    ensures |cs| == |bars|
    ensures forall i :: 0 <= i < |bars| ==> cs[i] == bars[i].close
  {
    seq(|bars|, i requires 0 <= i < |bars| => bars[i].close)
  }

  /** Python's positional slice s[start:]: a negative start counts from the
      end and is clipped at the front, a positive one is clipped at the end. */
  function SliceFrom<T>(s: seq<T>, start: int): (r: seq<T>)
    ensures |r| <= |s| && r == s[|s| - |r|..]
    ensures start < 0 ==> |r| == Min(-start, |s|)
    ensures start >= 0 ==> |r| == |s| - Min(start, |s|)
  {
    if start < 0 then s[|s| - Min(-start, |s|)..]
    else s[Min(start, |s|)..]
  }

  /** pandas DataFrame.tail(n): no rows for n == 0, otherwise iloc[-n:].
      It keeps trailing rows: the last min(n, |s|) for a positive n, none
      for 0, and all but the first -n for a negative n. */
  function Tail<T>(s: seq<T>, n: int): (r: seq<T>)
    ensures |r| <= |s| && r == s[|s| - |r|..]
    ensures |r| == if n == 0 then 0 else if n > 0 then Min(n, |s|) else |s| - Min(-n, |s|)
  {
    if n == 0 then [] else SliceFrom(s, -n)
  }

  /** The trailing-row selections of the source: for n > 0 both `tail(n)`
      and `[-n:]` keep the last min(n, |s|) rows; they part ways at n == 0,
      where `tail` keeps nothing and `[-0:]` keeps everything; a negative n
      drops the first |n| rows. */
  lemma TrailingRows<T>(s: seq<T>, n: int)
    ensures n > 0 ==> Tail(s, n) == SliceFrom(s, -n) == s[|s| - Min(n, |s|)..]
    ensures Tail(s, 0) == [] && SliceFrom(s, -0) == s
    ensures n < 0 ==> Tail(s, n) == SliceFrom(s, -n) == s[Min(-n, |s|)..]
  {
  }

  /** Series.any() over a boolean mask. */
  function AnyTrue(bs: seq<bool>): bool {
    if bs == [] then false else bs[0] || AnyTrue(bs[1..])
  }

  /** Series.all() over a boolean mask. */
  function AllTrue(bs: seq<bool>): bool {
    if bs == [] then true else bs[0] && AllTrue(bs[1..])
  }

  lemma {:induction false} AnyTrueMeansSome(bs: seq<bool>)
    ensures AnyTrue(bs) <==> exists i :: 0 <= i < |bs| && bs[i]
  {
    if bs != [] {
      AnyTrueMeansSome(bs[1..]);
      if AnyTrue(bs[1..]) {
        var i :| 0 <= i < |bs[1..]| && bs[1..][i];
        assert bs[i + 1];
      }
      if exists i :: 0 <= i < |bs| && bs[i] {
        var i :| 0 <= i < |bs| && bs[i];
        if i > 0 { assert bs[1..][i - 1]; }
      }
    }
  }

  lemma {:induction false} AllTrueMeansEvery(bs: seq<bool>)
    ensures AllTrue(bs) <==> forall i :: 0 <= i < |bs| ==> bs[i]
  {
    if bs != [] {
      AllTrueMeansEvery(bs[1..]);
      if forall i :: 0 <= i < |bs| ==> bs[i] {
        assert forall i :: 0 <= i < |bs[1..]| ==> bs[1..][i] by {
          forall i | 0 <= i < |bs[1..]| ensures bs[1..][i] { assert bs[i + 1]; }
        }
      }
    }
  }
}
