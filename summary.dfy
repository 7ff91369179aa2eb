/** The Max/Min/Last close summary that every copy builds with
    idxmax, idxmin and iloc[-1]. */
module PriceSummary {
  import opened PriceData

  /** k is where idxmax lands: a greatest element, and the first one. */
  ghost predicate IsFirstMax(s: seq<real>, k: int) {
    0 <= k < |s| &&
    (forall j :: 0 <= j < |s| ==> s[j] <= s[k]) &&
    (forall j :: 0 <= j < k ==> s[j] < s[k])
  }

  /** k is where idxmin lands: a least element, and the first one. */
  ghost predicate IsFirstMin(s: seq<real>, k: int) {
    0 <= k < |s| &&
    (forall j :: 0 <= j < |s| ==> s[k] <= s[j]) &&
    (forall j :: 0 <= j < k ==> s[k] < s[j])
  }

  /** Series.idxmax on a positional index: scanning left to right, a later
      element replaces the candidate only when it is strictly greater. */
  function ArgMax(s: seq<real>): (k: nat)
    requires |s| > 0
    ensures IsFirstMax(s, k)
    decreases |s|
  {
    if |s| == 1 then 0
    else
      var k' := ArgMax(s[..|s| - 1]);
      if s[|s| - 1] > s[k'] then |s| - 1 else k'
  }

  /** Series.idxmin, the mirror image of ArgMax. */
  function ArgMin(s: seq<real>): (k: nat)
    requires |s| > 0
    ensures IsFirstMin(s, k)
    decreases |s|
  {
    if |s| == 1 then 0
    else
      var k' := ArgMin(s[..|s| - 1]);
      if s[|s| - 1] < s[k'] then |s| - 1 else k'
  }

  /** The first-occurrence rule leaves no choice: at most one index is the
      first maximum and at most one the first minimum. */
  lemma FirstExtremaUnique(s: seq<real>, i: int, j: int)
    ensures IsFirstMax(s, i) && IsFirstMax(s, j) ==> i == j
    ensures IsFirstMin(s, i) && IsFirstMin(s, j) ==> i == j
  {
    if IsFirstMax(s, i) && IsFirstMax(s, j) {
      assert s[i] == s[j];
    }
    if IsFirstMin(s, i) && IsFirstMin(s, j) {
      assert s[i] == s[j];
    }
  }

  /** (x - m) / m on numpy floats: dividing by a zero maximum gives inf or
      NaN rather than an exception; None stands for that non-finite value. */
  function RelChange(x: real, m: real): (r: Option<real>)
    ensures r.Some? <==> m != 0.0
    ensures r.Some? ==> r.value * m == x - m
  {
    if m == 0.0 then None else Some((x - m) / m)
  }

  /** The nine-element result list: symbol, date and close of the first
      maximum, of the first minimum and of the last row, and the two
      relative changes against the maximum. */
  datatype Summary = Summary(symbol: string,
                             maxDate: int, maxClose: real,
                             minDate: int, minClose: real,
                             lastDate: int, lastClose: real,
                             minToMax: Option<real>, currentToMax: Option<real>)

  /** What a summary of `bars` must say, stated without idxmax: the
      reported maximum and minimum come from rows that are the first
      extreme closes, "current" is the last row. */
  ghost predicate Describes(r: Summary, symbol: string, bars: seq<Bar>) {
    var cs := Closes(bars);
    |bars| > 0 && r.symbol == symbol &&
    (exists i :: IsFirstMax(cs, i) && r.maxDate == bars[i].date && r.maxClose == cs[i]) &&
    (exists j :: IsFirstMin(cs, j) && r.minDate == bars[j].date && r.minClose == cs[j]) &&
    r.lastDate == bars[|bars| - 1].date && r.lastClose == cs[|cs| - 1] &&
    r.minToMax == RelChange(r.minClose, r.maxClose) &&
    r.currentToMax == RelChange(r.lastClose, r.maxClose)
  }

  /** The summary of a frame; None when the Close column is empty, where
      idxmax raises. */
  function Summarize(symbol: string, bars: seq<Bar>): (r: Option<Summary>)
    ensures r.None? <==> |bars| == 0
    ensures r.Some? ==> Describes(r.value, symbol, bars)
  {
    if |bars| == 0 then None
    else
      var cs := Closes(bars);
      var hi := bars[ArgMax(cs)];
      var lo := bars[ArgMin(cs)];
      var cur := bars[|bars| - 1];
      Some(Summary(symbol, hi.date, hi.close, lo.date, lo.close, cur.date, cur.close,
                   RelChange(lo.close, hi.close), RelChange(cur.close, hi.close)))
  }

  /** Any two summaries that both describe the same frame are equal: the
      first-occurrence rule fixes which rows are reported. */
  lemma DescribesDeterminesSummary(a: Summary, b: Summary, symbol: string, bars: seq<Bar>)
    requires Describes(a, symbol, bars) && Describes(b, symbol, bars)
    ensures a == b
  {
    var cs := Closes(bars);
    var ia :| IsFirstMax(cs, ia) && a.maxDate == bars[ia].date && a.maxClose == cs[ia];
    var ib :| IsFirstMax(cs, ib) && b.maxDate == bars[ib].date && b.maxClose == cs[ib];
    var ja :| IsFirstMin(cs, ja) && a.minDate == bars[ja].date && a.minClose == cs[ja];
    var jb :| IsFirstMin(cs, jb) && b.minDate == bars[jb].date && b.minClose == cs[jb];
    FirstExtremaUnique(cs, ia, ib);
    FirstExtremaUnique(cs, ja, jb);
  }

  /** With a positive maximum both changes are defined and lie in
      [(min-max)/max, 0]: the drop to the minimum is the deepest, and with
      non-negative closes it is at least -1. */
  lemma ChangesAgainstMax(r: Summary, symbol: string, bars: seq<Bar>)
    requires Describes(r, symbol, bars) && r.maxClose > 0.0
    ensures r.minToMax.Some? && r.currentToMax.Some?
    ensures r.minToMax.value <= r.currentToMax.value <= 0.0
    ensures r.minClose >= 0.0 ==> -1.0 <= r.minToMax.value
  {
    var cs := Closes(bars);
    var i :| IsFirstMax(cs, i) && r.maxDate == bars[i].date && r.maxClose == cs[i];
    var j :| IsFirstMin(cs, j) && r.minDate == bars[j].date && r.minClose == cs[j];
    assert cs[j] <= cs[|cs| - 1] <= cs[i];
    ChangeOrder(r.minClose, r.lastClose, r.maxClose);
  }

  /** The arithmetic behind ChangesAgainstMax. */
  lemma ChangeOrder(lo: real, x: real, m: real)
    requires lo <= x <= m && m > 0.0
    ensures (lo - m) / m <= (x - m) / m <= 0.0
    ensures lo >= 0.0 ==> -1.0 <= (lo - m) / m
  {
    assert (x - m) / m - (lo - m) / m == (x - lo) / m;
    assert (x - m) / m == x / m - m / m;
    assert (lo - m) / m == lo / m - m / m;
    assert m / m == 1.0;
    assert x / m <= m / m;
  }
}
