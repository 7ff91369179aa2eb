/** The band-breach classifier of BBand_Outliers.

    The source compares the High, Low, Open and Close columns of the
    inspected rows with each row's own band through boolean masks:
    `gt(upper_band, 0).all(1).any()` and so on. Classify follows that mask
    pipeline; ClassifySpec states the same chain with quantifiers over rows
    and fields, and the contract of Classify connects the two. A missing (NaN)
    band fails every comparison, as pandas' gt and lt do. */
module BandSignals {
  import opened PriceData

  datatype BandSignal = AboveUpperBand | OnUpperBand | BelowLowerBand | OnLowerBand

  /** The text the source stores in `indicator`. */
  function Label(s: BandSignal): string {
    match s
    case AboveUpperBand => "Above Upper Band"
    case OnUpperBand => "On Upper Band"
    case BelowLowerBand => "Below Lower Band"
    case OnLowerBand => "On Lower Band"
  }

  /** x > band, false against NaN. */
  predicate Gt(x: real, band: Option<real>) { band.Some? && x > band.value }

  /** x < band, false against NaN. */
  predicate Lt(x: real, band: Option<real>) { band.Some? && x < band.value }

  /** The four compared columns, in the source's order. */
  function Fields(b: Bar): seq<real> { [b.high, b.low, b.open, b.close] }

  /** subdf[['High','Low','Open','Close']].gt(subdf['upper_band'], 0) */
  function GtMask(rows: seq<BandedBar>): (m: seq<seq<bool>>)
    ensures |m| == |rows|
  {
    seq(|rows|, i requires 0 <= i < |rows| =>
      var f := Fields(rows[i].bar);
      [Gt(f[0], rows[i].upperBand), Gt(f[1], rows[i].upperBand),
       Gt(f[2], rows[i].upperBand), Gt(f[3], rows[i].upperBand)])
  }

  /** subdf[['High','Low','Open','Close']].lt(subdf['lower_band'], 0) */
  function LtMask(rows: seq<BandedBar>): (m: seq<seq<bool>>)
    ensures |m| == |rows|
  {
    seq(|rows|, i requires 0 <= i < |rows| =>
      var f := Fields(rows[i].bar);
      [Lt(f[0], rows[i].lowerBand), Lt(f[1], rows[i].lowerBand),
       Lt(f[2], rows[i].lowerBand), Lt(f[3], rows[i].lowerBand)])
  }

  /** .all(1): one flag per row. */
  function AllPerRow(m: seq<seq<bool>>): seq<bool> {
    seq(|m|, i requires 0 <= i < |m| => AllTrue(m[i]))
  }

  /** .any(1): one flag per row. */
  function AnyPerRow(m: seq<seq<bool>>): seq<bool> {
    seq(|m|, i requires 0 <= i < |m| => AnyTrue(m[i]))
  }

  /** Some field of the row is above the row's upper band. */
  predicate SomeFieldAbove(r: BandedBar) {
    var b := r.bar; var u := r.upperBand;
    Gt(b.high, u) || Gt(b.low, u) || Gt(b.open, u) || Gt(b.close, u)
  }
  /** Every field of the row is above the row's upper band. */
  predicate AllFieldsAbove(r: BandedBar) {
    var b := r.bar; var u := r.upperBand;
    Gt(b.high, u) && Gt(b.low, u) && Gt(b.open, u) && Gt(b.close, u)
  }
  /** Some field of the row is below the row's lower band. */
  predicate SomeFieldBelow(r: BandedBar) {
    var b := r.bar; var l := r.lowerBand;
    Lt(b.high, l) || Lt(b.low, l) || Lt(b.open, l) || Lt(b.close, l)
  }
  /** Every field of the row is below the row's lower band. */
  predicate AllFieldsBelow(r: BandedBar) {
    var b := r.bar; var l := r.lowerBand;
    Lt(b.high, l) && Lt(b.low, l) && Lt(b.open, l) && Lt(b.close, l)
  }

  /** The classification stated row by row: the first of the four tests,
      in priority order, that some inspected row passes. */
  ghost function ClassifySpec(rows: seq<BandedBar>): Option<BandSignal> {
    if exists r :: r in rows && AllFieldsAbove(r) then Some(AboveUpperBand)
    else if exists r :: r in rows && SomeFieldAbove(r) then Some(OnUpperBand)
    else if exists r :: r in rows && AllFieldsBelow(r) then Some(BelowLowerBand)
    else if exists r :: r in rows && SomeFieldBelow(r) then Some(OnLowerBand)
    else None
  }

  lemma MasksPerRow(rows: seq<BandedBar>, i: int)
    requires 0 <= i < |rows|
    ensures AllTrue(GtMask(rows)[i]) == AllFieldsAbove(rows[i])
    ensures AnyTrue(GtMask(rows)[i]) == SomeFieldAbove(rows[i])
    ensures AllTrue(LtMask(rows)[i]) == AllFieldsBelow(rows[i])
    ensures AnyTrue(LtMask(rows)[i]) == SomeFieldBelow(rows[i])
  {
    var g, l := GtMask(rows)[i], LtMask(rows)[i];
    AllTrueMeansEvery(g);
    AnyTrueMeansSome(g);
    AllTrueMeansEvery(l);
    AnyTrueMeansSome(l);
    assert |g| == 4 && |l| == 4;
    assert g[0] || g[1] || g[2] || g[3] ==> exists k :: 0 <= k < |g| && g[k];
    assert l[0] || l[1] || l[2] || l[3] ==> exists k :: 0 <= k < |l| && l[k];
    assert (forall k :: 0 <= k < |g| ==> g[k]) <==> g[0] && g[1] && g[2] && g[3];
    assert (forall k :: 0 <= k < |l| ==> l[k]) <==> l[0] && l[1] && l[2] && l[3];
  }

  /** The row-wise mask result equals "some row passes the row test". */
  lemma MaskColumn(rows: seq<BandedBar>, flags: seq<bool>, test: BandedBar -> bool)
    requires |flags| == |rows|
    requires forall i :: 0 <= i < |rows| ==> flags[i] == test(rows[i])
    ensures AnyTrue(flags) <==> exists r :: r in rows && test(r)
  {
    AnyTrueMeansSome(flags);
    if exists r :: r in rows && test(r) {
      var r :| r in rows && test(r);
      var i :| 0 <= i < |rows| && rows[i] == r;
      assert flags[i];
    }
  }

  /** The four mask reductions of the source are the four row tests: some
      row passes each. */
  lemma MaskTests(rows: seq<BandedBar>)
    ensures AnyTrue(AllPerRow(GtMask(rows))) <==> exists r :: r in rows && AllFieldsAbove(r)
    ensures AnyTrue(AnyPerRow(GtMask(rows))) <==> exists r :: r in rows && SomeFieldAbove(r)
    ensures AnyTrue(AllPerRow(LtMask(rows))) <==> exists r :: r in rows && AllFieldsBelow(r)
    ensures AnyTrue(AnyPerRow(LtMask(rows))) <==> exists r :: r in rows && SomeFieldBelow(r)
  {
    forall i | 0 <= i < |rows| { MasksPerRow(rows, i); }
    MaskColumn(rows, AllPerRow(GtMask(rows)), AllFieldsAbove);
    MaskColumn(rows, AnyPerRow(GtMask(rows)), SomeFieldAbove);
    MaskColumn(rows, AllPerRow(LtMask(rows)), AllFieldsBelow);
    MaskColumn(rows, AnyPerRow(LtMask(rows)), SomeFieldBelow);
  }

  /** The if/elif chain over the masks; None when no test passes. It
      computes the row-by-row chain ClassifySpec. */
  function Classify(rows: seq<BandedBar>): (r: Option<BandSignal>)
    ensures r == ClassifySpec(rows)
  {
    MaskTests(rows);
    if AnyTrue(AllPerRow(GtMask(rows))) then Some(AboveUpperBand)
    else if AnyTrue(AnyPerRow(GtMask(rows))) then Some(OnUpperBand)
    else if AnyTrue(AllPerRow(LtMask(rows))) then Some(BelowLowerBand)
    else if AnyTrue(AnyPerRow(LtMask(rows))) then Some(OnLowerBand)
    else None
  }

  /** What each outcome says about the inspected rows: "On Upper Band" only
      when no row is wholly above its band; a lower-band signal only when no
      field of any row exceeds its upper band; no signal exactly when every
      field of every row lies within (or on) its defined bands. */
  lemma ClassifyOutcomes(rows: seq<BandedBar>)
    ensures Classify(rows) == Some(AboveUpperBand) <==> exists r :: r in rows && AllFieldsAbove(r)
    ensures Classify(rows) == Some(OnUpperBand) ==>
              (forall r :: r in rows ==> !AllFieldsAbove(r)) && exists r :: r in rows && SomeFieldAbove(r)
    ensures Classify(rows) in {Some(BelowLowerBand), Some(OnLowerBand)} ==>
              forall r :: r in rows ==> !SomeFieldAbove(r)
    ensures Classify(rows) == Some(BelowLowerBand) ==> exists r :: r in rows && AllFieldsBelow(r)
    ensures Classify(rows) == None <==>
              forall r :: r in rows ==> !SomeFieldAbove(r) && !SomeFieldBelow(r)
  {
  }

  /** A row whose bands are both NaN (a warm-up row) never changes the
      outcome: it passes none of the four tests. */
  lemma WarmUpRowsIgnored(rows: seq<BandedBar>, r: BandedBar)
    requires r.upperBand.None? && r.lowerBand.None?
    ensures Classify(rows + [r]) == Classify(rows)
    ensures Classify([r] + rows) == Classify(rows)
  {
    assert forall x :: x in rows + [r] <==> x in rows || x == r;
    assert forall x :: x in [r] + rows <==> x in rows || x == r;
  }

  /** Nothing inspected, nothing reported. */
  lemma NoRowsNoSignal()
    ensures Classify([]) == None
  {
  }

  /** The reported indicator of the copies whose fallback is Python None. */
  function ReportedOrNone(c: Option<BandSignal>): Option<string> {
    if c.Some? then Some(Label(c.value)) else None
  }

  /** The reported indicator of the copies whose fallback is the string " ". */
  function ReportedOrBlank(c: Option<BandSignal>): Option<string> {
    if c.Some? then Some(Label(c.value)) else Some(" ")
  }

  /** The two fallbacks differ only where no test passed, and the blank can
      never be mistaken for a label. */
  lemma FallbacksDiffer(c: Option<BandSignal>)
    ensures ReportedOrBlank(c).Some?
    ensures ReportedOrNone(c).None? <==> c.None?
    ensures ReportedOrBlank(c) == Some(" ") <==> c.None?
    ensures c.Some? ==> ReportedOrBlank(c) == ReportedOrNone(c)
  {
    if c.Some? {
      assert Label(c.value)[0] != ' ';
    }
  }

  /** The payload of `return [self.symbol, indicator]`. */
  datatype BandReport = BandReport(symbol: string, indicator: Option<string>)
}
