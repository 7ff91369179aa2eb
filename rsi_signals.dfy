/** The vocabulary of overbought_oversold: the four indicator texts and the
    element-wise comparisons of an RSI series with a threshold. A missing
    (NaN) RSI value fails every comparison, as pandas' <=, <, >= and > do;
    any() and all() then read the resulting boolean mask. */
module RsiSignals {
  import opened PriceData

  /** The indicator texts "Oversold", "Maybe Oversold", "Maybe Overbought"
      and "Overbought", one constructor each. */
  datatype RsiSignal = Oversold | MaybeOversold | MaybeOverbought | Overbought

  /** The four comparison operators the classifier applies. */
  datatype Cmp = AtMost | Below | AtLeast | Above

  /** value `op` c on one RSI value; false against NaN. */
  predicate Holds(x: Option<real>, op: Cmp, c: real) {
    x.Some? &&
    match op
    case AtMost => x.value <= c
    case Below => x.value < c
    case AtLeast => x.value >= c
    case Above => x.value > c
  }

  /** `sub <= c`, `sub < c`, `sub >= c` or `sub > c`: a boolean mask with one
      entry per value. */
  function Mask(sub: seq<Option<real>>, op: Cmp, c: real): (m: seq<bool>)
    ensures |m| == |sub|
    ensures forall i :: 0 <= i < |sub| ==> m[i] == Holds(sub[i], op, c)
  {
    seq(|sub|, i requires 0 <= i < |sub| => Holds(sub[i], op, c))
  }

  /** any(sub op c): some value passes the comparison. */
  lemma AnyMask(sub: seq<Option<real>>, op: Cmp, c: real)
    ensures AnyTrue(Mask(sub, op, c)) <==> exists i :: 0 <= i < |sub| && Holds(sub[i], op, c)
  {
    AnyTrueMeansSome(Mask(sub, op, c));
  }

  /** all(sub op c): every value passes the comparison, so a NaN anywhere
      makes it false. */
  lemma AllMask(sub: seq<Option<real>>, op: Cmp, c: real)
    ensures AllTrue(Mask(sub, op, c)) <==> forall i :: 0 <= i < |sub| ==> Holds(sub[i], op, c)
  {
    AllTrueMeansEvery(Mask(sub, op, c));
  }

  /** The "Maybe Overbought" test, all(sub < 70) together with
      any(sub >= 70), asks one value to be both below 70 and at least 70:
      no series passes it. */
  lemma MaybeOverboughtTestFails(sub: seq<Option<real>>)
    ensures !(AllTrue(Mask(sub, Below, 70.0)) && AnyTrue(Mask(sub, AtLeast, 70.0)))
  {
    AllMask(sub, Below, 70.0);
    AnyMask(sub, AtLeast, 70.0);
  }

  /** Some defined value is at most c. */
  ghost predicate SomeAtMost(sub: seq<Option<real>>, c: real) {
    exists i :: 0 <= i < |sub| && sub[i].Some? && sub[i].value <= c
  }

  /** Some defined value is at least c. */
  ghost predicate SomeAtLeast(sub: seq<Option<real>>, c: real) {
    exists i :: 0 <= i < |sub| && sub[i].Some? && sub[i].value >= c
  }

  /** Every value is defined and above c. */
  ghost predicate AllAbove(sub: seq<Option<real>>, c: real) {
    forall i :: 0 <= i < |sub| ==> sub[i].Some? && sub[i].value > c
  }

  /** Every defined value lies strictly between lo and hi. */
  ghost predicate DefinedWithin(sub: seq<Option<real>>, lo: real, hi: real) {
    forall i :: 0 <= i < |sub| ==> sub[i].Some? ==> lo < sub[i].value < hi
  }

  /** No value is NaN. */
  ghost predicate AllDefined(sub: seq<Option<real>>) {
    forall i :: 0 <= i < |sub| ==> sub[i].Some?
  }

  /** Without NaN, "no value at most c" means "every value above c", a
      value at most a lower bound is also at most a higher one, and lying
      strictly between lo and hi means no value is at most lo or at least
      hi. */
  lemma DefinedValues(sub: seq<Option<real>>, c: real, lo: real, hi: real)
    requires AllDefined(sub)
    ensures !SomeAtMost(sub, c) <==> AllAbove(sub, c)
    ensures c <= lo ==> (SomeAtMost(sub, c) ==> SomeAtMost(sub, lo))
    ensures DefinedWithin(sub, lo, hi) <==> !SomeAtMost(sub, lo) && !SomeAtLeast(sub, hi)
  {
  }

  /** The masks the classifiers read, stated over the values. */
  lemma MasksMean(sub: seq<Option<real>>)
    ensures AnyTrue(Mask(sub, AtMost, 20.0)) <==> SomeAtMost(sub, 20.0)
    ensures AnyTrue(Mask(sub, AtMost, 30.0)) <==> SomeAtMost(sub, 30.0)
    ensures AnyTrue(Mask(sub, AtLeast, 80.0)) <==> SomeAtLeast(sub, 80.0)
    ensures AllTrue(Mask(sub, Above, 20.0)) <==> AllAbove(sub, 20.0)
    ensures !(AllTrue(Mask(sub, Below, 70.0)) && AnyTrue(Mask(sub, AtLeast, 70.0)))
  {
    AnyMask(sub, AtMost, 20.0);
    AnyMask(sub, AtMost, 30.0);
    AnyMask(sub, AtLeast, 80.0);
    AllMask(sub, Above, 20.0);
    MaybeOverboughtTestFails(sub);
  }
}
