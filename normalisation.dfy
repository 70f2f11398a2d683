/**
 * The normalisation stage of `bars`: optional division by `scale_by` with
 * numpy broadcasting, the reference maximum, and percent conversion.
 */
module Normalisation {
  import opened Outcomes
  import opened Extrema

  /** The `scale_by` argument. */
  datatype ScaleBy =
    | NoScale                   // scale_by=None
    | Scalar(divisor: real)     // an int or float
    | PerBar(divisors: seq<real>)  // a list, tuple or 1-D array

  /** The values after scaling and the reference maximum they are measured against. */
  datatype Normalised = Normalised(values: seq<real>, referenceMax: real)

  /** No divisor is zero (division by zero yields IEEE infinities, which are not modelled). */
  predicate NonZeroDivisors(scale: ScaleBy) {
    match scale
    case NoScale => true
    case Scalar(c) => c != 0.0
    case PerBar(ds) => forall i :: 0 <= i < |ds| ==> ds[i] != 0.0
  }

  /** The divisors as an array, a scalar counting as a one-element array. */
  function Divisors(scale: ScaleBy): seq<real>
    requires !scale.NoScale?
  {
    match scale
    case Scalar(c) => [c]
    case PerBar(ds) => ds
  }

  /** numpy broadcasting of two one-dimensional shapes. */
  predicate Broadcastable(m: nat, n: nat) {
    m == n || m == 1 || n == 1
  }

  /** The broadcast length: each operand has it already or is stretched to it from length one. */
  function BroadcastLength(m: nat, n: nat): (r: nat)
    requires Broadcastable(m, n)
    ensures (m == r || m == 1) && (n == r || n == 1)
  {
    if m == 1 then n else m
  }

  /** Element `i` of a broadcast operand: a one-element array repeats its element. */
  function At(s: seq<real>, i: nat): real
    requires |s| == 1 || i < |s|
  {
    if |s| == 1 then s[0] else s[i]
  }

  /**
   * Elementwise division of the values by the divisors. Fails when the shapes cannot be broadcast;
   * otherwise multiplying each quotient back by its divisor gives the value.
   */
  function Divide(data: seq<real>, divisors: seq<real>): (r: Result<seq<real>>)
    requires forall i :: 0 <= i < |divisors| ==> divisors[i] != 0.0
    ensures r.Success? <==> Broadcastable(|data|, |divisors|)
    ensures r.Failure? ==> r.error == ShapeMismatch
    ensures r.Success? ==>
      |r.value| == BroadcastLength(|data|, |divisors|) &&
      forall i :: 0 <= i < |r.value| ==> r.value[i] * At(divisors, i) == At(data, i)
  {
    if !Broadcastable(|data|, |divisors|) then Failure(ShapeMismatch)
    else
      var n := BroadcastLength(|data|, |divisors|);
      Success(seq(n, i requires 0 <= i < n => At(data, i) / At(divisors, i)))
  }

  /**
   * With `scale_by`, the values are divided and the reference maximum is 1;
   * without it, the values are unchanged and the reference maximum is their
   * largest element (`data.max()` fails on an empty array).
   */
  function Normalise(data: seq<real>, scale: ScaleBy): (r: Result<Normalised>)
    requires NonZeroDivisors(scale)
    ensures scale.NoScale? ==> (r.Success? <==> |data| > 0)
    ensures scale.NoScale? && r.Success? ==>
      r.value.values == data && r.value.referenceMax in data &&
      forall i :: 0 <= i < |data| ==> data[i] <= r.value.referenceMax
    ensures !scale.NoScale? ==> (r.Success? <==> Broadcastable(|data|, |Divisors(scale)|))
    ensures !scale.NoScale? && r.Success? ==>
      r.value.referenceMax == 1.0 && Divide(data, Divisors(scale)) == Success(r.value.values)
    ensures r.Failure? ==> r.error == (if scale.NoScale? then EmptySequence else ShapeMismatch)
  {
    if scale.NoScale? then
      if |data| == 0 then Failure(EmptySequence) else Success(Normalised(data, Max(data)))
    else
      var values :- Divide(data, Divisors(scale));
      Success(Normalised(values, 1.0))
  }

  /** Percent mode: every height multiplied by 100. */
  function Percent(values: seq<real>): (r: seq<real>)
    ensures |r| == |values|
    ensures forall i :: 0 <= i < |r| ==> r[i] == 100.0 * values[i]
  {
    seq(|values|, i requires 0 <= i < |values| => 100.0 * values[i])
  }

  /** Percent mode: both y-limits multiplied by 100 when a `ylim` was given. */
  function PercentLimits(ylim: Option<(real, real)>): (r: Option<(real, real)>)
    ensures r.Some? <==> ylim.Some?
    ensures ylim.Some? ==> r.value.0 == 100.0 * ylim.value.0 && r.value.1 == 100.0 * ylim.value.1
  {
    match ylim
    case None => None
    case Some((lo, hi)) => Some((100.0 * lo, 100.0 * hi))
  }

  // ---- Properties of the normalisation stage ----

  /** Scaling by 1 changes nothing, so doing it twice is the same as doing it once. */
  lemma ScaleByOneIdempotent(data: seq<real>)
    ensures Normalise(data, Scalar(1.0)) == Success(Normalised(data, 1.0))
    ensures Normalise(Normalise(data, Scalar(1.0)).value.values, Scalar(1.0)) == Normalise(data, Scalar(1.0))
  {
    var r := Divide(data, [1.0]);
    assert r.value == data by {
      forall i | 0 <= i < |data|
        ensures r.value[i] == data[i]
      {
        assert r.value[i] * 1.0 == data[i];
      }
    }
  }

  /**
   * Sorting before scaling is safe for a positive scalar: it keeps the order of
   * any two values.
   */
  lemma PositiveScalePreservesOrder(data: seq<real>, c: real, i: nat, j: nat)
    requires c > 0.0 && i < |data| && j < |data| && data[i] <= data[j]
    ensures var v := Normalise(data, Scalar(c)).value.values;
      |v| == |data| && v[i] <= v[j]
  {
    var v := Normalise(data, Scalar(c)).value.values;
    assert v[i] * c == data[i] && v[j] * c == data[j];
    QuotientOrder(v[i], v[j], c);
  }

  /** A negative scalar reverses the order that sorting before scaling established. */
  lemma NegativeScaleReversesOrder(data: seq<real>, c: real, i: nat, j: nat)
    requires c < 0.0 && i < |data| && j < |data| && data[i] < data[j]
    ensures var v := Normalise(data, Scalar(c)).value.values;
      |v| == |data| && v[i] > v[j]
  {
    var v := Normalise(data, Scalar(c)).value.values;
    assert v[i] * c == data[i] && v[j] * c == data[j];
    QuotientOrder(v[j], v[i], -c);
  }

  /** Cancelling a positive factor keeps the order of two products. */
  lemma QuotientOrder(a: real, b: real, c: real)
    requires c > 0.0
    ensures a * c <= b * c ==> a <= b
    ensures a * c < b * c ==> a < b
  {
  }
}
