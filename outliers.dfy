/** `iqr` of server/app/helpers/outliers.py: keep the values that lie
    between two quantiles of the input. numpy's quantile is not part of
    this model; it is the parameter `quantile`, the value of
    `np.quantile(xs, q)`. */
module Outliers {
  import Seqs

  /** The band test `q1_value <= x <= q2_value`: both ends inclusive. */
  function InBand(low: real, high: real): real -> bool {
    x => low <= x <= high
  }

  /** The filter expression of `iqr` once the two quantile values are known. */
  function BandFilter(xs: seq<real>, low: real, high: real): (r: seq<real>)
    ensures |r| <= |xs|
    ensures forall x :: x in r <==> x in xs && low <= x <= high
  {
    Seqs.Filter(xs, InBand(low, high))
  }

  /** `iqr(xs, q1_bound, q2_bound)`. */
  function Iqr(xs: seq<real>, quantile: (seq<real>, real) -> real, q1Bound: real, q2Bound: real): (r: seq<real>)
    ensures |r| <= |xs|
    ensures forall x :: x in r <==> x in xs && quantile(xs, q1Bound) <= x <= quantile(xs, q2Bound)
  {
    BandFilter(xs, quantile(xs, q1Bound), quantile(xs, q2Bound))
  }

  /** `iqr(xs)` with its default bounds, the first and third quartiles. */
  function IqrDefault(xs: seq<real>, quantile: (seq<real>, real) -> real): (r: seq<real>)
    ensures forall x :: x in r <==> x in xs && quantile(xs, 0.25) <= x <= quantile(xs, 0.75)
  {
    Iqr(xs, quantile, 0.25, 0.75)
  }

  /** Every copy of an in-band value is kept (the bounds themselves
      included) and every copy of an out-of-band value is dropped. */
  lemma {:induction false} BandFilterCounts(xs: seq<real>, low: real, high: real)
    ensures forall x ::
              multiset(BandFilter(xs, low, high))[x] == if low <= x <= high then multiset(xs)[x] else 0
  {
    Seqs.FilterMultiset(xs, InBand(low, high));
  }

  /** The kept values stay in their input order. */
  lemma {:induction false} BandFilterOrder(xs: seq<real>, low: real, high: real)
    ensures Seqs.IsSubsequence(BandFilter(xs, low, high), xs)
  {
    Seqs.FilterIsSubsequence(xs, InBand(low, high));
  }

  /** Filtering again with the same bound values changes nothing. */
  lemma {:induction false} BandFilterIdempotent(xs: seq<real>, low: real, high: real)
    ensures BandFilter(BandFilter(xs, low, high), low, high) == BandFilter(xs, low, high)
  {
    Seqs.FilterIdempotent(xs, InBand(low, high));
  }
}
