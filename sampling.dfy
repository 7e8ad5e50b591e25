/**
 * `DataFrame.sample(n=count, frac=ratio)` without replacement. The random
 * draw is a parameter: a permutation of the row positions, of which the
 * first `size` are kept (so the kept rows come out in random order). The
 * size for a fraction is `round(ratio * population)` in floating point and
 * is supplied by the caller as `fracSize`.
 */
module Sampling {
  import opened Wrappers

  /** Row positions below `n`, each at most once. */
  predicate DistinctIndices(idx: seq<nat>, n: nat)
  {
    && (forall i :: 0 <= i < |idx| ==> idx[i] < n)
    && (forall i, j :: 0 <= i < j < |idx| ==> idx[i] != idx[j])
  }

  predicate IsPermutation(perm: seq<nat>, n: nat)
  {
    |perm| == n && DistinctIndices(perm, n)
  }

  /** The rows at the given positions, in the order of the positions. */
  function Pick<T>(rows: seq<T>, idx: seq<nat>): (r: seq<T>)
    requires forall i :: 0 <= i < |idx| ==> idx[i] < |rows|
    ensures |r| == |idx|
    ensures forall i :: 0 <= i < |idx| ==> r[i] == rows[idx[i]]
  {
    seq(|idx|, i requires 0 <= i < |idx| => rows[idx[i]])
  }

  /** Why pandas refuses a sample request (each a `ValueError`). */
  datatype SampleError =
    | CountAndFraction
    | NegativeCount
    | CountAbovePopulation
    | NegativeFraction
    | FractionAboveOne

  /** How many rows `sample(n=count, frac=ratio)` keeps out of `population`, or why it refuses. */
  function SampleSize(population: nat, count: Option<int>, ratio: Option<real>, fracSize: nat): (r: Result<nat, SampleError>)
    requires ratio.Some? && 0.0 <= ratio.value <= 1.0 ==> fracSize <= population
    ensures r.Success? ==> r.value <= population
    ensures count.Some? && ratio.None? && 0 <= count.value <= population ==> r == Success(count.value)
    ensures count.Some? && ratio.None? && count.value > population ==> r == Failure(CountAbovePopulation)
    ensures count.Some? && ratio.Some? ==> r == Failure(CountAndFraction)
  {
    match (count, ratio)
    case (Some(_), Some(_)) => Failure(CountAndFraction)
    case (Some(n), None) =>
      if n < 0 then Failure(NegativeCount)
      else if n > population then Failure(CountAbovePopulation)
      else Success(n)
    case (None, Some(f)) =>
      if f < 0.0 then Failure(NegativeFraction)
      else if f > 1.0 then Failure(FractionAboveOne)
      else Success(fracSize)
    case (None, None) =>
      // pandas draws one row when neither is given
      if population < 1 then Failure(CountAbovePopulation) else Success(1)
  }

  /** `rows.sample(n=count, frac=ratio)` for the random order `perm`. */
  function Sample<T>(rows: seq<T>, count: Option<int>, ratio: Option<real>, perm: seq<nat>, fracSize: nat): (r: Result<seq<T>, SampleError>)
    requires IsPermutation(perm, |rows|)
    requires ratio.Some? && 0.0 <= ratio.value <= 1.0 ==> fracSize <= |rows|
    ensures r.Success? <==> SampleSize(|rows|, count, ratio, fracSize).Success?
    ensures r.Success? ==> |r.value| == SampleSize(|rows|, count, ratio, fracSize).value
  {
    match SampleSize(|rows|, count, ratio, fracSize)
    case Failure(e) => Failure(e)
    case Success(k) => Success(Pick(rows, perm[..k]))
  }

  /** Removing one position from a list of distinct positions below `n + 1` that holds `n`. */
  lemma RemoveLast(idx: seq<nat>, n: nat, p: nat)
    requires DistinctIndices(idx, n + 1)
    requires p < |idx| && idx[p] == n
    ensures DistinctIndices(idx[..p] + idx[p + 1..], n)
  {
    var rest := idx[..p] + idx[p + 1..];
    forall i | 0 <= i < |rest| ensures rest[i] < n {
      var i' := if i < p then i else i + 1;
      assert rest[i] == idx[i'];
    }
    forall i, j | 0 <= i < j < |rest| ensures rest[i] != rest[j] {
      var i' := if i < p then i else i + 1;
      var j' := if j < p then j else j + 1;
      assert rest[i] == idx[i'] && rest[j] == idx[j'];
    }
  }

  /** Picking the last row once, between two picks from the rows before it. */
  lemma PickAroundLast<T>(rows: seq<T>, a: seq<nat>, b: seq<nat>)
    requires |rows| > 0
    requires forall i :: 0 <= i < |a| ==> a[i] < |rows| - 1
    requires forall i :: 0 <= i < |b| ==> b[i] < |rows| - 1
    ensures multiset(Pick(rows, a + [|rows| - 1] + b))
         == multiset(Pick(rows[..|rows| - 1], a + b)) + multiset{rows[|rows| - 1]}
  {
    var last := |rows| - 1;
    var front := rows[..last];
    var pa, pb := Pick(front, a), Pick(front, b);
    assert Pick(rows, a + [last] + b) == pa + [rows[last]] + pb;
    assert Pick(front, a + b) == pa + pb;
  }

  /** Picking distinct positions uses each row at most once. */
  lemma {:induction false} PickSubBag<T>(rows: seq<T>, idx: seq<nat>)
    requires DistinctIndices(idx, |rows|)
    ensures multiset(Pick(rows, idx)) <= multiset(rows)
    decreases |rows|, 1
  {
    if |rows| > 0 {
      var last := |rows| - 1;
      if p :| 0 <= p < |idx| && idx[p] == last {
        PickSubBagWithLast(rows, idx, p);
      } else {
        var front := rows[..last];
        assert multiset(rows) == multiset(front) + multiset{rows[last]} by {
          assert rows == front + [rows[last]];
        }
        PickSubBag(front, idx);
        assert Pick(rows, idx) == Pick(front, idx);
      }
    }
  }

  /** `PickSubBag` when the last row is picked, at position `p`. */
  lemma {:induction false} PickSubBagWithLast<T>(rows: seq<T>, idx: seq<nat>, p: nat)
    requires DistinctIndices(idx, |rows|)
    requires |rows| > 0 && p < |idx| && idx[p] == |rows| - 1
    ensures multiset(Pick(rows, idx)) <= multiset(rows)
    decreases |rows|, 0
  {
    var last := |rows| - 1;
    var front := rows[..last];
    assert multiset(rows) == multiset(front) + multiset{rows[last]} by {
      assert rows == front + [rows[last]];
    }
    var a, b := idx[..p], idx[p + 1..];
    RemoveLast(idx, last, p);
    PickSubBag(front, a + b);
    assert idx == a + [last] + b;
    assert forall i :: 0 <= i < |a| ==> a[i] == (a + b)[i];
    assert forall i :: 0 <= i < |b| ==> b[i] == (a + b)[|a| + i];
    PickAroundLast(rows, a, b);
  }

  /** The sampled rows are rows of the input, each input row used at most once. */
  lemma SampleIsSubBag<T>(rows: seq<T>, count: Option<int>, ratio: Option<real>, perm: seq<nat>, fracSize: nat)
    requires IsPermutation(perm, |rows|)
    requires ratio.Some? && 0.0 <= ratio.value <= 1.0 ==> fracSize <= |rows|
    ensures var r := Sample(rows, count, ratio, perm, fracSize);
            r.Success? ==> multiset(r.value) <= multiset(rows) && forall x :: x in r.value ==> x in rows
  {
    var r := Sample(rows, count, ratio, perm, fracSize);
    if r.Success? {
      var k := SampleSize(|rows|, count, ratio, fracSize).value;
      PickSubBag(rows, perm[..k]);
      forall x | x in r.value ensures x in rows {
        assert x in multiset(r.value);
      }
    }
  }

  /** Count sampling keeps exactly `count` rows, and refuses a count above the population. */
  lemma SampleByCount<T>(rows: seq<T>, count: int, perm: seq<nat>)
    requires IsPermutation(perm, |rows|)
    requires count >= 0
    ensures var r := Sample(rows, Some(count), None, perm, 0);
            (r.Success? <==> count <= |rows|) && (r.Success? ==> |r.value| == count)
  {
  }
}
