/** The `batch(iterable, n)` generator: consecutive slices of at most `n` items. */
module Batching {
  import opened Wrappers

  /** The slices `batch(xs, n)` yields, for a positive `n`. */
  function Batches<T>(xs: seq<T>, n: nat): (r: seq<seq<T>>)
    requires n > 0
    ensures forall b, x :: b in r && x in b ==> x in xs
    decreases |xs|
  {
    if |xs| == 0 then []
    else if |xs| <= n then [xs]
    else [xs[..n]] + Batches(xs[n..], n)
  }

  function Flatten<T>(xss: seq<seq<T>>): seq<T>
  {
    if xss == [] then [] else xss[0] + Flatten(xss[1..])
  }

  function Min(a: int, b: int): int { if a <= b then a else b }

  /** Concatenating the batches gives back the input, in order. */
  lemma {:induction false} FlattenBatches<T>(xs: seq<T>, n: nat)
    requires n > 0
    ensures Flatten(Batches(xs, n)) == xs
    decreases |xs|
  {
    if |xs| > n {
      FlattenBatches(xs[n..], n);
      assert xs == xs[..n] + xs[n..];
    }
  }

  /**
   * Every batch is non-empty and holds at most `n` items, every batch but the
   * last holds exactly `n`, and there are ceil(|xs| / n) batches: none for an
   * empty input, otherwise the least count whose `n`-fold covers the input.
   */
  lemma {:induction false} BatchShape<T>(xs: seq<T>, n: nat)
    requires n > 0
    ensures var bs := Batches(xs, n);
            && (|bs| == 0 <==> |xs| == 0)
            && (|bs| - 1) * n < |xs| <= |bs| * n
            && (forall i :: 0 <= i < |bs| ==> 0 < |bs[i]| <= n)
            && (forall i :: 0 <= i < |bs| - 1 ==> |bs[i]| == n)
    decreases |xs|
  {
    var bs := Batches(xs, n);
    if |xs| > n {
      BatchShape(xs[n..], n);
      var rest := Batches(xs[n..], n);
      assert bs == [xs[..n]] + rest;
      assert (|bs| - 1) * n == (|rest| - 1) * n + n;
      assert |bs| * n == |rest| * n + n;
      forall i | 0 <= i < |bs| ensures 0 < |bs[i]| <= n {
        if i > 0 { assert bs[i] == rest[i - 1]; }
      }
      forall i | 0 <= i < |bs| - 1 ensures |bs[i]| == n {
        if i > 0 { assert bs[i] == rest[i - 1]; }
      }
    }
  }

  /** The total number of items over all batches is the input length. */
  lemma BatchesTotal<T>(xs: seq<T>, n: nat)
    requires n > 0
    ensures |Flatten(Batches(xs, n))| == |xs|
  {
    FlattenBatches(xs, n);
  }

  /**
   * `batch(xs, n)`: steps `ndx` through `range(0, len(xs), n)` and yields
   * `xs[ndx:min(ndx + n, len(xs))]`. `range` refuses a zero step
   * (`None` here) and yields nothing for a negative one.
   */
  method Batch<T>(xs: seq<T>, n: int) returns (r: Option<seq<seq<T>>>)
    ensures n == 0 <==> r.None?
    ensures n < 0 ==> r == Some([])
    ensures n > 0 ==> r == Some(Batches(xs, n))
  {
    if n == 0 {
      return None;
    }
    var batches: seq<seq<T>> := [];
    if n > 0 {
      var ndx := 0;
      while ndx < |xs|
        invariant 0 <= ndx
        invariant batches + Batches(xs[Min(ndx, |xs|)..], n) == Batches(xs, n)
        decreases |xs| - ndx
      {
        var stop := Min(ndx + n, |xs|);
        var rest := xs[ndx..];
        assert Batches(rest, n) == [xs[ndx..stop]] + Batches(xs[stop..], n) by {
          if |rest| <= n {
            assert xs[ndx..stop] == rest;
            assert xs[stop..] == [];
          } else {
            assert rest[..n] == xs[ndx..stop];
            assert rest[n..] == xs[stop..];
          }
        }
        assert Min(ndx + n, |xs|) == stop;
        batches := batches + [xs[ndx..stop]];
        ndx := ndx + n;
      }
      assert Min(ndx, |xs|) == |xs| && xs[|xs|..] == [];
      assert Batches(xs[|xs|..], n) == [];
      assert batches == Batches(xs, n);
    }
    r := Some(batches);
  }
}
