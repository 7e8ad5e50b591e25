/**
 * Facts about sequences the loops below rely on, stated once on generic
 * elements so that no model definition is in scope while they are proved.
 */
module Seqs {

  /** Appending in two steps appends the concatenation. */
  lemma AppendAssoc<T>(a: seq<T>, b: seq<T>, c: seq<T>)
    ensures (a + b) + c == a + (b + c)
  {
  }

  /** Taking one more element of a sequence appends that element. */
  lemma TakeSnoc<T>(s: seq<T>, i: nat)
    requires i < |s|
    ensures s[..i + 1] == s[..i] + [s[i]]
    ensures s[..i + 1][..i] == s[..i]
  {
  }

  lemma Pair<T>(x: T, y: T)
    ensures [x] + [y] == [x, y]
  {
  }

  /** Taking every element gives the sequence back. */
  lemma TakeAll<T>(s: seq<T>)
    ensures s[..|s|] == s
  {
  }

  /** Appending an element the sequence lacks keeps its elements pairwise distinct. */
  lemma DistinctSnoc<T>(s: seq<T>, x: T)
    requires forall i, j :: 0 <= i < j < |s| ==> s[i] != s[j]
    requires x !in s
    ensures var r := s + [x]; forall i, j :: 0 <= i < j < |r| ==> r[i] != r[j]
  {
  }

  /** Every element of a non-empty sequence but the last, and the last, are elements of it. */
  lemma InitIn<T>(s: seq<T>)
    requires s != []
    ensures forall x :: x in s[..|s| - 1] ==> x in s
    ensures s[|s| - 1] in s
  {
  }

  /** `p` relates the elements of `xs` and `ys` at each position. */
  predicate Pointwise<A, B>(xs: seq<A>, ys: seq<B>, p: (A, B) -> bool)
  {
    |xs| == |ys| && forall i :: 0 <= i < |xs| ==> p(xs[i], ys[i])
  }

  lemma PointwiseConcat<A, B>(xs0: seq<A>, ys0: seq<B>, xs1: seq<A>, ys1: seq<B>, p: (A, B) -> bool)
    requires Pointwise(xs0, ys0, p) && Pointwise(xs1, ys1, p)
    ensures Pointwise(xs0 + xs1, ys0 + ys1, p)
  {
    var xs, ys := xs0 + xs1, ys0 + ys1;
    forall i | 0 <= i < |xs| ensures p(xs[i], ys[i]) {
      if i < |xs0| {
        assert xs[i] == xs0[i] && ys[i] == ys0[i];
      } else {
        assert xs[i] == xs1[i - |xs0|] && ys[i] == ys1[i - |xs0|];
      }
    }
  }
}
