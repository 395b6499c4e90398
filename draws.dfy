/**
 * The engine takes every random number from numpy's process-wide generator.
 * Here each draw is an explicit argument, so a seed stands for the sequence
 * of draws it produces and a run is a function of that sequence.
 *
 * - `np.random.random()` is a unit variate `u` with `0 <= u < 1`.
 * - A uniform integer draw over `n` items (`randint(n)`, `choice(list)`)
 *   is the index `floor(u * n)` of a unit variate.
 * - A weighted draw (`choice(n, p=probs)`) is numpy's inverse-CDF rule on a
 *   unit variate: the first index whose cumulative probability exceeds `u`.
 */
module Draws {

  /** A value `np.random.random()` can return. */
  predicate IsUnit(u: real) { 0.0 <= u < 1.0 }

  /** A uniform index in `[0, n)`. */
  function UniformIndex(u: real, n: nat): (i: nat)
    requires IsUnit(u) && n > 0
    ensures i < n
  {
    var x := u * n as real;
    assert x < n as real;
    x.Floor
  }

  function Sum(xs: seq<real>): real
  {
    if xs == [] then 0.0 else xs[0] + Sum(xs[1..])
  }

  lemma {:induction false} SumAppend(xs: seq<real>, x: real)
    ensures Sum(xs + [x]) == Sum(xs) + x
  {
    if xs != [] {
      assert (xs + [x])[1..] == xs[1..] + [x];
      SumAppend(xs[1..], x);
    }
  }

  /** `probs = weights / total`. */
  function Normalize(w: seq<real>, total: real): (p: seq<real>)
    requires total != 0.0
    ensures |p| == |w|
    ensures forall i :: 0 <= i < |w| ==> p[i] == w[i] / total
  {
    seq(|w|, i requires 0 <= i < |w| => w[i] / total)
  }

  /** Non-negative weights with a positive total normalise to probabilities that sum to one. */
  lemma NormalizeIsDistribution(w: seq<real>)
    requires forall i :: 0 <= i < |w| ==> w[i] >= 0.0
    requires Sum(w) > 0.0
    ensures forall i :: 0 <= i < |w| ==> Normalize(w, Sum(w))[i] >= 0.0
    ensures Sum(Normalize(w, Sum(w))) == 1.0
  {
    var t := Sum(w);
    forall i | 0 <= i < |w| ensures Normalize(w, t)[i] >= 0.0 {
      DivNonNegative(w[i], t);
    }
    SumNormalize(w, t);
    DivSelf(t);
  }

  lemma DivSelf(t: real)
    requires t != 0.0
    ensures t / t == 1.0
  {
  }

  lemma DivNonNegative(a: real, t: real)
    requires a >= 0.0 && t > 0.0
    ensures a / t >= 0.0
  {
  }

  lemma {:induction false} SumNormalize(w: seq<real>, t: real)
    requires t != 0.0
    ensures Sum(Normalize(w, t)) == Sum(w) / t
  {
    if w != [] {
      assert Normalize(w, t)[1..] == Normalize(w[1..], t);
      SumNormalize(w[1..], t);
      assert w[0] / t + Sum(w[1..]) / t == (w[0] + Sum(w[1..])) / t;
    }
  }

  /**
   * The index a weighted draw returns: the first `i` with
   * `u < p[0] + ... + p[i]`, the last index when there is none.
   */
  function WeightedIndex(p: seq<real>, u: real): (i: nat)
    requires |p| > 0
    ensures i < |p|
  {
    if |p| == 1 || u < p[0] then 0 else 1 + WeightedIndex(p[1..], u - p[0])
  }

  /**
   * Inverse CDF: for `0 <= u < Sum(p)` the chosen index is the one whose
   * cumulative interval contains `u`.
   */
  lemma {:induction false} WeightedIndexInterval(p: seq<real>, u: real)
    requires |p| > 0
    requires forall k :: 0 <= k < |p| ==> p[k] >= 0.0
    requires 0.0 <= u < Sum(p)
    ensures Sum(p[..WeightedIndex(p, u)]) <= u < Sum(p[..WeightedIndex(p, u) + 1])
  {
    var i := WeightedIndex(p, u);
    if |p| == 1 {
      assert p[..1] == p;
      assert p[..0] == [];
    } else if u < p[0] {
      assert p[..0] == [];
      assert p[..1] == [p[0]];
    } else {
      var q := p[1..];
      WeightedIndexInterval(q, u - p[0]);
      var j := WeightedIndex(q, u - p[0]);
      assert i == j + 1;
      assert p[..i][1..] == q[..j];
      assert p[..i + 1][1..] == q[..j + 1];
    }
  }

  /** A weighted draw never returns an index whose probability is zero. */
  lemma WeightedIndexPositive(p: seq<real>, u: real)
    requires |p| > 0
    requires forall k :: 0 <= k < |p| ==> p[k] >= 0.0
    requires 0.0 <= u < Sum(p)
    ensures p[WeightedIndex(p, u)] > 0.0
  {
    var i := WeightedIndex(p, u);
    WeightedIndexInterval(p, u);
    assert p[..i + 1] == p[..i] + [p[i]];
    SumAppend(p[..i], p[i]);
  }
}
