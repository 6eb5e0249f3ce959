/** Sequence helpers shared by the model: distinctness and first-encounter
    de-duplication (the key order of a Python dict filled by a loop). */
module Seqs {

  predicate Distinct<T(==)>(s: seq<T>)
  {
    forall i, j :: 0 <= i < j < |s| ==> s[i] != s[j]
  }

  /** The distinct elements of `s`, each where it first occurs. */
  function Dedup<T(==)>(s: seq<T>): seq<T>
  {
    if s == [] then []
    else
      var d := Dedup(s[..|s| - 1]);
      if s[|s| - 1] in d then d else d + [s[|s| - 1]]
  }

  lemma {:induction false} DedupSpec<T>(s: seq<T>)
    ensures Distinct(Dedup(s))
    ensures forall x :: x in Dedup(s) <==> x in s
  {
    if s != [] {
      var p := s[..|s| - 1];
      DedupSpec(p);
      assert s == p + [s[|s| - 1]];
    }
  }

  lemma TakeSnoc<T>(s: seq<T>, k: nat)
    requires k < |s|
    ensures s[..k + 1] == s[..k] + [s[k]]
  {
  }

  /** The sum of the weights of the elements of `s`. */
  function Sum<T>(s: seq<T>, w: T -> nat): nat
  {
    if s == [] then 0 else Sum(s[..|s| - 1], w) + w(s[|s| - 1])
  }

  /** One element gains one unit of weight, or a new element of weight one is
      appended, and nothing else changes: the sum grows by one. */
  lemma SumGrowsByOne<T>(vs: seq<T>, vs': seq<T>, w: T -> nat, k: nat)
    requires k < |vs'| && (|vs'| == |vs| || (|vs'| == |vs| + 1 && k == |vs|))
    requires forall i :: 0 <= i < |vs| && i != k ==> vs'[i] == vs[i]
    requires w(vs'[k]) == (if k < |vs| then w(vs[k]) else 0) + 1
    ensures Sum(vs', w) == Sum(vs, w) + 1
  {
    if k < |vs| {
      assert vs' == vs[k := vs'[k]];
      SumUpdate(vs, k, vs'[k], w);
    } else {
      assert vs'[..|vs|] == vs;
    }
  }

  /** Replacing one element changes the sum by the difference of weights. */
  lemma {:induction false} SumUpdate<T>(s: seq<T>, k: nat, x: T, w: T -> nat)
    requires k < |s|
    ensures Sum(s[k := x], w) == Sum(s, w) - w(s[k]) + w(x)
  {
    var n := |s| - 1;
    if k < n {
      SumUpdate(s[..n], k, x, w);
      assert s[k := x][..n] == s[..n][k := x];
    } else {
      assert s[k := x][..n] == s[..n];
    }
  }

  /** The sum over a concatenation is the sum of the two sums. */
  lemma {:induction false} SumAppend<T>(a: seq<T>, b: seq<T>, w: T -> nat)
    ensures Sum(a + b, w) == Sum(a, w) + Sum(b, w)
  {
    if b == [] {
      assert a + b == a;
    } else {
      SumAppend(a, b[..|b| - 1], w);
      assert (a + b)[..|a + b| - 1] == a + b[..|b| - 1];
    }
  }

  /** Regrouping a concatenation around a cut inside its middle part. */
  lemma Regroup<T>(x: seq<T>, y: seq<T>, z: seq<T>, k: nat)
    requires k <= |y|
    ensures x + y + z == (x + y[..k]) + (y[k..] + z)
  {
    assert y == y[..k] + y[k..];
  }
}
