/** Python's `sorted(xs, key=...)`: a stable sort by a key under a total
    order. Modelled as insertion sort; what the model relies on is stated and
    proved below: the result is ordered, a permutation, and keeps the input
    order among elements with equal keys. */
module Sorting {
  import opened Seqs

  ghost predicate TotalOrder<K(!new)>(le: (K, K) -> bool)
  {
    && (forall a :: le(a, a))
    && (forall a, b :: le(a, b) && le(b, a) ==> a == b)
    && (forall a, b, c :: le(a, b) && le(b, c) ==> le(a, c))
    && (forall a, b :: le(a, b) || le(b, a))
  }

  ghost predicate SortedBy<T, K>(s: seq<T>, key: T -> K, le: (K, K) -> bool)
  {
    forall i, j :: 0 <= i < j < |s| ==> le(key(s[i]), key(s[j]))
  }

  /** The elements of `s` whose key is `k`, in their order in `s`. */
  function WithKey<T, K(==)>(s: seq<T>, key: T -> K, k: K): seq<T>
  {
    if s == [] then [] else (if key(s[0]) == k then [s[0]] else []) + WithKey(s[1..], key, k)
  }

  /** Puts `x` before the first element whose key it does not exceed. */
  function Insert<T, K>(x: T, s: seq<T>, key: T -> K, le: (K, K) -> bool): seq<T>
  {
    if s == [] then [x]
    else if le(key(x), key(s[0])) then [x] + s
    else [s[0]] + Insert(x, s[1..], key, le)
  }

  function SortBy<T, K>(s: seq<T>, key: T -> K, le: (K, K) -> bool): seq<T>
  {
    if s == [] then [] else Insert(s[0], SortBy(s[1..], key, le), key, le)
  }

  /** Where `Insert` puts `x`: after every element whose key it exceeds, before
      the first one whose key it does not. */
  lemma {:induction false} InsertSplit<T, K>(x: T, s: seq<T>, key: T -> K, le: (K, K) -> bool) returns (m: nat)
    ensures m <= |s| && Insert(x, s, key, le) == s[..m] + [x] + s[m..]
    ensures forall i :: 0 <= i < m ==> !le(key(x), key(s[i]))
    ensures m < |s| ==> le(key(x), key(s[m]))
  {
    if s == [] || le(key(x), key(s[0])) {
      m := 0;
    } else {
      var m' := InsertSplit(x, s[1..], key, le);
      m := m' + 1;
      assert s[..m] == [s[0]] + s[1..][..m'];
      assert s[m..] == s[1..][m'..];
    }
  }

  lemma {:induction false} WithKeyAppend<T, K>(a: seq<T>, b: seq<T>, key: T -> K, k: K)
    ensures WithKey(a + b, key, k) == WithKey(a, key, k) + WithKey(b, key, k)
  {
    if a != [] {
      WithKeyAppend(a[1..], b, key, k);
      assert (a + b)[1..] == a[1..] + b;
    } else {
      assert a + b == b;
    }
  }

  lemma {:induction false} WithKeyNone<T, K>(s: seq<T>, key: T -> K, k: K)
    requires forall i :: 0 <= i < |s| ==> key(s[i]) != k
    ensures WithKey(s, key, k) == []
  {
    if s != [] { WithKeyNone(s[1..], key, k); }
  }

  lemma InsertPerm<T, K>(x: T, s: seq<T>, key: T -> K, le: (K, K) -> bool)
    ensures multiset(Insert(x, s, key, le)) == multiset(s) + multiset{x}
  {
    var m := InsertSplit(x, s, key, le);
    assert s == s[..m] + s[m..];
  }

  lemma InsertSorted<T, K(!new)>(x: T, s: seq<T>, key: T -> K, le: (K, K) -> bool)
    requires TotalOrder(le) && SortedBy(s, key, le)
    ensures SortedBy(Insert(x, s, key, le), key, le)
  {
    var m := InsertSplit(x, s, key, le);
    var r := Insert(x, s, key, le);
    forall i, j | 0 <= i < j < |r| ensures le(key(r[i]), key(r[j])) {
      if j < m {
        assert r[i] == s[i] && r[j] == s[j];
      } else if i > m {
        assert r[i] == s[i - 1] && r[j] == s[j - 1];
      } else if j == m {
        assert r[i] == s[i] && r[j] == x;
        assert !le(key(x), key(s[i]));
      } else if i == m {
        assert r[i] == x && r[j] == s[j - 1];
        assert le(key(x), key(s[m]));
        assert j - 1 == m || le(key(s[m]), key(s[j - 1]));
      } else {
        assert r[i] == s[i] && r[j] == s[j - 1];
      }
    }
  }

  lemma InsertStable<T, K>(x: T, s: seq<T>, key: T -> K, le: (K, K) -> bool, k: K)
    requires forall a :: le(a, a)
    ensures WithKey(Insert(x, s, key, le), key, k) == (if key(x) == k then [x] else []) + WithKey(s, key, k)
  {
    var m := InsertSplit(x, s, key, le);
    assert s == s[..m] + s[m..];
    WithKeyAppend(s[..m] + [x], s[m..], key, k);
    WithKeyAppend(s[..m], [x], key, k);
    WithKeyAppend(s[..m], s[m..], key, k);
    assert WithKey([x], key, k) == if key(x) == k then [x] else [];
    if key(x) == k {
      forall i | 0 <= i < m ensures key(s[..m][i]) != k {
        assert !le(key(x), key(s[i]));
      }
      WithKeyNone(s[..m], key, k);
    }
  }

  lemma {:induction false} SortByPerm<T, K>(s: seq<T>, key: T -> K, le: (K, K) -> bool)
    ensures multiset(SortBy(s, key, le)) == multiset(s)
  {
    if s != [] {
      SortByPerm(s[1..], key, le);
      InsertPerm(s[0], SortBy(s[1..], key, le), key, le);
      assert s == [s[0]] + s[1..];
    }
  }

  lemma {:induction false} SortBySorted<T, K(!new)>(s: seq<T>, key: T -> K, le: (K, K) -> bool)
    requires TotalOrder(le)
    ensures SortedBy(SortBy(s, key, le), key, le)
  {
    if s != [] {
      SortBySorted(s[1..], key, le);
      InsertSorted(s[0], SortBy(s[1..], key, le), key, le);
    }
  }

  lemma {:induction false} SortByStable<T, K>(s: seq<T>, key: T -> K, le: (K, K) -> bool, k: K)
    requires forall a :: le(a, a)
    ensures WithKey(SortBy(s, key, le), key, k) == WithKey(s, key, k)
  {
    if s != [] {
      SortByStable(s[1..], key, le, k);
      InsertStable(s[0], SortBy(s[1..], key, le), key, le, k);
    }
  }

  /** The sort returns a permutation of its input, ordered by key, in which
      elements with equal keys keep their input order. */
  lemma SortBySpec<T, K(!new)>(s: seq<T>, key: T -> K, le: (K, K) -> bool)
    requires TotalOrder(le)
    ensures multiset(SortBy(s, key, le)) == multiset(s)
    ensures SortedBy(SortBy(s, key, le), key, le)
    ensures forall k :: WithKey(SortBy(s, key, le), key, k) == WithKey(s, key, k)
  {
    SortByPerm(s, key, le);
    SortBySorted(s, key, le);
    forall k ensures WithKey(SortBy(s, key, le), key, k) == WithKey(s, key, k) {
      SortByStable(s, key, le, k);
    }
  }

  /** Placing an element whose key is new among elements with distinct keys
      keeps the keys distinct. */
  lemma SpliceKeepsDistinctKeys<T, K>(x: T, s: seq<T>, m: nat, key: T -> K)
    requires m <= |s|
    requires forall i, j :: 0 <= i < j < |s| ==> key(s[i]) != key(s[j])
    requires forall i :: 0 <= i < |s| ==> key(s[i]) != key(x)
    ensures var r := s[..m] + [x] + s[m..];
            forall i, j :: 0 <= i < j < |r| ==> key(r[i]) != key(r[j])
  {
    var r := s[..m] + [x] + s[m..];
    forall i, j | 0 <= i < j < |r| ensures key(r[i]) != key(r[j]) {
      if i != m && j != m {
        var i' := if i < m then i else i - 1;
        var j' := if j < m then j else j - 1;
        assert r[i] == s[i'] && r[j] == s[j'];
      } else if i == m {
        assert r[j] == s[j - 1];
      } else {
        assert r[i] == s[i];
      }
    }
  }

  /** If no two input elements share a key, no two output elements do. */
  lemma {:induction false} SortByDistinctKeys<T, K>(s: seq<T>, key: T -> K, le: (K, K) -> bool)
    requires forall i, j :: 0 <= i < j < |s| ==> key(s[i]) != key(s[j])
    ensures forall i, j :: 0 <= i < j < |SortBy(s, key, le)| ==> key(SortBy(s, key, le)[i]) != key(SortBy(s, key, le)[j])
  {
    if s != [] {
      var rest := SortBy(s[1..], key, le);
      SortByDistinctKeys(s[1..], key, le);
      SortByPerm(s[1..], key, le);
      forall i | 0 <= i < |rest| ensures key(rest[i]) != key(s[0]) {
        assert rest[i] in multiset(s[1..]);
      }
      var m := InsertSplit(s[0], rest, key, le);
      SpliceKeepsDistinctKeys(s[0], rest, m, key);
    }
  }

  /** Sorting neither adds nor drops weight: any per-element total is kept. */
  lemma {:induction false} SortBySum<T, K>(s: seq<T>, key: T -> K, le: (K, K) -> bool, w: T -> nat)
    ensures Sum(SortBy(s, key, le), w) == Sum(s, w)
  {
    if s != [] {
      var rest := SortBy(s[1..], key, le);
      SortBySum(s[1..], key, le, w);
      var m := InsertSplit(s[0], rest, key, le);
      assert rest == rest[..m] + rest[m..];
      SumAppend(rest[..m], rest[m..], w);
      SumAppend(rest[..m] + [s[0]], rest[m..], w);
      SumAppend(rest[..m], [s[0]], w);
      SumAppend([s[0]], s[1..], w);
      assert s == [s[0]] + s[1..];
      assert Sum([s[0]], w) == w(s[0]) by { assert [s[0]][..0] == []; }
    }
  }
}
