/** Sums over finite sets and over sequences, in whatever order a query visits the rows. */
module Sums {

  ghost function Sum<K(!new)>(keys: set<K>, f: K -> int): int {
    if keys == {} then 0 else
      var k :| k in keys;
      f(k) + Sum(keys - {k}, f)
  }

  /** Any key may be taken out first. */
  lemma {:induction false} SumWithout<K(!new)>(keys: set<K>, k: K, f: K -> int)
    requires k in keys
    ensures Sum(keys, f) == f(k) + Sum(keys - {k}, f)
    decreases keys
  {
    var j :| j in keys && Sum(keys, f) == f(j) + Sum(keys - {j}, f);
    if j != k {
      SumWithout(keys - {j}, k, f);
      SumWithout(keys - {k}, j, f);
      assert keys - {j} - {k} == keys - {k} - {j};
    }
  }

  lemma {:induction false} SumSame<K(!new)>(keys: set<K>, f: K -> int, g: K -> int)
    requires forall k | k in keys :: f(k) == g(k)
    ensures Sum(keys, f) == Sum(keys, g)
    decreases keys
  {
    if keys != {} {
      var k :| k in keys;
      SumWithout(keys, k, f);
      SumWithout(keys, k, g);
      SumSame(keys - {k}, f, g);
    }
  }

  /** A sum in which one term, perhaps a new one, is changed. */
  lemma SumUpdate<K(!new)>(keys: set<K>, k: K, f: K -> int, g: K -> int)
    requires forall j | j in keys && j != k :: f(j) == g(j)
    ensures Sum(keys + {k}, g) == Sum(keys, f) + g(k) - if k in keys then f(k) else 0
  {
    SumWithout(keys + {k}, k, g);
    assert keys + {k} - {k} == keys - {k};
    SumSame(keys - {k}, f, g);
    if k in keys {
      SumWithout(keys, k, f);
    } else {
      assert keys - {k} == keys;
    }
  }

  // ----- Sequences -----

  function SumSeq<T>(rows: seq<T>, f: T -> int): int {
    if rows == [] then 0 else SumSeq(rows[..|rows| - 1], f) + f(rows[|rows| - 1])
  }

  lemma SumSeqSnoc<T>(rows: seq<T>, row: T, f: T -> int)
    ensures SumSeq(rows + [row], f) == SumSeq(rows, f) + f(row)
  {
    assert (rows + [row])[..|rows|] == rows;
  }

  lemma {:induction false} SumSeqSame<T>(rows: seq<T>, f: T -> int, g: T -> int)
    requires forall row <- rows :: f(row) == g(row)
    ensures SumSeq(rows, f) == SumSeq(rows, g)
  {
    if rows != [] {
      SumSeqSame(rows[..|rows| - 1], f, g);
    }
  }

  lemma {:induction false} SumSeqAppend<T>(a: seq<T>, b: seq<T>, f: T -> int)
    ensures SumSeq(a + b, f) == SumSeq(a, f) + SumSeq(b, f)
  {
    if b == [] {
      assert a + b == a;
    } else {
      assert (a + b)[..|a + b| - 1] == a + b[..|b| - 1];
      SumSeqAppend(a, b[..|b| - 1], f);
    }
  }

  /** The order of the rows does not matter. */
  lemma {:induction false} SumSeqUnordered<T>(a: seq<T>, b: seq<T>, f: T -> int)
    requires multiset(a) == multiset(b)
    ensures SumSeq(a, f) == SumSeq(b, f)
    decreases |a|
  {
    if a == [] {
      assert |multiset(b)| == 0;
    } else {
      var last := a[|a| - 1];
      var before := a[..|a| - 1];
      assert a == before + [last];
      assert last in multiset(b);
      var i :| 0 <= i < |b| && b[i] == last;
      var rest := b[..i] + b[i + 1..];
      assert b == b[..i] + [last] + b[i + 1..];
      assert multiset(before) == multiset(rest) by {
        assert multiset(a) == multiset(before) + multiset{last};
        assert multiset(b[..i] + [last] + b[i + 1..]) == multiset(rest) + multiset{last};
        assert multiset(before) == multiset(a) - multiset{last};
        assert multiset(rest) == multiset(b) - multiset{last};
      }
      SumSeqUnordered(before, rest, f);
      SumSeqAppend(b[..i], b[i + 1..], f);
      SumSeqAppend(b[..i] + [last], b[i + 1..], f);
      SumSeqSnoc(b[..i], last, f);
    }
  }
}
