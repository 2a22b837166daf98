/** Option and Result, and the few facts about finite sets and sums that the
    accounting proofs need. */
module Prelude {

  datatype Option<+T> = None | Some(value: T)

  datatype Result<+T, +E> = Success(value: T) | Failure(error: E)

  /** Elements of a sequence are pairwise different. */
  predicate Distinct<T(==)>(s: seq<T>) {
    forall i, j :: 0 <= i < j < |s| ==> s[i] != s[j]
  }

  /** Items that carry each element of `s` exactly once as their key are as many as `s`. */
  lemma {:induction false} KeyedSize<T(!new), X(!new)>(s: set<T>, items: set<X>, key: X -> T)
    requires forall q :: q in items ==> key(q) in s
    requires forall x :: x in s ==> exists q :: q in items && key(q) == x
    requires forall q, r :: q in items && r in items && key(q) == key(r) ==> q == r
    ensures |items| == |s|
    decreases |s|
  {
    if s != {} {
      var x :| x in s;
      var q :| q in items && key(q) == x;
      forall y | y in s - {x} ensures exists r :: r in items - {q} && key(r) == y {
        var r :| r in items && key(r) == y;
        assert r in items - {q};
      }
      KeyedSize(s - {x}, items - {q}, key);
    } else {
      assert items == {};
    }
  }

  /** A subset is no larger, and equally large only if it is the whole set. */
  lemma {:induction false} SubsetSize<T>(a: set<T>, b: set<T>)
    requires a <= b
    ensures |a| <= |b| && (|a| == |b| <==> a == b)
    ensures |b - a| == |b| - |a|
  {
    assert b == a + (b - a);
    assert a !! (b - a);
  }

  lemma {:induction false} DifferenceSizes<T>(a: set<T>, b: set<T>)
    ensures |a| - |b| == |a - b| - |b - a|
  {
    SubsetSize(a * b, a);
    SubsetSize(a * b, b);
    assert a - a * b == a - b && b - a * b == b - a;
  }

  /** The union of a family of sets indexed by a sequence. */
  ghost function UnionOf<K, T>(ks: seq<K>, f: K -> set<T>): set<T> {
    if ks == [] then {} else UnionOf(ks[..|ks| - 1], f) + f(ks[|ks| - 1])
  }

  ghost function SumOf<K>(ks: seq<K>, f: K -> int): int {
    if ks == [] then 0 else SumOf(ks[..|ks| - 1], f) + f(ks[|ks| - 1])
  }

  ghost function SizesOf<K, T>(f: K -> set<T>): K -> int {
    k => |f(k)|
  }

  lemma {:induction false} InUnionOf<K, T>(ks: seq<K>, f: K -> set<T>, x: T)
    ensures x in UnionOf(ks, f) <==> exists i :: 0 <= i < |ks| && x in f(ks[i])
  {
    if ks != [] {
      var front := ks[..|ks| - 1];
      InUnionOf(front, f, x);
      if x in UnionOf(front, f) {
        var i :| 0 <= i < |front| && x in f(front[i]);
        assert x in f(ks[i]);
      }
      if i :| 0 <= i < |ks| && x in f(ks[i]) {
        if i < |front| {
          assert x in f(front[i]);
        }
      }
    }
  }

  /** Sizes of a pairwise disjoint family add up. */
  lemma {:induction false} DisjointUnionSize<K, T>(ks: seq<K>, f: K -> set<T>)
    requires forall i, j :: 0 <= i < j < |ks| ==> f(ks[i]) !! f(ks[j])
    ensures |UnionOf(ks, f)| == SumOf(ks, SizesOf(f))
  {
    if ks != [] {
      var front, last := ks[..|ks| - 1], ks[|ks| - 1];
      DisjointUnionSize(front, f);
      forall x | x in f(last) ensures x !in UnionOf(front, f) {
        InUnionOf(front, f, x);
      }
      assert UnionOf(front, f) !! f(last);
    }
  }

  lemma {:induction false} SumOfEqual<K>(ks: seq<K>, f: K -> int, g: K -> int)
    requires forall k :: k in ks ==> f(k) == g(k)
    ensures SumOf(ks, f) == SumOf(ks, g)
  {
    if ks != [] {
      assert forall k :: k in ks[..|ks| - 1] ==> k in ks;
      SumOfEqual(ks[..|ks| - 1], f, g);
    }
  }
}
