/** Strings ordered by code points, as Python compares and sorts them. */
module Order {

  predicate Below(a: string, b: string) {
    if b == [] then false
    else if a == [] then true
    else a[0] < b[0] || (a[0] == b[0] && Below(a[1..], b[1..]))
  }

  lemma {:induction false} Total(a: string, b: string)
    ensures Below(a, b) || Below(b, a) || a == b
  {
    if a != [] && b != [] && a[0] == b[0] {
      Total(a[1..], b[1..]);
      assert a == [a[0]] + a[1..] && b == [b[0]] + b[1..];
    }
  }

  lemma {:induction false} Irreflexive(a: string)
    ensures !Below(a, a)
  {
    if a != [] {
      Irreflexive(a[1..]);
    }
  }

  lemma {:induction false} Transitive(a: string, b: string, c: string)
    requires Below(a, b) && Below(b, c)
    ensures Below(a, c)
  {
    if a != [] && a[0] == b[0] == c[0] {
      Transitive(a[1..], b[1..], c[1..]);
    }
  }

  lemma Asymmetric(a: string, b: string)
    requires Below(a, b)
    ensures !Below(b, a) && a != b
  {
    if Below(b, a) {
      Transitive(a, b, a);
    }
    Irreflexive(a);
  }

  /** The first index where two strings differ has the smaller code point on the left. */
  predicate DiffersDownAt(a: string, b: string, k: nat) {
    k < |a| && k < |b| && a[..k] == b[..k] && a[k] < b[k]
  }

  /** The order Python documents: a proper prefix comes first; otherwise the first
      differing code points decide. */
  predicate Precedes(a: string, b: string) {
    a < b || exists k: nat :: k < |a| && DiffersDownAt(a, b, k)
  }

  lemma FirstNotAbove(a: string, b: string, k: nat)
    requires DiffersDownAt(a, b, k)
    ensures a[0] <= b[0]
  {
    if k > 0 {
      assert a[..k][0] == b[..k][0];
    }
  }

  lemma {:induction false} BelowIsPrecedes(a: string, b: string)
    ensures Below(a, b) <==> Precedes(a, b)
  {
    if a != [] && b != [] {
      var x, y := a[1..], b[1..];
      assert a == [a[0]] + x && b == [b[0]] + y;
      BelowIsPrecedes(x, y);
      if a[0] < b[0] {
        assert DiffersDownAt(a, b, 0);
      }
      if a[0] == b[0] {
        if k: nat :| k < |x| && DiffersDownAt(x, y, k) {
          assert a[..k + 1] == [a[0]] + x[..k] && b[..k + 1] == [b[0]] + y[..k];
          assert DiffersDownAt(a, b, k + 1);
        }
        if k: nat :| k < |a| && DiffersDownAt(a, b, k) {
          assert k > 0;
          assert x[..k - 1] == a[..k][1..] && y[..k - 1] == b[..k][1..];
          assert DiffersDownAt(x, y, k - 1);
        }
      } else if Precedes(a, b) {
        assert !(a < b);
        var k: nat :| k < |a| && DiffersDownAt(a, b, k);
        FirstNotAbove(a, b, k);
      }
    }
  }

  /** Among ids of one length there are no prefixes: some code point decides. */
  lemma SameLengthDiffers(a: string, b: string)
    requires |a| == |b| && Precedes(a, b)
    ensures exists k: nat :: k < |a| && DiffersDownAt(a, b, k)
  {
  }

  lemma SortedPrecedes(s: seq<string>)
    requires Increasing(s)
    ensures forall i, j :: 0 <= i < j < |s| ==> Precedes(s[i], s[j])
  {
    forall i, j | 0 <= i < j < |s| ensures Precedes(s[i], s[j]) {
      BelowIsPrecedes(s[i], s[j]);
    }
  }

  /** Strictly increasing, hence without repetition. */
  predicate Increasing(s: seq<string>) {
    forall i, j :: 0 <= i < j < |s| ==> Below(s[i], s[j])
  }

  predicate IsLeast(m: string, s: set<string>) {
    m in s && forall x :: x in s && x != m ==> Below(m, x)
  }

  /** The least element of a non-empty set of strings. */
  lemma {:induction false} HasLeast(s: set<string>) returns (m: string)
    requires s != {}
    ensures IsLeast(m, s)
    decreases |s|
  {
    var y :| y in s;
    m := y;
    if s != {y} {
      var rest := s - {y};
      assert s == rest + {y};
      var l := HasLeast(rest);
      Total(y, l);
      if Below(l, y) {
        m := l;
      }
      forall x | x in s && x != m ensures Below(m, x) {
        if m == y && x != l {
          Transitive(y, l, x);
        }
      }
    }
  }

  lemma LeastIsUnique(s: set<string>, m: string, n: string)
    requires IsLeast(m, s) && IsLeast(n, s)
    ensures m == n
  {
    if m != n {
      Asymmetric(m, n);
    }
  }

  function Least(s: set<string>): (m: string)
    requires s != {}
    ensures IsLeast(m, s)
  {
    assert exists m :: IsLeast(m, s) by {
      var l := HasLeast(s);
    }
    assert forall m, n :: IsLeast(m, s) && IsLeast(n, s) ==> m == n by {
      forall m, n | IsLeast(m, s) && IsLeast(n, s) ensures m == n {
        LeastIsUnique(s, m, n);
      }
    }
    var m :| IsLeast(m, s);
    m
  }

  /** The elements of a set in increasing order. */
  function Sorted(s: set<string>): (r: seq<string>)
    ensures Increasing(r) && |r| == |s|
    ensures forall x :: x in r <==> x in s
    decreases |s|
  {
    if s == {} then []
    else
      var m := Least(s);
      var rest := Sorted(s - {m});
      assert s == (s - {m}) + {m};
      [m] + rest
  }

  /** Increasing order and content determine a sequence. */
  lemma {:induction false} IncreasingIsUnique(s: seq<string>, t: seq<string>)
    requires Increasing(s) && Increasing(t)
    requires forall x :: x in s <==> x in t
    ensures s == t
  {
    if s == [] {
      HasElement(t);
    } else {
      assert s[0] in t;
      assert t != [];
      assert t[0] in s;
      HeadsAgree(s, t);
      forall x ensures x in s[1..] <==> x in t[1..] {
        Irreflexive(s[0]);
        assert x in s <==> x == s[0] || x in s[1..];
        assert x in t <==> x == t[0] || x in t[1..];
      }
      IncreasingIsUnique(s[1..], t[1..]);
      assert s == [s[0]] + s[1..] && t == [t[0]] + t[1..];
    }
  }

  lemma HasElement(t: seq<string>)
    ensures t != [] ==> exists x :: x in t
  {
    if t != [] {
      assert t[0] in t;
    }
  }

  lemma HeadsAgree(s: seq<string>, t: seq<string>)
    requires Increasing(s) && Increasing(t) && s != [] && t != [] && s[0] in t && t[0] in s
    ensures s[0] == t[0]
  {
    if s[0] != t[0] {
      assert Below(s[0], t[0]);
      assert Below(t[0], s[0]);
      Asymmetric(s[0], t[0]);
    }
  }
}
