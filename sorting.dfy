/** Python's ordering of strings and its `sorted(...)` of a set of names:
    code points compared left to right, a proper prefix before any of its
    extensions. */
module Sorting {

  /** Python's `a < b` on strings. */
  predicate Less(a: string, b: string) {
    if a == "" then b != ""
    else if b == "" then false
    else if a[0] != b[0] then a[0] < b[0]
    else Less(a[1..], b[1..])
  }

  lemma {:induction false} LessIrreflexive(a: string)
    ensures !Less(a, a)
  {
    if a != "" {
      LessIrreflexive(a[1..]);
    }
  }

  lemma {:induction false} LessTransitive(a: string, b: string, c: string)
    requires Less(a, b) && Less(b, c)
    ensures Less(a, c)
  {
    if a != "" && a[0] == b[0] && b[0] == c[0] {
      LessTransitive(a[1..], b[1..], c[1..]);
    }
  }

  /** Two different strings are always ordered one way or the other. */
  lemma {:induction false} LessTotal(a: string, b: string)
    requires a != b
    ensures Less(a, b) || Less(b, a)
  {
    if a != "" && b != "" && a[0] == b[0] {
      assert a == [a[0]] + a[1..] && b == [b[0]] + b[1..];
      LessTotal(a[1..], b[1..]);
    }
  }

  lemma LessAsymmetric(a: string, b: string)
    requires Less(a, b)
    ensures !Less(b, a)
  {
    if Less(b, a) {
      LessTransitive(a, b, a);
      LessIrreflexive(a);
    }
  }

  /** `x` is the smallest member of `s`. */
  predicate IsLeast(x: string, s: set<string>) {
    x in s && forall y :: y in s && y != x ==> Less(x, y)
  }

  lemma {:induction false} LeastExists(s: set<string>)
    requires s != {}
    ensures exists x :: IsLeast(x, s)
    decreases s
  {
    var a :| a in s;
    if s != {a} {
      LeastExists(s - {a});
      var x :| IsLeast(x, s - {a});
      if Less(a, x) {
        forall y | y in s && y != a ensures Less(a, y) {
          if y != x {
            LessTransitive(a, x, y);
          }
        }
        assert IsLeast(a, s);
      } else {
        LessTotal(a, x);
        assert IsLeast(x, s);
      }
    } else {
      assert IsLeast(a, s);
    }
  }

  lemma LeastUnique(s: set<string>)
    ensures forall x, y :: IsLeast(x, s) && IsLeast(y, s) ==> x == y
  {
    forall x, y | IsLeast(x, s) && IsLeast(y, s) ensures x == y {
      if x != y {
        LessAsymmetric(x, y);
      }
    }
  }

  /** Every element is smaller than every later one. */
  predicate Increasing(s: seq<string>) {
    forall i, j :: 0 <= i < j < |s| ==> Less(s[i], s[j])
  }

  /** Python's `sorted(s)` for a set of strings: the members of `s`, each
      once, in increasing order. */
  function Sorted(s: set<string>): (r: seq<string>)
    ensures Increasing(r)
    ensures forall x :: x in r <==> x in s
    ensures |r| == |s|
    decreases s
  {
    if s == {} then []
    else
      LeastExists(s);
      LeastUnique(s);
      var x :| IsLeast(x, s);
      var rest := Sorted(s - {x});
      assert s == (s - {x}) + {x};
      assert forall j :: 0 <= j < |rest| ==> rest[j] in s - {x};
      [x] + rest
  }

  /** The first element of an increasing listing of `s` is its least member. */
  lemma IncreasingHeadLeast(s: set<string>, r: seq<string>)
    requires Increasing(r) && r != []
    requires forall x :: x in r <==> x in s
    ensures IsLeast(r[0], s)
  {
    forall y | y in s && y != r[0] ensures Less(r[0], y) {
      var i :| 0 <= i < |r| && r[i] == y;
    }
  }

  lemma SortedUnfold(s: set<string>, x: string)
    requires IsLeast(x, s)
    ensures Sorted(s) == [x] + Sorted(s - {x})
  {
    LeastUnique(s);
  }

  /** Without its first element, an increasing listing of `s` lists the
      rest of `s`. */
  lemma TailListing(s: set<string>, r: seq<string>)
    requires Increasing(r) && r != []
    requires forall x :: x in r <==> x in s
    ensures Increasing(r[1..])
    ensures forall y :: y in r[1..] <==> y in s - {r[0]}
  {
    var x := r[0];
    forall y ensures y in r[1..] <==> y in s - {x} {
      if y in r[1..] {
        var i :| 1 <= i < |r| && r[i] == y;
        LessIrreflexive(x);
      }
      if y in s - {x} {
        var i :| 0 <= i < |r| && r[i] == y;
        assert i != 0;
        assert r[1..][i - 1] == y;
      }
    }
    assert Increasing(r[1..]) by {
      forall i, j | 0 <= i < j < |r[1..]| ensures Less(r[1..][i], r[1..][j]) {
        assert r[1..][i] == r[i + 1] && r[1..][j] == r[j + 1];
      }
    }
  }

  /** There is only one increasing listing of a set, so `Sorted` is the
      order Python's `sorted` produces. */
  lemma {:induction false} SortedUnique(s: set<string>, r: seq<string>)
    requires Increasing(r)
    requires forall x :: x in r <==> x in s
    ensures r == Sorted(s)
    decreases |r|
  {
    if r == [] {
      assert forall x :: x !in s;
    } else {
      var x := r[0];
      IncreasingHeadLeast(s, r);
      SortedUnfold(s, x);
      TailListing(s, r);
      SortedUnique(s - {x}, r[1..]);
      assert r == [x] + r[1..];
    }
  }
}
