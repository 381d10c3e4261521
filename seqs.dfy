/** List operations the data model expresses with Python comprehensions and
    linear searches: `[x for x in s if p(x)]` and "the first element whose
    key is k", the set of names a loop collects, with two facts about the
    sizes of sets. */
module Seqs {

  /** Python's `[x for x in s if p(x)]`. */
  function Filter<T>(s: seq<T>, p: T -> bool): seq<T> {
    if s == [] then [] else (if p(s[0]) then [s[0]] else []) + Filter(s[1..], p)
  }

  /** An element is kept exactly when it was there and satisfies `p`. */
  lemma {:induction false} FilterMembers<T>(s: seq<T>, p: T -> bool, x: T)
    ensures x in Filter(s, p) <==> x in s && p(x)
  {
    if s != [] {
      FilterMembers(s[1..], p, x);
      assert s == [s[0]] + s[1..];
    }
  }

  /** Filtering commutes with concatenation: kept elements stay in their
      original relative order. */
  lemma {:induction false} FilterAppend<T>(a: seq<T>, b: seq<T>, p: T -> bool)
    ensures Filter(a + b, p) == Filter(a, p) + Filter(b, p)
  {
    if a == [] {
      assert a + b == b;
    } else {
      var ab := a + b;
      assert ab[0] == a[0];
      assert ab[1..] == a[1..] + b;
      var head := if p(a[0]) then [a[0]] else [];
      assert Filter(ab, p) == head + Filter(a[1..] + b, p);
      assert Filter(a, p) == head + Filter(a[1..], p);
      FilterAppend(a[1..], b, p);
      AppendAssoc(head, Filter(a[1..], p), Filter(b, p));
    }
  }

  /** Every element that satisfies `p` is kept as many times as it occurs. */
  lemma {:induction false} FilterMultiplicity<T>(s: seq<T>, p: T -> bool, x: T)
    ensures multiset(Filter(s, p))[x] == if p(x) then multiset(s)[x] else 0
  {
    if s != [] {
      FilterMultiplicity(s[1..], p, x);
      assert s == [s[0]] + s[1..];
    }
  }

  /** When every element satisfies `p`, nothing is dropped. */
  lemma {:induction false} FilterKeepsAll<T>(s: seq<T>, p: T -> bool)
    requires forall i :: 0 <= i < |s| ==> p(s[i])
    ensures Filter(s, p) == s
  {
    if s != [] {
      FilterKeepsAll(s[1..], p);
      assert s == [s[0]] + s[1..];
    }
  }

  lemma AppendAssoc<T>(a: seq<T>, b: seq<T>, c: seq<T>)
    ensures a + (b + c) == a + b + c
  {
  }

  lemma TakeSnoc<T>(s: seq<T>, i: int)
    requires 0 <= i < |s|
    ensures s[..i + 1] == s[..i] + [s[i]]
  {
  }

  /** Python's `[f(x) for x in s]`. */
  function Map<T, U>(s: seq<T>, f: T -> U): (r: seq<U>)
    ensures |r| == |s|
    ensures forall i :: 0 <= i < |s| ==> r[i] == f(s[i])
  {
    if s == [] then [] else Map(s[..|s| - 1], f) + [f(s[|s| - 1])]
  }

  lemma MapSnoc<T, U>(s: seq<T>, x: T, f: T -> U)
    ensures Map(s + [x], f) == Map(s, f) + [f(x)]
  {
    assert (s + [x])[..|s|] == s;
  }

  /** The concatenation of `f(x)` over the elements `x` of `s`, in order:
      a loop that extends a list with a few items per element. */
  function FlatMap<T, U>(s: seq<T>, f: T -> seq<U>): seq<U> {
    if s == [] then [] else FlatMap(s[..|s| - 1], f) + f(s[|s| - 1])
  }

  lemma {:induction false} FlatMapAppend<T, U>(a: seq<T>, b: seq<T>, f: T -> seq<U>)
    ensures FlatMap(a + b, f) == FlatMap(a, f) + FlatMap(b, f)
  {
    if b == [] {
      assert a + b == a;
    } else {
      assert (a + b)[..|a + b| - 1] == a + b[..|b| - 1];
      FlatMapAppend(a, b[..|b| - 1], f);
    }
  }

  /** Elements for which `f` gives nothing can be filtered out first. */
  lemma {:induction false} FlatMapFilter<T, U>(s: seq<T>, f: T -> seq<U>, p: T -> bool)
    requires forall x :: !p(x) ==> f(x) == []
    ensures FlatMap(s, f) == FlatMap(Filter(s, p), f)
  {
    if s != [] {
      FlatMapFilter(s[1..], f, p);
      assert s == [s[0]] + s[1..];
      FlatMapAppend([s[0]], s[1..], f);
      var kept := if p(s[0]) then [s[0]] else [];
      FlatMapAppend(kept, Filter(s[1..], p), f);
      assert FlatMap([s[0]], f) == f(s[0]) by {
        assert [s[0]][..0] == [];
      }
      assert Filter(s, p) == kept + Filter(s[1..], p);
    }
  }

  /** The index of the first element of `s` whose key is `k`, or `|s|` when
      there is none. */
  function FirstIndexOf<T>(s: seq<T>, key: T -> string, k: string): (i: nat)
    ensures i <= |s|
    ensures i < |s| ==> key(s[i]) == k
    ensures forall j :: 0 <= j < i ==> key(s[j]) != k
  {
    if s == [] then 0 else if key(s[0]) == k then 0 else 1 + FirstIndexOf(s[1..], key, k)
  }

  /** The index of the last element of `s` whose key is `k`, or `|s|` when
      there is none. */
  function LastIndexOf<T>(s: seq<T>, key: T -> string, k: string): (i: nat)
    ensures i <= |s|
    ensures i < |s| ==> key(s[i]) == k
    ensures i < |s| ==> forall j :: i < j < |s| ==> key(s[j]) != k
    ensures i == |s| ==> forall j :: 0 <= j < |s| ==> key(s[j]) != k
  {
    if s == [] then 0
    else if key(s[|s| - 1]) == k then |s| - 1
    else
      var i := LastIndexOf(s[..|s| - 1], key, k);
      if i == |s| - 1 then |s| else i
  }

  /** The non-empty names `f` gives to the elements of `s`: a set filled by
      a loop that adds each name that is not empty. */
  function Names<T>(s: seq<T>, f: T -> string): set<string> {
    if s == [] then {}
    else Names(s[..|s| - 1], f) + (if f(s[|s| - 1]) != "" then {f(s[|s| - 1])} else {})
  }

  lemma {:induction false} NamesExactly<T>(s: seq<T>, f: T -> string, x: string)
    ensures x in Names(s, f) <==> x != "" && exists j :: 0 <= j < |s| && f(s[j]) == x
  {
    if s != [] {
      var init := s[..|s| - 1];
      NamesExactly(init, f, x);
      if x in Names(init, f) {
        var j :| 0 <= j < |init| && f(init[j]) == x;
        assert s[j] == init[j];
      }
      if exists j :: 0 <= j < |s| && f(s[j]) == x {
        var j :| 0 <= j < |s| && f(s[j]) == x;
        if j < |init| {
          assert init[j] == s[j];
        }
      }
    }
  }

  lemma NamesSnoc<T>(s: seq<T>, i: int, f: T -> string)
    requires 0 <= i < |s|
    ensures Names(s[..i + 1], f) == Names(s[..i], f) + (if f(s[i]) != "" then {f(s[i])} else {})
  {
    assert s[..i + 1][..i] == s[..i];
  }

  /** A subset is no larger than its superset. */
  lemma {:induction false} SubsetCard<T>(a: set<T>, b: set<T>)
    requires a <= b
    ensures |a| <= |b|
    decreases a
  {
    if a != {} {
      var x :| x in a;
      assert a == (a - {x}) + {x};
      assert b == (b - {x}) + {x};
      SubsetCard(a - {x}, b - {x});
    }
  }

  /** A proper subset is smaller than its superset. */
  lemma ProperSubsetCard<T>(a: set<T>, b: set<T>)
    requires a < b
    ensures |a| < |b|
  {
    var x :| x in b && x !in a;
    assert a <= b - {x};
    assert b == (b - {x}) + {x};
    SubsetCard(a, b - {x});
  }

  /** No element occurs twice. */
  predicate NoDuplicates<T(==)>(s: seq<T>) {
    forall i, j :: 0 <= i < j < |s| ==> s[i] != s[j]
  }
}
