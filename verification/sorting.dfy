/**
  list.sort(reverse=True) on a list of tuples, for an order `leq` that is
  total and transitive. When `leq` is also antisymmetric (as Python's tuple
  order is) the descending permutation is unique, so the insertion sort below
  yields exactly what Python's sort yields.
 */
module Sorting {

  ghost predicate Total<T(!new)>(leq: (T, T) -> bool) {
    forall a, b :: leq(a, b) || leq(b, a)
  }

  ghost predicate Transitive<T(!new)>(leq: (T, T) -> bool) {
    forall a, b, c :: leq(a, b) && leq(b, c) ==> leq(a, c)
  }

  ghost predicate Antisymmetric<T(!new)>(leq: (T, T) -> bool) {
    forall a, b :: leq(a, b) && leq(b, a) ==> a == b
  }

  /** Every element is `leq` each one before it: the order reverse=True produces. */
  ghost predicate Descending<T>(s: seq<T>, leq: (T, T) -> bool) {
    forall i, j :: 0 <= i < j < |s| ==> leq(s[j], s[i])
  }

  function InsertDescending<T(!new)>(x: T, s: seq<T>, leq: (T, T) -> bool): (r: seq<T>)
    requires Total(leq) && Transitive(leq) && Descending(s, leq)
    ensures Descending(r, leq)
    ensures multiset(r) == multiset(s) + multiset{x}
  {
    if s == [] || leq(s[0], x) then [x] + s
    else
      var rest := InsertDescending(x, s[1..], leq);
      InsertBelowHead(x, s, rest, leq);
      [s[0]] + rest
  }

  /** When x goes below the head, the head stays in front of the insertion into the tail. */
  lemma InsertBelowHead<T(!new)>(x: T, s: seq<T>, rest: seq<T>, leq: (T, T) -> bool)
    requires Total(leq) && Descending(s, leq) && s != [] && !leq(s[0], x)
    requires Descending(rest, leq) && multiset(rest) == multiset(s[1..]) + multiset{x}
    ensures Descending([s[0]] + rest, leq)
    ensures multiset([s[0]] + rest) == multiset(s) + multiset{x}
  {
    assert s == [s[0]] + s[1..];
    forall j | 0 <= j < |rest| ensures leq(rest[j], s[0]) {
      assert rest[j] in multiset(s[1..]) + multiset{x};
      if rest[j] != x {
        var m :| 0 <= m < |s[1..]| && s[1..][m] == rest[j];
        assert s[m + 1] == rest[j];
      }
    }
    var r := [s[0]] + rest;
    forall i, j | 0 <= i < j < |r| ensures leq(r[j], r[i]) {
      if i > 0 {
        assert r[i] == rest[i - 1] && r[j] == rest[j - 1];
      } else {
        assert r[j] == rest[j - 1];
      }
    }
  }

  /** The sorted list: a permutation of `s` in descending order. */
  function SortDescending<T(!new)>(s: seq<T>, leq: (T, T) -> bool): (r: seq<T>)
    requires Total(leq) && Transitive(leq)
    ensures Descending(r, leq)
    ensures multiset(r) == multiset(s)
  {
    if s == [] then []
    else
      assert s == [s[0]] + s[1..];
      InsertDescending(s[0], SortDescending(s[1..], leq), leq)
  }

  /** A prefix of a descending list holds its greatest elements: nothing left out is above anything kept. */
  lemma TopPrefix<T(!new)>(s: seq<T>, l: seq<T>, k: nat, leq: (T, T) -> bool)
    requires Descending(s, leq) && multiset(s) == multiset(l) && k <= |s|
    ensures |s| == |l|
    ensures Descending(s[..k], leq)
    ensures multiset(s[..k]) <= multiset(l)
    ensures forall x | x in multiset(l) - multiset(s[..k]) :: forall y | y in s[..k] :: leq(x, y)
  {
    assert |multiset(s)| == |s| && |multiset(l)| == |l|;
    assert s == s[..k] + s[k..];
    assert multiset(s) == multiset(s[..k]) + multiset(s[k..]);
    forall x | x in multiset(l) - multiset(s[..k])
      ensures forall y | y in s[..k] :: leq(x, y)
    {
      SuffixBelow(s, k, x, leq);
    }
  }

  lemma SuffixBelow<T>(s: seq<T>, k: nat, x: T, leq: (T, T) -> bool)
    requires Descending(s, leq) && k <= |s| && x in s[k..]
    ensures forall y | y in s[..k] :: leq(x, y)
  {
    var j :| 0 <= j < |s[k..]| && s[k..][j] == x;
    assert s[k + j] == x;
    forall y | y in s[..k] ensures leq(x, y) {
      var i :| 0 <= i < k && s[..k][i] == y;
      assert s[i] == y;
    }
  }

  /** Under an antisymmetric order there is one descending permutation, whatever algorithm finds it. */
  lemma {:induction false} DescendingUnique<T(!new)>(a: seq<T>, b: seq<T>, leq: (T, T) -> bool)
    requires Antisymmetric(leq)
    requires Descending(a, leq) && Descending(b, leq) && multiset(a) == multiset(b)
    ensures a == b
    decreases |a|
  {
    assert |multiset(a)| == |a| && |multiset(b)| == |b|;
    if a != [] {
      HeadIsGreatest(a, b[0], leq);
      HeadIsGreatest(b, a[0], leq);
      assert a[0] == b[0];
      TailMultiset(a, b);
      DescendingUnique(a[1..], b[1..], leq);
    }
  }

  lemma TailMultiset<T>(a: seq<T>, b: seq<T>)
    requires a != [] && b != [] && a[0] == b[0] && multiset(a) == multiset(b)
    ensures multiset(a[1..]) == multiset(b[1..])
  {
    assert a == [a[0]] + a[1..] && b == [b[0]] + b[1..];
    calc {
      multiset(a[1..]);
      multiset(a) - multiset{a[0]};
      multiset(b) - multiset{b[0]};
      multiset(b[1..]);
    }
  }

  lemma HeadIsGreatest<T>(s: seq<T>, x: T, leq: (T, T) -> bool)
    requires Descending(s, leq) && x in multiset(s)
    ensures leq(x, s[0]) || x == s[0]
    ensures Descending(s[1..], leq)
  {
    var i :| 0 <= i < |s| && s[i] == x;
  }
}
