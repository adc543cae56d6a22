/** Operations on sequences that several components share. */
module Seqs {

  function Filter<T(!new)>(p: T -> bool, s: seq<T>): (r: seq<T>)
    ensures forall x :: x in r <==> x in s && p(x)
    ensures |r| <= |s|
  {
    if s == [] then [] else (if p(s[0]) then [s[0]] else []) + Filter(p, s[1..])
  }

  lemma FilterCons<T(!new)>(p: T -> bool, x: T, s: seq<T>)
    ensures Filter(p, [x] + s) == (if p(x) then [x] else []) + Filter(p, s)
  {
    assert ([x] + s)[1..] == s;
  }

  lemma FilterConcat<T(!new)>(p: T -> bool, a: seq<T>, b: seq<T>)
    ensures Filter(p, a + b) == Filter(p, a) + Filter(p, b)
  {
    if a == [] {
      assert a + b == b;
    } else {
      assert (a + b)[1..] == a[1..] + b;
      FilterConcat(p, a[1..], b);
    }
  }

  function Flatten<T>(ss: seq<seq<T>>): seq<T> {
    if ss == [] then [] else ss[0] + Flatten(ss[1..])
  }

  lemma {:induction false} FlattenConcat<T>(a: seq<seq<T>>, b: seq<seq<T>>)
    ensures Flatten(a + b) == Flatten(a) + Flatten(b)
  {
    if a == [] {
      assert a + b == b;
    } else {
      assert (a + b)[1..] == a[1..] + b;
      FlattenConcat(a[1..], b);
    }
  }

  function Least(s: set<int>): (x: int)
    requires s != {}
    ensures x in s && forall y :: y in s ==> x <= y
  {
    LeastExists(s);
    var x :| x in s && forall y :: y in s ==> x <= y;
    x
  }

  /** The numbers of a set in increasing order, as `sort.Ints` leaves them. */
  function Ascending(s: set<int>): seq<int> {
    if s == {} then [] else [Least(s)] + Ascending(s - {Least(s)})
  }

  lemma AnyMember<T>(s: set<T>) returns (x: T)
    requires s != {}
    ensures x in s
  {
    x :| x in s;
  }

  lemma LeastExists(s: set<int>)
    requires s != {}
    ensures exists x :: x in s && forall y :: y in s ==> x <= y
    decreases |s|
  {
    var x := AnyMember(s);
    var rest := s - {x};
    assert forall y :: y in s <==> y == x || y in rest;
    if rest != {} {
      LeastExists(rest);
      var z :| z in rest && forall y :: y in rest ==> z <= y;
      var least := if x <= z then x else z;
      assert least in s && forall y :: y in s ==> least <= y;
    }
  }

  ghost predicate Increasing(s: seq<int>) {
    forall i, j :: 0 <= i < j < |s| ==> s[i] < s[j]
  }

  /** The first element of one arrangement taken out of another. */
  lemma TakeOut<T>(a: seq<T>, b: seq<T>) returns (k: nat)
    requires a != [] && multiset(a) == multiset(b)
    ensures k < |b| && b[k] == a[0] && multiset(a[1..]) == multiset(b[..k] + b[k + 1..])
  {
    assert a[0] in multiset(b);
    k :| 0 <= k < |b| && b[k] == a[0];
    var x := a[0];
    assert a == [x] + a[1..];
    assert multiset(a) == multiset([x]) + multiset(a[1..]);
    assert b == b[..k] + [x] + b[k + 1..];
    assert multiset(b) == multiset(b[..k]) + multiset([x]) + multiset(b[k + 1..]);
    assert multiset(a[1..]) == multiset(a) - multiset([x]);
    assert multiset(b[..k] + b[k + 1..]) == multiset(b) - multiset([x]);
  }

  function Map<T, U>(f: T -> U, s: seq<T>): (r: seq<U>)
    ensures |r| == |s|
  {
    if s == [] then [] else [f(s[0])] + Map(f, s[1..])
  }

  lemma {:induction false} MapAt<T, U>(f: T -> U, s: seq<T>, i: nat)
    requires i < |s|
    ensures Map(f, s)[i] == f(s[i])
  {
    if i > 0 {
      MapAt(f, s[1..], i - 1);
    }
  }

  lemma MapCons<T, U>(f: T -> U, x: T, s: seq<T>)
    ensures Map(f, [x] + s) == [f(x)] + Map(f, s) && Map(f, []) == []
  {
    assert ([x] + s)[1..] == s;
  }

  lemma FilterMapCons<T(!new), U(!new)>(p: U -> bool, q: T -> bool, f: T -> U, x: T, s: seq<T>)
    requires Filter(p, Map(f, s)) == Map(f, Filter(q, s)) && (p(f(x)) <==> q(x))
    ensures Filter(p, Map(f, [x] + s)) == Map(f, Filter(q, [x] + s))
  {
    hide Filter, Map;
    MapCons(f, x, s);
    FilterCons(p, f(x), Map(f, s));
    FilterCons(q, x, s);
    MapCons(f, x, Filter(q, s));
    if !q(x) {
      assert [] + Filter(q, s) == Filter(q, s);
      assert [] + Filter(p, Map(f, s)) == Filter(p, Map(f, s));
    }
  }

  lemma {:induction false} MapConcat<T, U>(f: T -> U, a: seq<T>, b: seq<T>)
    ensures Map(f, a + b) == Map(f, a) + Map(f, b)
  {
    if a == [] {
      assert a + b == b;
    } else {
      assert (a + b)[1..] == a[1..] + b;
      MapConcat(f, a[1..], b);
    }
  }

  lemma {:induction false} MapPermutes<T, U>(f: T -> U, a: seq<T>, b: seq<T>)
    requires multiset(a) == multiset(b)
    ensures multiset(Map(f, a)) == multiset(Map(f, b))
  {
    if a == [] {
      assert |b| == |multiset(b)| == |multiset(a)| == 0;
    } else {
      var k := TakeOut(a, b);
      var rest := b[..k] + b[k + 1..];
      MapPermutes(f, a[1..], rest);
      MapAround(f, b, k);
      assert Map(f, a) == [f(a[0])] + Map(f, a[1..]);
    }
  }

  lemma MapAround<T, U>(f: T -> U, b: seq<T>, k: nat)
    requires k < |b|
    ensures multiset(Map(f, b)) == multiset([f(b[k])]) + multiset(Map(f, b[..k] + b[k + 1..]))
  {
    var ml, mr := Map(f, b[..k]), Map(f, b[k + 1..]);
    MapSplit(f, b, k);
    MapConcat(f, b[..k], b[k + 1..]);
    MultisetAround(ml, f(b[k]), mr);
  }

  lemma MapSplit<T, U>(f: T -> U, b: seq<T>, k: nat)
    requires k < |b|
    ensures Map(f, b) == Map(f, b[..k]) + ([f(b[k])] + Map(f, b[k + 1..]))
  {
    var tail := b[k..];
    assert tail[1..] == b[k + 1..] && b == b[..k] + tail;
    MapConcat(f, b[..k], tail);
  }

  lemma MultisetAround<T>(l: seq<T>, x: T, r: seq<T>)
    ensures multiset(l + ([x] + r)) == multiset([x]) + multiset(l + r)
  {}
}
