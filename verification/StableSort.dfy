/**
 Go's `sort.SliceStable`, as a function: the one arrangement of a sequence that is sorted by a
 strict weak order and keeps equivalent elements in their original order.
 */
module StableSort {
  import opened Seqs

  ghost predicate StrictWeakOrder<T(!new)>(less: (T, T) -> bool) {
    && (forall x :: !less(x, x))
    && (forall x, y, z :: less(x, y) && less(y, z) ==> less(x, z))
    && (forall x, y, z :: !less(x, y) && !less(y, z) ==> !less(x, z))
  }

  ghost predicate Sorted<T>(less: (T, T) -> bool, s: seq<T>) {
    forall i, j :: 0 <= i < j < |s| ==> !less(s[j], s[i])
  }

  /** The elements that the order cannot tell from x. */
  function Alike<T>(less: (T, T) -> bool, x: T): T -> bool {
    y => !less(x, y) && !less(y, x)
  }

  function Insert<T>(less: (T, T) -> bool, x: T, s: seq<T>): seq<T> {
    if s == [] || !less(s[0], x) then [x] + s else [s[0]] + Insert(less, x, s[1..])
  }

  function Sort<T>(less: (T, T) -> bool, s: seq<T>): seq<T> {
    if s == [] then [] else Insert(less, s[0], Sort(less, s[1..]))
  }

  lemma {:induction false} InsertPermutes<T>(less: (T, T) -> bool, x: T, s: seq<T>)
    ensures multiset(Insert(less, x, s)) == multiset([x]) + multiset(s)
  {
    if s != [] && less(s[0], x) {
      InsertPermutes(less, x, s[1..]);
      assert s == [s[0]] + s[1..];
    }
  }

  lemma {:induction false} SortPermutes<T>(less: (T, T) -> bool, s: seq<T>)
    ensures multiset(Sort(less, s)) == multiset(s)
    ensures |Sort(less, s)| == |s|
  {
    if s != [] {
      SortPermutes(less, s[1..]);
      InsertPermutes(less, s[0], Sort(less, s[1..]));
      assert s == [s[0]] + s[1..];
    }
    assert |Sort(less, s)| == |multiset(Sort(less, s))| == |multiset(s)| == |s|;
  }

  lemma {:induction false} InsertSorted<T(!new)>(less: (T, T) -> bool, x: T, s: seq<T>)
    requires StrictWeakOrder(less) && Sorted(less, s)
    ensures Sorted(less, Insert(less, x, s))
  {
    if s != [] && less(s[0], x) {
      var t := Insert(less, x, s[1..]);
      InsertSorted(less, x, s[1..]);
      InsertPermutes(less, x, s[1..]);
      forall j | 0 <= j < |t| ensures !less(t[j], s[0]) {
        assert t[j] in multiset(t);
        assert t[j] == x || t[j] in s[1..];
      }
    }
  }

  lemma {:induction false} SortSorts<T(!new)>(less: (T, T) -> bool, s: seq<T>)
    requires StrictWeakOrder(less)
    ensures Sorted(less, Sort(less, s))
  {
    if s != [] {
      SortSorts(less, s[1..]);
      InsertSorted(less, s[0], Sort(less, s[1..]));
    }
  }

  lemma FilterSwap<T(!new)>(p: T -> bool, x: T, y: T, rest: seq<T>, tail: seq<T>)
    requires Filter(p, tail) == Filter(p, [x] + rest) && !(p(x) && p(y))
    ensures Filter(p, [y] + tail) == Filter(p, [x] + ([y] + rest))
  {
    hide Filter;
    FilterCons(p, y, tail);
    FilterCons(p, x, rest);
    FilterCons(p, x, [y] + rest);
    FilterCons(p, y, rest);
  }

  lemma {:induction false} InsertStable<T(!new)>(less: (T, T) -> bool, p: T -> bool, x: T, s: seq<T>)
    requires forall y, z :: p(y) && p(z) ==> !less(y, z)
    ensures Filter(p, Insert(less, x, s)) == Filter(p, [x] + s)
  {
    if s != [] && less(s[0], x) {
      var y, rest := s[0], s[1..];
      hide Filter;
      InsertStable(less, p, x, rest);
      FilterSwap(p, x, y, rest, Insert(less, x, rest));
      assert s == [y] + rest;
    }
  }

  /** Elements that the order cannot tell apart keep their original order. */
  lemma {:induction false} SortStable<T(!new)>(less: (T, T) -> bool, p: T -> bool, s: seq<T>)
    requires forall y, z :: p(y) && p(z) ==> !less(y, z)
    ensures Filter(p, Sort(less, s)) == Filter(p, s)
  {
    if s != [] {
      SortStable(less, p, s[1..]);
      InsertStable(less, p, s[0], Sort(less, s[1..]));
      hide Filter;
      FilterCons(p, s[0], Sort(less, s[1..]));
      FilterCons(p, s[0], s[1..]);
      assert s == [s[0]] + s[1..];
    }
  }

  /** Sorting changes nothing exactly when the input is already sorted. */
  lemma {:induction false} SortFixesSorted<T(!new)>(less: (T, T) -> bool, s: seq<T>)
    requires StrictWeakOrder(less)
    ensures Sort(less, s) == s <==> Sorted(less, s)
  {
    SortSorts(less, s);
    if s != [] && Sorted(less, s) {
      SortFixesSorted(less, s[1..]);
      assert s == [s[0]] + s[1..];
    }
  }

  /** Two sorted sequences whose classes of alike elements agree, in order, are equal. */
  lemma {:induction false} SortedUnique<T(!new)>(less: (T, T) -> bool, a: seq<T>, b: seq<T>)
    requires StrictWeakOrder(less) && Sorted(less, a) && Sorted(less, b)
    requires forall x :: Filter(Alike(less, x), a) == Filter(Alike(less, x), b)
    ensures a == b
    decreases |a| + |b|
  {
    if a != [] || b != [] {
      var h := if a != [] then a[0] else b[0];
      assert h in Filter(Alike(less, h), a) || h in Filter(Alike(less, h), b);
      assert a != [] && b != [];
      assert b[0] in Filter(Alike(less, b[0]), b);
      assert b[0] in a && a[0] in b;
      assert !less(b[0], a[0]) && !less(a[0], b[0]);
      assert Filter(Alike(less, h), a)[0] == a[0];
      assert Filter(Alike(less, h), b)[0] == b[0];
      forall x ensures Filter(Alike(less, x), a[1..]) == Filter(Alike(less, x), b[1..]) {
        var p := Alike(less, x);
        var n := if p(a[0]) then 1 else 0;
        assert Filter(p, a)[n..] == Filter(p, a[1..]);
        assert Filter(p, b)[n..] == Filter(p, b[1..]);
      }
      SortedUnique(less, a[1..], b[1..]);
    }
  }

  /** Sort is the only function that permutes, sorts and keeps alike elements in order. */
  lemma SortUnique<T(!new)>(less: (T, T) -> bool, s: seq<T>, t: seq<T>)
    requires StrictWeakOrder(less) && Sorted(less, t)
    requires forall x :: Filter(Alike(less, x), t) == Filter(Alike(less, x), s)
    ensures t == Sort(less, s)
  {
    SortSorts(less, s);
    forall x ensures Filter(Alike(less, x), Sort(less, s)) == Filter(Alike(less, x), s) {
      var p := Alike(less, x);
      forall y, z | p(y) && p(z) ensures !less(y, z) {
        assert !less(y, x) && !less(x, z);
      }
      SortStable(less, p, s);
    }
    SortedUnique(less, Sort(less, s), t);
  }
}
