/**
 * `Array.prototype.sort` with a comparator, which the pages use for every
 * ordering. The engine's sort is stable, so for a consistent comparator its
 * result is the stable sorted permutation of the input; the model computes it
 * by insertion. `le(a, b)` stands for `compare(a, b) <= 0`, i.e. "`a` may be
 * placed before `b`".
 */
module Sorting {
  import opened Seqs

  /** A comparator that is consistent: every pair is comparable and the order is transitive. */
  ghost predicate TotalPreorder<T(!new)>(le: (T, T) -> bool) {
    && (forall a, b :: le(a, b) || le(b, a))
    && (forall a, b, c :: le(a, b) && le(b, c) ==> le(a, c))
  }

  predicate Sorted<T>(s: seq<T>, le: (T, T) -> bool) {
    forall i, j :: 0 <= i < j < |s| ==> le(s[i], s[j])
  }

  /** The elements that compare equal to `x`: the comparator returns 0 both ways. */
  function TiedWith<T>(x: T, le: (T, T) -> bool): T -> bool {
    y => le(x, y) && le(y, x)
  }

  /** Place `x` in front of the first element it may precede. */
  function Insert<T>(x: T, s: seq<T>, le: (T, T) -> bool): (r: seq<T>)
    ensures multiset(r) == multiset(s) + multiset{x}
    ensures |r| == |s| + 1
  {
    if s == [] then [x]
    else if le(x, s[0]) then [x] + s
    else
      assert s == [s[0]] + s[1..];
      [s[0]] + Insert(x, s[1..], le)
  }

  /** The stable sort of `s` by `le`. */
  function SortBy<T>(s: seq<T>, le: (T, T) -> bool): (r: seq<T>)
    ensures multiset(r) == multiset(s)
    ensures |r| == |s|
  {
    if s == [] then []
    else
      assert s == [s[0]] + s[1..];
      Insert(s[0], SortBy(s[1..], le), le)
  }

  lemma {:induction false} InsertSorted<T(!new)>(x: T, s: seq<T>, le: (T, T) -> bool)
    requires TotalPreorder(le)
    requires Sorted(s, le)
    ensures Sorted(Insert(x, s, le), le)
  {
    if s != [] && !le(x, s[0]) {
      InsertSorted(x, s[1..], le);
      var r := Insert(x, s[1..], le);
      assert le(s[0], x);
      assert forall y :: y in multiset(r) ==> y == x || y in s[1..];
      forall j | 0 <= j < |r| ensures le(s[0], r[j]) {
        assert r[j] in multiset(r);
      }
    }
  }

  lemma {:induction false} SortBySorted<T(!new)>(s: seq<T>, le: (T, T) -> bool)
    requires TotalPreorder(le)
    ensures Sorted(SortBy(s, le), le)
  {
    if s != [] {
      SortBySorted(s[1..], le);
      InsertSorted(s[0], SortBy(s[1..], le), le);
    }
  }

  /** Inserting `x` adds it in front of the elements tied with `z` exactly when it is tied with `z`. */
  lemma {:induction false} InsertTies<T(!new)>(x: T, s: seq<T>, z: T, le: (T, T) -> bool)
    requires TotalPreorder(le)
    requires Sorted(s, le)
    ensures Filter(Insert(x, s, le), TiedWith(z, le))
         == Filter([x], TiedWith(z, le)) + Filter(s, TiedWith(z, le))
  {
    var p := TiedWith(z, le);
    if s == [] {
    } else if le(x, s[0]) {
      FilterAppend([x], s, p);
    } else {
      var t := Insert(x, s[1..], le);
      InsertTies(x, s[1..], z, le);
      assert s == [s[0]] + s[1..];
      assert Insert(x, s, le) == [s[0]] + t;
      FilterAppend([s[0]], t, p);
      FilterAppend([s[0]], s[1..], p);
      NotBothTied(x, s[0], z, le);
    }
  }

  /** Two elements tied with the same `z` may be placed either way round. */
  lemma NotBothTied<T(!new)>(x: T, y: T, z: T, le: (T, T) -> bool)
    requires TotalPreorder(le)
    requires !le(x, y)
    ensures !(TiedWith(z, le)(x) && TiedWith(z, le)(y))
  {
    assert le(x, z) && le(z, y) ==> le(x, y);
  }

  /**
   * Stability: for every `z`, the elements tied with `z` appear in the sorted
   * output in the same order as in the input.
   */
  lemma {:induction false} SortByStable<T(!new)>(s: seq<T>, z: T, le: (T, T) -> bool)
    requires TotalPreorder(le)
    ensures Filter(SortBy(s, le), TiedWith(z, le)) == Filter(s, TiedWith(z, le))
  {
    if s != [] {
      var p := TiedWith(z, le);
      var rest := SortBy(s[1..], le);
      SortByStable(s[1..], z, le);
      SortBySorted(s[1..], le);
      InsertTies(s[0], rest, z, le);
      assert SortBy(s, le) == Insert(s[0], rest, le);
      assert s == [s[0]] + s[1..];
      FilterAppend([s[0]], s[1..], p);
    }
  }

  /** The three facts together: a sorted, stable permutation. */
  lemma SortByCorrect<T(!new)>(s: seq<T>, le: (T, T) -> bool)
    requires TotalPreorder(le)
    ensures multiset(SortBy(s, le)) == multiset(s)
    ensures Sorted(SortBy(s, le), le)
    ensures forall z :: Filter(SortBy(s, le), TiedWith(z, le)) == Filter(s, TiedWith(z, le))
  {
    SortBySorted(s, le);
    forall z ensures Filter(SortBy(s, le), TiedWith(z, le)) == Filter(s, TiedWith(z, le)) {
      SortByStable(s, z, le);
    }
  }

  lemma SortedHeadFirst<T(!new)>(r: seq<T>, x: T, le: (T, T) -> bool)
    requires TotalPreorder(le)
    requires Sorted(r, le) && x in multiset(r)
    ensures r != [] && le(r[0], x)
  {
    var k :| 0 <= k < |r| && r[k] == x;
    assert k == 0 ==> le(x, x) || le(x, x);
  }

  lemma SameHead<T(!new)>(r1: seq<T>, r2: seq<T>, le: (T, T) -> bool)
    requires TotalPreorder(le)
    requires Sorted(r1, le) && Sorted(r2, le)
    requires multiset(r1) == multiset(r2) && r1 != []
    requires forall z :: Filter(r1, TiedWith(z, le)) == Filter(r2, TiedWith(z, le))
    ensures r2 != [] && r1[0] == r2[0]
  {
    var a := r1[0];
    assert a in multiset(r2);
    SortedHeadFirst(r2, a, le);
    var b := r2[0];
    assert b in multiset(r1);
    SortedHeadFirst(r1, b, le);
    var p := TiedWith(a, le);
    assert p(a) && p(b);
    assert r1 == [a] + r1[1..] && r2 == [b] + r2[1..];
    FilterAppend([a], r1[1..], p);
    FilterAppend([b], r2[1..], p);
    assert Filter(r1, p)[0] == a && Filter(r2, p)[0] == b;
  }

  lemma SameTailTie<T(!new)>(r1: seq<T>, r2: seq<T>, p: T -> bool)
    requires r1 != [] && r2 != [] && r1[0] == r2[0]
    requires Filter(r1, p) == Filter(r2, p)
    ensures Filter(r1[1..], p) == Filter(r2[1..], p)
  {
    var h := Filter([r1[0]], p);
    assert r1 == [r1[0]] + r1[1..] && r2 == [r2[0]] + r2[1..];
    FilterAppend([r1[0]], r1[1..], p);
    FilterAppend([r2[0]], r2[1..], p);
    assert Filter(r1[1..], p) == Filter(r1, p)[|h|..];
    assert Filter(r2[1..], p) == Filter(r2, p)[|h|..];
  }

  lemma SameTailTies<T(!new)>(r1: seq<T>, r2: seq<T>, le: (T, T) -> bool)
    requires r1 != [] && r2 != [] && r1[0] == r2[0]
    requires forall z :: Filter(r1, TiedWith(z, le)) == Filter(r2, TiedWith(z, le))
    ensures forall z :: Filter(r1[1..], TiedWith(z, le)) == Filter(r2[1..], TiedWith(z, le))
  {
    forall z ensures Filter(r1[1..], TiedWith(z, le)) == Filter(r2[1..], TiedWith(z, le)) {
      SameTailTie(r1, r2, TiedWith(z, le));
    }
  }

  /**
   * Two stable sorted arrangements of the same elements are identical; so any
   * stable sort, the engine's included, computes `SortBy`.
   */
  lemma {:induction false} StableSortUnique<T(!new)>(r1: seq<T>, r2: seq<T>, le: (T, T) -> bool)
    requires TotalPreorder(le)
    requires Sorted(r1, le) && Sorted(r2, le)
    requires multiset(r1) == multiset(r2)
    requires forall z :: Filter(r1, TiedWith(z, le)) == Filter(r2, TiedWith(z, le))
    ensures r1 == r2
  {
    if r1 == [] {
      assert |r2| == |multiset(r2)| == 0;
    } else {
      SameHead(r1, r2, le);
      SameTailTies(r1, r2, le);
      assert r1 == [r1[0]] + r1[1..] && r2 == [r2[0]] + r2[1..];
      assert multiset(r1[1..]) == multiset(r1) - multiset{r1[0]};
      assert multiset(r2[1..]) == multiset(r2) - multiset{r2[0]};
      StableSortUnique(r1[1..], r2[1..], le);
    }
  }

  /** `SortBy` is the only stable sorted permutation of its input. */
  lemma SortByIsTheStableSort<T(!new)>(s: seq<T>, r: seq<T>, le: (T, T) -> bool)
    requires TotalPreorder(le)
    requires Sorted(r, le) && multiset(r) == multiset(s)
    requires forall z :: Filter(r, TiedWith(z, le)) == Filter(s, TiedWith(z, le))
    ensures r == SortBy(s, le)
  {
    SortByCorrect(s, le);
    StableSortUnique(r, SortBy(s, le), le);
  }
}
