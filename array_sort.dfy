/**
 * `list.sort(compare)` on the pages' working copies, in place: an insertion
 * sort over an array that leaves in it exactly the stable sort `SortBy` of
 * what it held, so every fact proved about `SortBy` holds of the array.
 */
module ArraySort {
  import opened Sorting

  /** Where `Insert` puts `x`: after the `m` elements it may not precede. */
  lemma {:induction false} InsertAt<T>(x: T, s: seq<T>, le: (T, T) -> bool, m: nat)
    requires m <= |s|
    requires forall k :: 0 <= k < m ==> !le(x, s[k])
    requires m == |s| || le(x, s[m])
    ensures Insert(x, s, le) == s[..m] + [x] + s[m..]
  {
    if m == 0 {
      assert s[..0] + [x] + s[0..] == [x] + s;
    } else {
      InsertAt(x, s[1..], le, m - 1);
      InsertPast(x, s, le, m);
    }
  }

  /** One step of `Insert` past an element `x` may not precede. */
  lemma InsertPast<T>(x: T, s: seq<T>, le: (T, T) -> bool, m: nat)
    requires 0 < m <= |s| && !le(x, s[0])
    requires Insert(x, s[1..], le) == s[1..][..m - 1] + [x] + s[1..][m - 1..]
    ensures Insert(x, s, le) == s[..m] + [x] + s[m..]
  {
    var t := s[1..];
    assert s[..m] + [x] + s[m..] == [s[0]] + (t[..m - 1] + [x] + t[m - 1..]);
  }

  /** The last element of a stable sort: the sort of a suffix is the first element inserted into the sort of the rest. */
  lemma SortByStep<T>(s: seq<T>, i: nat, le: (T, T) -> bool)
    requires i < |s|
    ensures SortBy(s[i..], le) == Insert(s[i], SortBy(s[i + 1..], le), le)
  {
    assert s[i..][1..] == s[i + 1..];
  }

  /**
   * One step of the sort: `a[i]` moves right past the elements of the sorted
   * `a[i + 1..]` it may not precede; the elements before `i` stay put.
   */
  method InsertInPlace<T>(a: array<T>, i: nat, le: (T, T) -> bool)
    requires i < a.Length
    modifies a
    ensures a[..i] == old(a[..i])
    ensures a[i..] == Insert(old(a[i]), old(a[i + 1..]), le)
  {
    ghost var before := a[..];
    var x := a[i];
    var j := i;
    while j + 1 < a.Length && !le(x, a[j + 1])
      invariant i <= j < a.Length
      invariant forall k :: 0 <= k < i ==> a[k] == before[k]
      invariant forall k :: i <= k < j ==> a[k] == before[k + 1]
      invariant forall k :: j < k < a.Length ==> a[k] == before[k]
      invariant forall k :: i < k <= j ==> !le(x, before[k])
    {
      a[j] := a[j + 1];
      j := j + 1;
    }
    a[j] := x;
    Shifted(a[..], before, i, j, le);
  }

  /** The array after the shifts is the untouched front followed by `Insert` of the old `a[i]` into the old rest. */
  lemma Shifted<T>(b: seq<T>, before: seq<T>, i: nat, j: nat, le: (T, T) -> bool)
    requires i <= j < |b| == |before|
    requires forall k :: 0 <= k < i ==> b[k] == before[k]
    requires forall k :: i <= k < j ==> b[k] == before[k + 1]
    requires b[j] == before[i]
    requires forall k :: j < k < |b| ==> b[k] == before[k]
    requires forall k :: i < k <= j ==> !le(before[i], before[k])
    requires j + 1 == |b| || le(before[i], before[j + 1])
    ensures b[..i] == before[..i]
    ensures b[i..] == Insert(before[i], before[i + 1..], le)
  {
    var x, sorted := before[i], before[i + 1..];
    Passed(before, i, j, le);
    InsertAt(x, sorted, le, j - i);
    Assembled(b, before, i, j);
  }

  /** The elements `x` moved past, read in the old rest. */
  lemma Passed<T>(before: seq<T>, i: nat, j: nat, le: (T, T) -> bool)
    requires i <= j < |before|
    requires forall k :: i < k <= j ==> !le(before[i], before[k])
    requires j + 1 == |before| || le(before[i], before[j + 1])
    ensures var sorted := before[i + 1..];
      && (forall k :: 0 <= k < j - i ==> !le(before[i], sorted[k]))
      && (j - i == |sorted| || le(before[i], sorted[j - i]))
  {
  }

  /** The array after the shifts, read as a sequence: the front, the shifted run, `x`, then the untouched rest. */
  lemma Assembled<T>(b: seq<T>, before: seq<T>, i: nat, j: nat)
    requires i <= j < |b| == |before|
    requires forall k :: 0 <= k < i ==> b[k] == before[k]
    requires forall k :: i <= k < j ==> b[k] == before[k + 1]
    requires b[j] == before[i]
    requires forall k :: j < k < |b| ==> b[k] == before[k]
    ensures b[..i] == before[..i]
    ensures b[i..] == before[i + 1..][..j - i] + [before[i]] + before[i + 1..][j - i..]
  {
  }

  /** Sorts `a` in place; afterwards it holds the stable sort of its old contents. */
  method SortInPlace<T>(a: array<T>, le: (T, T) -> bool)
    modifies a
    ensures a[..] == SortBy(old(a[..]), le)
  {
    ghost var s := a[..];
    var i := a.Length;
    while i > 0
      invariant 0 <= i <= a.Length
      invariant a[..i] == s[..i]
      invariant a[i..] == SortBy(s[i..], le)
    {
      i := i - 1;
      InsertInPlace(a, i, le);
      SortByStep(s, i, le);
    }
    assert a[..] == a[0..];
    assert s == s[0..];
  }
}
