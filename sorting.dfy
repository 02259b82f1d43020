/** `Array.prototype.sort` with a comparator, as the pages call it.
    The comparator returns a number whose sign orders two elements
    (NaN has already been mapped to 0 by the caller, as the standard's
    SortCompare does). The model sorts by insertion, swapping neighbours
    while the left one compares greater, which is stable and needs of the
    comparator only that its sign is antisymmetric. */
module Sorting {

  import opened Common

  /** `cmp(x, y) > 0` exactly when `cmp(y, x) < 0`. */
  ghost predicate SignAntisymmetric<T(!new)>(cmp: (T, T) -> int)
  {
    forall x, y :: cmp(x, y) > 0 <==> cmp(y, x) < 0
  }

  /** `cmp(x, y) <= 0` is transitive (with SignAntisymmetric, a total preorder). */
  ghost predicate LessEqTransitive<T(!new)>(cmp: (T, T) -> int)
  {
    forall x, y, z :: cmp(x, y) <= 0 && cmp(y, z) <= 0 ==> cmp(x, z) <= 0
  }

  /** No neighbour pair is out of order. */
  predicate AdjacentSorted<T>(s: seq<T>, cmp: (T, T) -> int)
  {
    forall k :: 0 <= k < |s| - 1 ==> cmp(s[k], s[k + 1]) <= 0
  }

  /** No pair is out of order. */
  predicate Sorted<T>(s: seq<T>, cmp: (T, T) -> int)
  {
    forall i, j :: 0 <= i < j < |s| ==> cmp(s[i], s[j]) <= 0
  }

  /** For a transitive comparator, ordered neighbours give a sorted sequence. */
  lemma {:induction false} AdjacentSortedIsSorted<T(!new)>(s: seq<T>, cmp: (T, T) -> int)
    requires LessEqTransitive(cmp)
    requires AdjacentSorted(s, cmp)
    ensures Sorted(s, cmp)
  {
    if |s| > 1 {
      var t := s[1..];
      assert AdjacentSorted(t, cmp) by {
        forall k | 0 <= k < |t| - 1 ensures cmp(t[k], t[k + 1]) <= 0 {
          assert t[k] == s[k + 1] && t[k + 1] == s[k + 2];
        }
      }
      AdjacentSortedIsSorted(t, cmp);
      forall i, j | 0 <= i < j < |s| ensures cmp(s[i], s[j]) <= 0 {
        if i > 0 {
          assert s[i] == t[i - 1] && s[j] == t[j - 1];
        } else if j > 1 {
          assert s[1] == t[0] && s[j] == t[j - 1];
          assert cmp(s[0], s[1]) <= 0;
        }
      }
    }
  }

  /** Removing elements keeps a sequence sorted. */
  lemma FilterKeepsSorted<T(!new)>(s: seq<T>, r: seq<T>, cmp: (T, T) -> int)
    requires Sorted(s, cmp)
    requires Embeds(r, s)
    ensures Sorted(r, cmp)
    decreases |s|
  {
    if r != [] && s != [] {
      var t := s[1..];
      assert Sorted(t, cmp) by {
        forall i, j | 0 <= i < j < |t| ensures cmp(t[i], t[j]) <= 0 {
          assert t[i] == s[i + 1] && t[j] == s[j + 1];
        }
      }
      if r[0] == s[0] {
        FilterKeepsSorted(t, r[1..], cmp);
        EmbedsMembers(r[1..], t);
        forall i, j | 0 <= i < j < |r| ensures cmp(r[i], r[j]) <= 0 {
          if i > 0 {
            assert r[i] == r[1..][i - 1] && r[j] == r[1..][j - 1];
          } else {
            assert r[j] == r[1..][j - 1] && r[j] in r[1..];
            var k :| 0 <= k < |t| && t[k] == r[j];
            assert s[k + 1] == r[j];
          }
        }
      } else {
        FilterKeepsSorted(t, r, cmp);
      }
    }
  }

  lemma EmbedsMembers<T>(x: seq<T>, y: seq<T>)
    requires Embeds(x, y)
    ensures forall e :: e in x ==> e in y
    decreases |y|
  {
    if x != [] && y != [] {
      if x[0] == y[0] {
        EmbedsMembers(x[1..], y[1..]);
        assert forall e :: e in x ==> e == x[0] || e in x[1..];
      } else {
        EmbedsMembers(x, y[1..]);
      }
    }
  }

  /** Exchanges `a[j - 1]` and `a[j]`. */
  method SwapNeighbours<T>(a: array<T>, j: int)
    requires 0 < j < a.Length
    modifies a
    ensures a[j - 1] == old(a[j]) && a[j] == old(a[j - 1])
    ensures forall k :: 0 <= k < a.Length && k != j - 1 && k != j ==> a[k] == old(a[k])
    ensures multiset(a[..]) == old(multiset(a[..]))
  {
    a[j - 1], a[j] := a[j], a[j - 1];
  }

  /** Moves `a[i]` left past every greater neighbour, so that the ordered
      prefix `a[..i]` becomes the ordered prefix `a[..i + 1]`. */
  method InsertAt<T(!new)>(a: array<T>, i: int, cmp: (T, T) -> int)
    requires SignAntisymmetric(cmp)
    requires 0 <= i < a.Length
    requires forall k :: 0 <= k < i - 1 ==> cmp(a[k], a[k + 1]) <= 0
    modifies a
    ensures multiset(a[..]) == old(multiset(a[..]))
    ensures forall k :: 0 <= k < i ==> cmp(a[k], a[k + 1]) <= 0
    ensures forall k :: i < k < a.Length ==> a[k] == old(a[k])
  {
    var j := i;
    while j > 0 && cmp(a[j - 1], a[j]) > 0
      invariant 0 <= j <= i
      invariant multiset(a[..]) == old(multiset(a[..]))
      invariant forall k :: 0 <= k < j - 1 ==> cmp(a[k], a[k + 1]) <= 0
      invariant forall k :: j < k < i ==> cmp(a[k], a[k + 1]) <= 0
      invariant 0 < j < i ==> cmp(a[j - 1], a[j + 1]) <= 0
      invariant j < i ==> cmp(a[j], a[j + 1]) < 0
      invariant forall k :: i < k < a.Length ==> a[k] == old(a[k])
    {
      SwapNeighbours(a, j);
      j := j - 1;
    }
  }

  /** Sorts `a` in place: afterwards it holds the same elements and no
      neighbour pair is out of order. */
  method SortInPlace<T(!new)>(a: array<T>, cmp: (T, T) -> int)
    requires SignAntisymmetric(cmp)
    modifies a
    ensures multiset(a[..]) == old(multiset(a[..]))
    ensures AdjacentSorted(a[..], cmp)
  {
    var i := 0;
    while i < a.Length
      invariant 0 <= i <= a.Length
      invariant multiset(a[..]) == old(multiset(a[..]))
      invariant forall k :: 0 <= k < i - 1 ==> cmp(a[k], a[k + 1]) <= 0
    {
      InsertAt(a, i, cmp);
      i := i + 1;
    }
  }

  /** `[...s].sort(cmp)`: the sorted copy is a permutation of `s` with no
      neighbour pair out of order. */
  method SortedCopy<T(!new)>(s: seq<T>, cmp: (T, T) -> int) returns (r: seq<T>)
    requires SignAntisymmetric(cmp)
    ensures multiset(r) == multiset(s)
    ensures AdjacentSorted(r, cmp)
  {
    var a := new T[|s|](i requires 0 <= i < |s| => s[i]);
    assert a[..] == s;
    SortInPlace(a, cmp);
    r := a[..];
  }
}
