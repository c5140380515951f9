/** Ordering helpers: Python's stable `list.sort(key=...)` and numpy's
    `np.unique` (sorted, duplicate-free) over an arbitrary strict total order. */
module Sorting {

  ghost predicate StrictTotalOrder<T(!new)>(less: (T, T) -> bool) {
    && (forall x :: !less(x, x))
    && (forall x, y, z :: less(x, y) && less(y, z) ==> less(x, z))
    && (forall x, y :: x != y ==> less(x, y) || less(y, x))
  }

  /** Strictly ascending under `less`: what `np.unique` returns. */
  predicate StrictlySorted<T>(s: seq<T>, less: (T, T) -> bool) {
    forall i, j :: 0 <= i < j < |s| ==> less(s[i], s[j])
  }

  /** Non-decreasing in `key`: what `list.sort(key=...)` leaves. */
  predicate SortedByKey<T>(s: seq<T>, key: T -> real) {
    forall i, j :: 0 <= i < j < |s| ==> key(s[i]) <= key(s[j])
  }

  /** The set of elements of a sequence. */
  function Elems<T(==)>(s: seq<T>): set<T> {
    set k | k in s
  }

  // ---------------------------------------------------------------------------
  // np.unique

  function InsertUnique<T(==)>(x: T, s: seq<T>, less: (T, T) -> bool): seq<T>
  {
    if s == [] then [x]
    else if x == s[0] then s
    else if less(x, s[0]) then [x] + s
    else [s[0]] + InsertUnique(x, s[1..], less)
  }

  lemma {:induction false} InsertUniqueCorrect<T(!new)>(x: T, s: seq<T>, less: (T, T) -> bool)
    requires StrictTotalOrder(less)
    requires StrictlySorted(s, less)
    ensures StrictlySorted(InsertUnique(x, s, less), less)
    ensures Elems(InsertUnique(x, s, less)) == Elems(s) + {x}
  {
    if s == [] || x == s[0] || less(x, s[0]) {
    } else {
      InsertUniqueCorrect(x, s[1..], less);
      var t := InsertUnique(x, s[1..], less);
      assert less(s[0], x);
      forall k | k in t ensures less(s[0], k) {
        assert k in Elems(t);
      }
      var r := [s[0]] + t;
      forall i, j | 0 <= i < j < |r| ensures less(r[i], r[j]) {
        if i > 0 { assert r[i] == t[i - 1] && r[j] == t[j - 1]; }
        else { assert r[j] in t; }
      }
      assert s == [s[0]] + s[1..];
      ElemsCons(s[0], s[1..]);
      ElemsCons(s[0], t);
    }
  }

  lemma ElemsCons<T>(x: T, s: seq<T>)
    ensures Elems([x] + s) == {x} + Elems(s)
  {
    var l, r := Elems([x] + s), {x} + Elems(s);
    forall k | k in l ensures k in r {
      var i :| 0 <= i < |[x] + s| && ([x] + s)[i] == k;
      if i > 0 { assert s[i - 1] == k; }
    }
    forall k | k in r ensures k in l {
      if k != x {
        var i :| 0 <= i < |s| && s[i] == k;
        assert ([x] + s)[i + 1] == k;
      }
    }
  }

  /** `np.unique(s)`: the distinct elements of `s` in ascending order. */
  function SortedUnique<T(==,!new)>(s: seq<T>, less: (T, T) -> bool): (r: seq<T>)
    requires StrictTotalOrder(less)
    ensures StrictlySorted(r, less)
    ensures Elems(r) == Elems(s)
  {
    if s == [] then []
    else
      var u := SortedUnique(s[..|s| - 1], less);
      InsertUniqueCorrect(s[|s| - 1], u, less);
      assert s == s[..|s| - 1] + [s[|s| - 1]];
      InsertUnique(s[|s| - 1], u, less)
  }

  /** A strictly sorted sequence holds no element twice. */
  lemma StrictlySortedDistinct<T(!new)>(s: seq<T>, less: (T, T) -> bool, i: int, j: int)
    requires StrictTotalOrder(less)
    requires StrictlySorted(s, less)
    requires 0 <= i < |s| && 0 <= j < |s| && i != j
    ensures s[i] != s[j]
  {
    if i < j { assert less(s[i], s[j]); } else { assert less(s[j], s[i]); }
  }

  predicate RealLess(x: real, y: real) { x < y }

  lemma RealLessIsStrictTotalOrder()
    ensures StrictTotalOrder(RealLess)
  {
  }

  // ---------------------------------------------------------------------------
  // list.sort(key=...)

  function InsertByKey<T>(x: T, s: seq<T>, key: T -> real): seq<T>
  {
    if s == [] then [x]
    else if key(x) < key(s[0]) then [x] + s
    else [s[0]] + InsertByKey(x, s[1..], key)
  }

  lemma {:induction false} InsertByKeyElems<T>(x: T, s: seq<T>, key: T -> real, k: T)
    requires k in InsertByKey(x, s, key)
    ensures k == x || k in s
  {
    if s != [] && key(s[0]) <= key(x) && k != s[0] {
      InsertByKeyElems(x, s[1..], key, k);
    }
  }

  lemma {:induction false} InsertByKeyMultiset<T>(x: T, s: seq<T>, key: T -> real)
    ensures multiset(InsertByKey(x, s, key)) == multiset(s) + multiset{x}
  {
    if s != [] && key(s[0]) <= key(x) {
      InsertByKeyMultiset(x, s[1..], key);
      assert s == [s[0]] + s[1..];
    }
  }

  lemma {:induction false} InsertByKeySorted<T>(x: T, s: seq<T>, key: T -> real)
    requires SortedByKey(s, key)
    ensures SortedByKey(InsertByKey(x, s, key), key)
  {
    if s != [] && key(s[0]) <= key(x) {
      InsertByKeySorted(x, s[1..], key);
      var t := InsertByKey(x, s[1..], key);
      var r := [s[0]] + t;
      forall i, j | 0 <= i < j < |r| ensures key(r[i]) <= key(r[j]) {
        if i > 0 {
          assert r[i] == t[i - 1] && r[j] == t[j - 1];
        } else {
          assert r[j] in t;
          InsertByKeyElems(x, s[1..], key, r[j]);
        }
      }
    }
  }

  /** Where `InsertByKey` puts `x`: after every element whose key is not
      greater, before the first whose key is. */
  lemma {:induction false} InsertByKeyPosition<T>(x: T, s: seq<T>, key: T -> real) returns (k: nat)
    ensures k <= |s| && InsertByKey(x, s, key) == s[..k] + [x] + s[k..]
    ensures forall i :: 0 <= i < k ==> key(s[i]) <= key(x)
    ensures k < |s| ==> key(x) < key(s[k])
  {
    if s == [] || key(x) < key(s[0]) {
      k := 0;
    } else {
      var j := InsertByKeyPosition(x, s[1..], key);
      k := j + 1;
      assert s[..k] == [s[0]] + s[1..][..j];
      assert s[k..] == s[1..][j..];
    }
  }

  /** `sorted(s, key=key)`: a stable insertion sort; each element goes after
      every earlier one whose key is not greater (`InsertByKeyPosition`), so
      elements of equal key keep their order. */
  function SortByKey<T(==)>(s: seq<T>, key: T -> real): (r: seq<T>)
    ensures SortedByKey(r, key)
    ensures multiset(r) == multiset(s)
    ensures |r| == |s|
  {
    if s == [] then []
    else
      var u := SortByKey(s[..|s| - 1], key);
      InsertByKeySorted(s[|s| - 1], u, key);
      InsertByKeyMultiset(s[|s| - 1], u, key);
      assert s == s[..|s| - 1] + [s[|s| - 1]];
      assert |multiset(InsertByKey(s[|s| - 1], u, key))| == |multiset(s)|;
      InsertByKey(s[|s| - 1], u, key)
  }
}
