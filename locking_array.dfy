/**
 * The ordered list behind the scheduler's queued and active request lists. The
 * source guards every call with a read-write lock; here each call is one atomic
 * step on the `elements` field (the source's private `array`).
 */
module LockingArrays {

  class LockingArray<T> {
    var elements: seq<T>

    constructor ()
      ensures elements == []
    {
      elements := [];
    }

    /** `count`: the number of elements (a read; nothing changes). */
    function Count(): nat
      reads this
    {
      |elements|
    }

    /** `values`: a copy of the elements (a read; nothing changes). */
    function Values(): seq<T>
      reads this
    {
      elements
    }

    method Append(value: T)
      modifies this
      ensures elements == old(elements) + [value]
      ensures Count() == old(Count()) + 1
    {
      elements := elements + [value];
    }

    /** `append(_ values:)` and the `+=` operator. */
    method AppendAll(values: seq<T>)
      modifies this
      ensures elements == old(elements) + values
    {
      elements := elements + values;
    }

    /** `sort(by:)` for a comparator of the form `key(a) < key(b)`. */
    method SortByKey(key: T -> int)
      modifies this
      ensures elements == SortedByKey(old(elements), key)
      ensures IsSortedByKey(elements, key) && multiset(elements) == multiset(old(elements))
    {
      SortedByKeyIsSortedPermutation(elements, key);
      elements := SortedByKey(elements, key);
    }

    /** `removeFirst()`: the elements must not be empty (Swift traps otherwise). */
    method RemoveFirst() returns (first: T)
      requires |elements| > 0
      modifies this
      ensures first == old(elements[0]) && elements == old(elements[1..])
    {
      first := elements[0];
      elements := elements[1..];
    }

    /** `removeAll(where:)`: keeps exactly the elements `p` rejects, in their order. */
    method RemoveAllWhere(p: T -> bool)
      modifies this
      ensures elements == Without(old(elements), p)
    {
      elements := Without(elements, p);
    }

    /** `removeAll()`: hands back the former contents and leaves the elements empty. */
    method RemoveAll() returns (values: seq<T>)
      modifies this
      ensures values == old(elements) && elements == []
    {
      values := elements;
      elements := [];
    }
  }

  /** The elements of `s` that fail `p`, in their order in `s`. */
  function Without<T>(s: seq<T>, p: T -> bool): seq<T>
  {
    if |s| == 0 then [] else (if p(s[0]) then [] else [s[0]]) + Without(s[1..], p)
  }

  /** Exactly the elements that fail `p` survive, and none is duplicated. */
  lemma {:induction false} WithoutMembers<T>(s: seq<T>, p: T -> bool)
    ensures forall x :: x in Without(s, p) <==> x in s && !p(x)
    ensures multiset(Without(s, p)) <= multiset(s)
    ensures |Without(s, p)| <= |s|
    decreases |s|
  {
    if |s| > 0 {
      WithoutMembers(s[1..], p);
      assert s == [s[0]] + s[1..];
    }
  }

  /** A survivor of the filter, one element at a time. */
  lemma WithoutMember<T>(s: seq<T>, p: T -> bool, x: T)
    requires x in Without(s, p)
    ensures x in s && !p(x)
  {
    WithoutMembers(s, p);
  }

  /** Two sequences with the same multiset have the same members. */
  lemma SameMembers<T>(a: seq<T>, b: seq<T>)
    requires multiset(a) == multiset(b)
    ensures forall x :: x in a ==> x in b
  {
    forall x | x in a ensures x in b {
      assert x in multiset(a);
    }
  }

  lemma {:induction false} WithoutConcat<T>(a: seq<T>, b: seq<T>, p: T -> bool)
    ensures Without(a + b, p) == Without(a, p) + Without(b, p)
    decreases |a|
  {
    if |a| == 0 {
      assert a + b == b;
    } else {
      assert (a + b)[1..] == a[1..] + b;
      WithoutConcat(a[1..], b, p);
    }
  }

  /** Ascending by key. */
  ghost predicate IsSortedByKey<T>(s: seq<T>, key: T -> int) {
    forall i, j :: 0 <= i < j < |s| ==> key(s[i]) <= key(s[j])
  }

  /** `x` placed before the first element whose key is not smaller than its own. */
  function Insert<T>(x: T, s: seq<T>, key: T -> int): seq<T>
  {
    if |s| == 0 || key(x) <= key(s[0]) then [x] + s
    else [s[0]] + Insert(x, s[1..], key)
  }

  /** Insertion sort by key; equal keys keep their relative order. */
  function SortedByKey<T>(s: seq<T>, key: T -> int): seq<T>
  {
    if |s| == 0 then [] else Insert(s[0], SortedByKey(s[1..], key), key)
  }

  lemma {:induction false} InsertPermutes<T>(x: T, s: seq<T>, key: T -> int)
    ensures multiset(Insert(x, s, key)) == multiset(s) + multiset{x}
    decreases |s|
  {
    if |s| > 0 && key(x) > key(s[0]) {
      InsertPermutes(x, s[1..], key);
      assert s == [s[0]] + s[1..];
    }
  }

  lemma {:induction false} InsertSorted<T>(x: T, s: seq<T>, key: T -> int)
    requires IsSortedByKey(s, key)
    ensures IsSortedByKey(Insert(x, s, key), key)
    decreases |s|
  {
    if |s| > 0 && key(x) > key(s[0]) {
      var t := Insert(x, s[1..], key);
      InsertSorted(x, s[1..], key);
      InsertPermutes(x, s[1..], key);
      forall y | y in t
        ensures key(s[0]) <= key(y)
      {
        assert y in multiset(t);
        assert y in multiset(s[1..]) || y == x;
      }
    }
  }

  /** The sort yields a permutation of its input in ascending key order. */
  lemma {:induction false} SortedByKeyIsSortedPermutation<T>(s: seq<T>, key: T -> int)
    ensures IsSortedByKey(SortedByKey(s, key), key)
    ensures multiset(SortedByKey(s, key)) == multiset(s)
    decreases |s|
  {
    if |s| > 0 {
      SortedByKeyIsSortedPermutation(s[1..], key);
      InsertSorted(s[0], SortedByKey(s[1..], key), key);
      InsertPermutes(s[0], SortedByKey(s[1..], key), key);
      assert s == [s[0]] + s[1..];
    }
  }

  /** Keeping only the elements whose key is `k` commutes with insertion. */
  lemma {:induction false} InsertStable<T>(x: T, s: seq<T>, key: T -> int, k: int)
    ensures Without(Insert(x, s, key), y => key(y) != k)
         == (if key(x) == k then [x] else []) + Without(s, y => key(y) != k)
    decreases |s|
  {
    if |s| > 0 && key(x) > key(s[0]) {
      InsertStable(x, s[1..], key, k);
    }
  }

  /** Stability: the elements with any one key appear in the sorted result in their original order. */
  lemma {:induction false} SortedByKeyStable<T>(s: seq<T>, key: T -> int, k: int)
    ensures Without(SortedByKey(s, key), y => key(y) != k) == Without(s, y => key(y) != k)
    decreases |s|
  {
    if |s| > 0 {
      SortedByKeyStable(s[1..], key, k);
      InsertStable(s[0], SortedByKey(s[1..], key), key, k);
    }
  }
}
