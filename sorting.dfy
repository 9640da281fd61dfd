/**
 * The stable, non-increasing sort the engines and the draft store get from
 * `Array.prototype.sort` with a comparator `(a, b) => key(b) - key(a)`.
 *
 * A stable sort by a key is pinned down by two facts: the result is ordered
 * by the key, and for every key value the elements carrying it appear in
 * their original relative order. `SortDesc` is insertion sort; the lemmas
 * below prove both facts and the permutation property.
 */
module Sorting {

  /** Keys never increase from left to right. */
  ghost predicate SortedDesc<T>(s: seq<T>, key: T -> int) {
    forall i, j :: 0 <= i < j < |s| ==> key(s[i]) >= key(s[j])
  }

  /** The elements of `s` whose key is `k`, in their order in `s`. */
  function WithKey<T>(s: seq<T>, key: T -> int, k: int): (r: seq<T>)
    ensures |r| <= |s|
    ensures forall i :: 0 <= i < |r| ==> key(r[i]) == k
  {
    if s == [] then []
    else (if key(s[0]) == k then [s[0]] else []) + WithKey(s[1..], key, k)
  }

  /** Places `x` in front of the first element whose key is not larger than its own. */
  function Insert<T>(x: T, s: seq<T>, key: T -> int): seq<T> {
    if s == [] || key(s[0]) <= key(x) then [x] + s
    else [s[0]] + Insert(x, s[1..], key)
  }

  /** Insertion sort by non-increasing key; earlier elements win ties. */
  function SortDesc<T>(s: seq<T>, key: T -> int): seq<T> {
    if s == [] then [] else Insert(s[0], SortDesc(s[1..], key), key)
  }

  lemma {:induction false} InsertPermutes<T>(x: T, s: seq<T>, key: T -> int)
    ensures multiset(Insert(x, s, key)) == multiset(s) + multiset{x}
  {
    if s == [] || key(s[0]) <= key(x) {
    } else {
      InsertPermutes(x, s[1..], key);
      assert s == [s[0]] + s[1..];
    }
  }

  lemma {:induction false} InsertSorted<T>(x: T, s: seq<T>, key: T -> int)
    requires SortedDesc(s, key)
    ensures SortedDesc(Insert(x, s, key), key)
  {
    if s == [] || key(s[0]) <= key(x) {
    } else {
      var rest := s[1..];
      InsertSorted(x, rest, key);
      InsertPermutes(x, rest, key);
      var t := Insert(x, rest, key);
      forall y | y in t
        ensures key(y) <= key(s[0])
      {
        assert y in multiset(t);
        if y != x {
          assert y in multiset(rest);
        }
      }
      var u := [s[0]] + t;
      forall i, j | 0 <= i < j < |u|
        ensures key(u[i]) >= key(u[j])
      {
        assert u[j] == t[j - 1];
        if i > 0 {
          assert u[i] == t[i - 1];
        }
      }
    }
  }

  /** Inserting `x` keeps, for every key, the order `x` followed by the rest. */
  lemma {:induction false} InsertStable<T>(x: T, s: seq<T>, key: T -> int, k: int)
    ensures WithKey(Insert(x, s, key), key, k) == WithKey([x] + s, key, k)
  {
    assert ([x] + s)[0] == x && ([x] + s)[1..] == s;
    if s == [] || key(s[0]) <= key(x) {
    } else {
      var t := Insert(x, s[1..], key);
      InsertStable(x, s[1..], key, k);
      assert ([s[0]] + t)[0] == s[0] && ([s[0]] + t)[1..] == t;
      assert ([x] + s[1..])[0] == x && ([x] + s[1..])[1..] == s[1..];
    }
  }

  /** The sort returns a permutation of its input. */
  lemma {:induction false} SortDescPermutes<T>(s: seq<T>, key: T -> int)
    ensures multiset(SortDesc(s, key)) == multiset(s)
  {
    if s != [] {
      SortDescPermutes(s[1..], key);
      InsertPermutes(s[0], SortDesc(s[1..], key), key);
      assert s == [s[0]] + s[1..];
    }
  }

  /** The sort orders by non-increasing key. */
  lemma {:induction false} SortDescSorted<T>(s: seq<T>, key: T -> int)
    ensures SortedDesc(SortDesc(s, key), key)
  {
    if s != [] {
      SortDescSorted(s[1..], key);
      InsertSorted(s[0], SortDesc(s[1..], key), key);
    }
  }

  /** The sort is stable: elements with equal keys keep their relative order. */
  lemma {:induction false} SortDescStable<T>(s: seq<T>, key: T -> int, k: int)
    ensures WithKey(SortDesc(s, key), key, k) == WithKey(s, key, k)
  {
    if s != [] {
      var r := SortDesc(s[1..], key);
      SortDescStable(s[1..], key, k);
      InsertStable(s[0], r, key, k);
      assert ([s[0]] + r)[0] == s[0] && ([s[0]] + r)[1..] == r;
    }
  }

  /** The sorted output has the same elements as the input. */
  lemma SortDescMembers<T>(s: seq<T>, key: T -> int)
    ensures forall x :: x in SortDesc(s, key) ==> x in s
    ensures forall x :: x in s ==> x in SortDesc(s, key)
    ensures |SortDesc(s, key)| == |s|
  {
    SortDescPermutes(s, key);
    forall x | x in SortDesc(s, key)
      ensures x in s
    {
      assert x in multiset(SortDesc(s, key));
    }
    forall x | x in s
      ensures x in SortDesc(s, key)
    {
      assert x in multiset(s);
    }
    assert |multiset(SortDesc(s, key))| == |SortDesc(s, key)|;
    assert |multiset(s)| == |s|;
  }
}
