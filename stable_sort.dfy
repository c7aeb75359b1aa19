/**
 * A stable sort by a numeric key, the result `Array.prototype.sort` must give
 * (ECMA-262 requires the sort to be stable since its 2019 edition) for a
 * comparator that orders by that key. Descending orders are sorts by the negated key.
 */
module StableSort {
  import Seqs

  /** Keys never decrease from left to right. */
  ghost predicate SortedBy<T>(s: seq<T>, key: T -> real) {
    forall i, j :: 0 <= i < j < |s| ==> key(s[i]) <= key(s[j])
  }

  /** The elements of `s` whose key is `k`, in their order in `s`. */
  ghost function WithKey<T>(s: seq<T>, key: T -> real, k: real): seq<T> {
    Seqs.Filter(s, KeyEquals(key, k))
  }

  /** The test "has key `k`". */
  ghost function KeyEquals<T>(key: T -> real, k: real): T -> bool {
    x => key(x) == k
  }

  /** Places `x` in front of the first element whose key is not smaller. */
  function Insert<T>(x: T, s: seq<T>, key: T -> real): seq<T> {
    if s == [] then [x]
    else if key(x) <= key(s[0]) then [x] + s
    else [s[0]] + Insert(x, s[1..], key)
  }

  /** Insertion sort; an element is inserted in front of the equal keys that came after it. */
  function Sort<T>(s: seq<T>, key: T -> real): seq<T> {
    if s == [] then [] else Insert(s[0], Sort(s[1..], key), key)
  }

  lemma {:induction false} InsertSorted<T>(x: T, s: seq<T>, key: T -> real)
    requires SortedBy(s, key)
    ensures SortedBy(Insert(x, s, key), key)
    ensures |Insert(x, s, key)| == |s| + 1
    ensures Insert(x, s, key)[0] == x || Insert(x, s, key)[0] == s[0]
  {
    if s != [] && key(s[0]) < key(x) {
      var rest := Insert(x, s[1..], key);
      InsertSorted(x, s[1..], key);
      var r := [s[0]] + rest;
      forall i, j | 0 <= i < j < |r| ensures key(r[i]) <= key(r[j]) {
        if i == 0 {
          assert key(r[0]) <= key(rest[0]);
          if j > 1 {
            assert key(rest[0]) <= key(rest[j - 1]);
          }
        } else {
          assert r[i] == rest[i - 1] && r[j] == rest[j - 1];
        }
      }
    }
  }

  lemma {:induction false} InsertMultiset<T>(x: T, s: seq<T>, key: T -> real)
    ensures multiset(Insert(x, s, key)) == multiset(s) + multiset{x}
  {
    if s != [] && key(s[0]) < key(x) {
      InsertMultiset(x, s[1..], key);
      assert s == [s[0]] + s[1..];
    }
  }

  lemma {:induction false} InsertWithKey<T>(x: T, s: seq<T>, key: T -> real, k: real)
    requires SortedBy(s, key)
    ensures WithKey(Insert(x, s, key), key, k)
            == (if key(x) == k then [x] else []) + WithKey(s, key, k)
  {
    if s == [] {
    } else if key(x) <= key(s[0]) {
      var r := [x] + s;
      assert r[1..] == s;
      assert WithKey(r, key, k) == (if key(x) == k then [x] else []) + WithKey(s, key, k);
    } else {
      var rest := Insert(x, s[1..], key);
      InsertWithKey(x, s[1..], key, k);
      var r := [s[0]] + rest;
      assert r[1..] == rest;
      assert WithKey(r, key, k) == (if key(s[0]) == k then [s[0]] else []) + WithKey(rest, key, k);
      assert WithKey(s, key, k) == (if key(s[0]) == k then [s[0]] else []) + WithKey(s[1..], key, k);
    }
  }

  /** The sort puts keys in order, keeps every element, and keeps equal keys in input order. */
  lemma {:induction false} SortFacts<T>(s: seq<T>, key: T -> real)
    ensures SortedBy(Sort(s, key), key)
    ensures multiset(Sort(s, key)) == multiset(s)
    ensures |Sort(s, key)| == |s|
    ensures forall k :: WithKey(Sort(s, key), key, k) == WithKey(s, key, k)
  {
    if s != [] {
      var t := Sort(s[1..], key);
      assert Sort(s, key) == Insert(s[0], t, key);
      SortFacts(s[1..], key);
      InsertSorted(s[0], t, key);
      InsertMultiset(s[0], t, key);
      assert s == [s[0]] + s[1..];
      forall k ensures WithKey(Sort(s, key), key, k) == WithKey(s, key, k) {
        InsertWithKey(s[0], t, key, k);
        assert WithKey(s, key, k) == (if key(s[0]) == k then [s[0]] else []) + WithKey(s[1..], key, k);
      }
    }
  }
}
