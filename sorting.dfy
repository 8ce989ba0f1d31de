/**
 * A stable sort by an integer-pair key, the model of Python's list.sort / sorted
 * with a tuple key. Stability is stated directly: for every key value, the
 * elements carrying that key appear in the output in their input order.
 */
module Sorting {

  /** Lexicographic order on key pairs, as Python compares tuples. */
  predicate KeyLe(a: (int, int), b: (int, int)) {
    a.0 < b.0 || (a.0 == b.0 && a.1 <= b.1)
  }

  predicate SortedBy<T>(s: seq<T>, key: T -> (int, int)) {
    forall i, j :: 0 <= i < j < |s| ==> KeyLe(key(s[i]), key(s[j]))
  }

  /** The elements of s whose key is v, in the order of s. */
  function WithKey<T>(s: seq<T>, key: T -> (int, int), v: (int, int)): seq<T> {
    if s == [] then [] else (if key(s[0]) == v then [s[0]] else []) + WithKey(s[1..], key, v)
  }

  /** Insert x before the first element whose key is not below x's key. */
  function Insert<T>(x: T, s: seq<T>, key: T -> (int, int)): seq<T> {
    if s == [] || KeyLe(key(x), key(s[0])) then [x] + s
    else [s[0]] + Insert(x, s[1..], key)
  }

  lemma {:induction false} InsertMultiset<T>(x: T, s: seq<T>, key: T -> (int, int))
    ensures multiset(Insert(x, s, key)) == multiset{x} + multiset(s)
  {
    if s != [] && !KeyLe(key(x), key(s[0])) {
      InsertMultiset(x, s[1..], key);
      assert s == [s[0]] + s[1..];
    }
  }

  /** s[0] is below every later element of a sorted s. */
  lemma HeadLe<T>(s: seq<T>, key: T -> (int, int), y: T)
    requires SortedBy(s, key) && s != [] && y in multiset(s[1..])
    ensures KeyLe(key(s[0]), key(y))
  {
    var k :| 0 <= k < |s[1..]| && s[1..][k] == y;
    assert s[k + 1] == y;
  }

  lemma {:induction false} InsertSorted<T>(x: T, s: seq<T>, key: T -> (int, int))
    requires SortedBy(s, key)
    ensures SortedBy(Insert(x, s, key), key)
  {
    var r := Insert(x, s, key);
    if s == [] || KeyLe(key(x), key(s[0])) {
      forall i, j | 0 <= i < j < |r|
        ensures KeyLe(key(r[i]), key(r[j]))
      {
        if i > 0 {
          assert r[i] == s[i - 1] && r[j] == s[j - 1];
        } else if j > 1 {
          assert r[j] == s[j - 1];
          assert KeyLe(key(s[0]), key(s[j - 1]));
        }
      }
    } else {
      var t := Insert(x, s[1..], key);
      InsertSorted(x, s[1..], key);
      InsertMultiset(x, s[1..], key);
      forall i, j | 0 <= i < j < |r|
        ensures KeyLe(key(r[i]), key(r[j]))
      {
        if i > 0 {
          assert r[i] == t[i - 1] && r[j] == t[j - 1];
        } else {
          assert r[j] == t[j - 1];
          assert r[j] in multiset(t);
          if r[j] != x {
            HeadLe(s, key, r[j]);
          }
        }
      }
    }
  }

  lemma WithKeyCons<T>(x: T, s: seq<T>, key: T -> (int, int), v: (int, int))
    ensures WithKey([x] + s, key, v) == (if key(x) == v then [x] else []) + WithKey(s, key, v)
  {
    assert ([x] + s)[1..] == s;
  }

  lemma {:induction false} InsertWithKey<T>(x: T, s: seq<T>, key: T -> (int, int), v: (int, int))
    ensures WithKey(Insert(x, s, key), key, v) ==
            (if key(x) == v then [x] else []) + WithKey(s, key, v)
  {
    if s == [] || KeyLe(key(x), key(s[0])) {
      WithKeyCons(x, s, key, v);
    } else {
      var t := Insert(x, s[1..], key);
      InsertWithKey(x, s[1..], key, v);
      WithKeyCons(s[0], t, key, v);
      WithKeyCons(s[0], s[1..], key, v);
      assert s == [s[0]] + s[1..];
      var hx := if key(x) == v then [x] else [];
      var h0 := if key(s[0]) == v then [s[0]] else [];
      assert h0 + (hx + WithKey(s[1..], key, v)) == hx + (h0 + WithKey(s[1..], key, v)) by {
        if key(x) == v && key(s[0]) == v {
          assert false;
        }
      }
    }
  }

  /** Insertion sort; stable because an element goes before the equal keys after it. */
  function SortBy<T>(s: seq<T>, key: T -> (int, int)): (r: seq<T>)
    ensures SortedBy(r, key)
    ensures multiset(r) == multiset(s)
    ensures forall v :: WithKey(r, key, v) == WithKey(s, key, v)
  {
    if s == [] then []
    else
      var t := SortBy(s[1..], key);
      InsertSorted(s[0], t, key);
      InsertMultiset(s[0], t, key);
      assert s == [s[0]] + s[1..];
      assert forall v :: WithKey(Insert(s[0], t, key), key, v) == WithKey(s, key, v) by {
        forall v
          ensures WithKey(Insert(s[0], t, key), key, v) == WithKey(s, key, v)
        {
          InsertWithKey(s[0], t, key, v);
        }
      }
      Insert(s[0], t, key)
  }

  /** Sorting a list that is already in key order leaves it as it is. */
  lemma {:induction false} SortSorted<T>(s: seq<T>, key: T -> (int, int))
    requires SortedBy(s, key)
    ensures SortBy(s, key) == s
  {
    if s != [] {
      assert SortedBy(s[1..], key);
      SortSorted(s[1..], key);
      assert s[1..] != [] ==> KeyLe(key(s[0]), key(s[1..][0]));
      assert s == [s[0]] + s[1..];
    }
  }
}
