/**
 * Python's `list.sort(key=..., reverse=True)`: a stable sort on a real-valued
 * key, largest key first. Stability is stated as "for every key value, the
 * entries carrying that value keep their relative order", which together with
 * the ordering determines the result uniquely.
 */
module StableSort {

  /** The entries of `s` whose key is exactly `v`, in their order in `s`. */
  function WithKey<T>(s: seq<T>, key: T -> real, v: real): seq<T>
  {
    if s == [] then []
    else (if key(s[0]) == v then [s[0]] else []) + WithKey(s[1..], key, v)
  }

  /** Selecting by key distributes over concatenation. */
  lemma {:induction false} WithKeyConcat<T>(a: seq<T>, b: seq<T>, key: T -> real, v: real)
    ensures WithKey(a + b, key, v) == WithKey(a, key, v) + WithKey(b, key, v)
  {
    if a != [] {
      assert (a + b)[1..] == a[1..] + b;
      WithKeyConcat(a[1..], b, key, v);
    } else {
      assert a + b == b;
    }
  }

  /** Keys never increase from left to right. */
  predicate NonIncreasing<T>(s: seq<T>, key: T -> real)
  {
    forall i, j :: 0 <= i < j < |s| ==> key(s[i]) >= key(s[j])
  }

  /**
   * Inserts `x` in front of the first entry whose key is not larger than its
   * own, so that `x` precedes the entries with an equal key.
   */
  function Insert<T>(x: T, s: seq<T>, key: T -> real): (r: seq<T>)
    requires NonIncreasing(s, key)
    ensures NonIncreasing(r, key)
    ensures |r| == |s| + 1
    ensures forall y :: y in r ==> y == x || y in s
  {
    if s == [] || key(s[0]) <= key(x) then
      [x] + s
    else
      var t := Insert(x, s[1..], key);
      assert forall y :: y in t ==> key(y) <= key(s[0]);
      [s[0]] + t
  }

  /** Insertion adds exactly one occurrence of `x`. */
  lemma {:induction false} InsertPermutes<T>(x: T, s: seq<T>, key: T -> real)
    requires NonIncreasing(s, key)
    ensures multiset(Insert(x, s, key)) == multiset(s) + multiset{x}
  {
    if s != [] && key(s[0]) > key(x) {
      InsertPermutes(x, s[1..], key);
      assert s == [s[0]] + s[1..];
    }
  }

  /** Inserting `x` adds it at the front of the entries sharing its key. */
  lemma {:induction false} InsertWithKey<T>(x: T, s: seq<T>, key: T -> real, v: real)
    requires NonIncreasing(s, key)
    ensures WithKey(Insert(x, s, key), key, v) == (if key(x) == v then [x] else []) + WithKey(s, key, v)
  {
    var X := if key(x) == v then [x] else [];
    if s == [] || key(s[0]) <= key(x) {
      assert ([x] + s)[1..] == s;
    } else {
      var t := Insert(x, s[1..], key);
      var A := if key(s[0]) == v then [s[0]] else [];
      assert ([s[0]] + t)[1..] == t;
      InsertWithKey(x, s[1..], key, v);
      assert A == [] || X == [];
      calc {
        WithKey(Insert(x, s, key), key, v);
        WithKey([s[0]] + t, key, v);
        A + WithKey(t, key, v);
        A + (X + WithKey(s[1..], key, v));
        X + (A + WithKey(s[1..], key, v));
        X + WithKey(s, key, v);
      }
    }
  }

  /** Stable sort, largest key first. */
  function SortDescending<T>(s: seq<T>, key: T -> real): (r: seq<T>)
    ensures NonIncreasing(r, key)
    ensures multiset(r) == multiset(s)
    ensures |r| == |s|
  {
    if s == [] then []
    else
      var t := SortDescending(s[1..], key);
      InsertPermutes(s[0], t, key);
      assert s == [s[0]] + s[1..];
      Insert(s[0], t, key)
  }

  /** The sort is stable: entries with equal keys keep their input order. */
  lemma {:induction false} SortDescendingStable<T>(s: seq<T>, key: T -> real, v: real)
    ensures WithKey(SortDescending(s, key), key, v) == WithKey(s, key, v)
  {
    if s != [] {
      SortDescendingStable(s[1..], key, v);
      InsertWithKey(s[0], SortDescending(s[1..], key), key, v);
      WithKeyConcat([s[0]], s[1..], key, v);
      assert s == [s[0]] + s[1..];
    }
  }
}
