/**
 * `Array.prototype.sort` with a comparator of the form `key(a) - key(b)`: the
 * language guarantees a stable sort, so the result is the input ordered by a
 * non-decreasing integer key, equal keys keeping their relative order. It is
 * written here as an insertion sort; the properties below are what the
 * callers rely on.
 */
module Sorting {

  /** The keys never decrease along `s`. */
  ghost predicate SortedBy<T>(s: seq<T>, key: T -> int)
  {
    forall i, j :: 0 <= i < j < |s| ==> key(s[i]) <= key(s[j])
  }

  /** The elements of `s` whose key is `k`, in their order in `s`. */
  function WithKey<T>(s: seq<T>, key: T -> int, k: int): seq<T>
  {
    if s == [] then []
    else (if key(s[0]) == k then [s[0]] else []) + WithKey(s[1..], key, k)
  }

  /** Puts `x` just before the first element whose key is at least its own. */
  function Insert<T>(x: T, s: seq<T>, key: T -> int): (r: seq<T>)
    ensures multiset(r) == multiset(s) + multiset{x}
  {
    if s == [] || key(x) <= key(s[0]) then [x] + s
    else
      assert s == [s[0]] + s[1..];
      [s[0]] + Insert(x, s[1..], key)
  }

  /** Inserting into a sorted list keeps it sorted. */
  lemma {:induction false} InsertSorted<T>(x: T, s: seq<T>, key: T -> int)
    requires SortedBy(s, key)
    ensures SortedBy(Insert(x, s, key), key)
  {
    if s != [] && key(s[0]) < key(x) {
      var rest := Insert(x, s[1..], key);
      assert SortedBy(s[1..], key);
      InsertSorted(x, s[1..], key);
      InsertBehindHead(x, s, rest, key);
    }
  }

  /** Putting the head of a sorted list in front of the sorted insertion into its tail keeps it sorted. */
  lemma InsertBehindHead<T>(x: T, s: seq<T>, rest: seq<T>, key: T -> int)
    requires s != [] && SortedBy(s, key) && key(s[0]) < key(x)
    requires multiset(rest) == multiset(s[1..]) + multiset{x} && SortedBy(rest, key)
    ensures SortedBy([s[0]] + rest, key)
  {
    HeadStaysFirst(x, s, rest, key);
    var t := [s[0]] + rest;
    forall i, j | 0 <= i < j < |t| ensures key(t[i]) <= key(t[j]) {
      if i == 0 {
        assert t[j] == rest[j - 1];
      } else {
        assert t[i] == rest[i - 1] && t[j] == rest[j - 1];
      }
    }
  }

  /** Inserting a later element behind the head of a sorted list leaves the head's key the smallest. */
  lemma HeadStaysFirst<T>(x: T, s: seq<T>, rest: seq<T>, key: T -> int)
    requires s != [] && SortedBy(s, key) && key(s[0]) < key(x)
    requires multiset(rest) == multiset(s[1..]) + multiset{x}
    ensures forall i :: 0 <= i < |rest| ==> key(s[0]) <= key(rest[i])
  {
    forall i | 0 <= i < |rest| ensures key(s[0]) <= key(rest[i]) {
      assert rest[i] in multiset(rest);
      if rest[i] != x {
        assert rest[i] in multiset(s[1..]);
        var j :| 0 <= j < |s[1..]| && s[1..][j] == rest[i];
        assert s[j + 1] == rest[i];
      }
    }
  }

  /** The stable sort of `s` by ascending key: a permutation of `s` whose keys never decrease. */
  function SortByKey<T>(s: seq<T>, key: T -> int): (r: seq<T>)
    ensures multiset(r) == multiset(s)
    ensures |r| == |s|
    ensures SortedBy(r, key)
  {
    if s == [] then []
    else
      assert s == [s[0]] + s[1..];
      InsertSorted(s[0], SortByKey(s[1..], key), key);
      Insert(s[0], SortByKey(s[1..], key), key)
  }

  /** Sorting two elements swaps them exactly when the second has the smaller key. */
  lemma SortTwo<T>(a: T, b: T, key: T -> int)
    ensures SortByKey([a, b], key) == if key(b) < key(a) then [b, a] else [a, b]
  {
    assert [a, b][1..] == [b];
    assert SortByKey([b], key) == [b];
  }

  lemma {:induction false} WithKeyAppend<T>(a: seq<T>, b: seq<T>, key: T -> int, k: int)
    ensures WithKey(a + b, key, k) == WithKey(a, key, k) + WithKey(b, key, k)
  {
    if a == [] {
      assert a + b == b;
    } else {
      WithKeyAppend(a[1..], b, key, k);
      assert (a + b)[1..] == a[1..] + b;
      assert (a + b)[0] == a[0];
      var head := if key(a[0]) == k then [a[0]] else [];
      Assoc(head, WithKey(a[1..], key, k), WithKey(b, key, k));
    }
  }

  lemma Assoc<T>(x: seq<T>, y: seq<T>, z: seq<T>)
    ensures x + y + z == x + (y + z)
  {
  }

  lemma {:induction false} InsertWithKey<T>(x: T, s: seq<T>, key: T -> int, k: int)
    ensures WithKey(Insert(x, s, key), key, k)
            == if key(x) == k then [x] + WithKey(s, key, k) else WithKey(s, key, k)
  {
    if s == [] || key(x) <= key(s[0]) {
      assert ([x] + s)[1..] == s;
    } else {
      InsertWithKey(x, s[1..], key, k);
      var r := Insert(x, s, key);
      assert r[1..] == Insert(x, s[1..], key);
    }
  }

  /** Stability: for every key, the elements carrying it appear in the same order before and after sorting. */
  lemma {:induction false} SortByKeyStable<T>(s: seq<T>, key: T -> int, k: int)
    ensures WithKey(SortByKey(s, key), key, k) == WithKey(s, key, k)
  {
    if s != [] {
      SortByKeyStable(s[1..], key, k);
      InsertWithKey(s[0], SortByKey(s[1..], key), key, k);
    }
  }

  /** A list whose keys already never decrease is left exactly as it is. */
  lemma {:induction false} SortByKeyOfSorted<T>(s: seq<T>, key: T -> int)
    requires SortedBy(s, key)
    ensures SortByKey(s, key) == s
  {
    if s != [] {
      assert SortedBy(s[1..], key);
      SortByKeyOfSorted(s[1..], key);
    }
  }

  /** Two lists that agree element-wise on which elements carry each key and are both sorted are equal: the stable sort is the only sorted rearrangement that keeps every key's order. */
  lemma {:induction false} SortedUnique<T>(r: seq<T>, q: seq<T>, key: T -> int)
    requires SortedBy(r, key) && SortedBy(q, key)
    requires forall k :: WithKey(r, key, k) == WithKey(q, key, k)
    ensures r == q
    decreases |r| + |q|
  {
    BothEmptyOrNot(r, q, key);
    if r != [] {
      HeadKeysMatch(r, q, key);
      SameHead(r, q, key);
      TailsAgree(r, q, key);
      assert SortedBy(r[1..], key) && SortedBy(q[1..], key);
      SortedUnique(r[1..], q[1..], key);
      assert r == [r[0]] + r[1..] && q == [q[0]] + q[1..];
    }
  }

  /** Two lists that agree on every key are both empty or both not. */
  lemma BothEmptyOrNot<T>(r: seq<T>, q: seq<T>, key: T -> int)
    requires forall k :: WithKey(r, key, k) == WithKey(q, key, k)
    ensures r == [] <==> q == []
  {
    if r != [] {
      WithKeyHead(r, key);
      assert WithKey(q, key, key(r[0])) != [];
    }
    if q != [] {
      WithKeyHead(q, key);
      assert WithKey(r, key, key(q[0])) != [];
    }
  }

  /** Two sorted lists that agree on every key start with the same key. */
  lemma HeadKeysMatch<T>(r: seq<T>, q: seq<T>, key: T -> int)
    requires SortedBy(r, key) && SortedBy(q, key) && r != [] && q != []
    requires forall k :: WithKey(r, key, k) == WithKey(q, key, k)
    ensures key(r[0]) == key(q[0])
  {
    WithKeyHead(r, key);
    WithKeyHead(q, key);
    if key(r[0]) < key(q[0]) {
      WithKeyAllAbove(q, key, key(r[0]));
      assert false;
    } else if key(q[0]) < key(r[0]) {
      WithKeyAllAbove(r, key, key(q[0]));
      assert false;
    }
  }

  /** Two lists whose heads share a key and that agree on that key start with the same element. */
  lemma SameHead<T>(r: seq<T>, q: seq<T>, key: T -> int)
    requires r != [] && q != [] && key(r[0]) == key(q[0])
    requires WithKey(r, key, key(r[0])) == WithKey(q, key, key(r[0]))
    ensures r[0] == q[0]
  {
    WithKeyHead(r, key);
    WithKeyHead(q, key);
    assert WithKey(r, key, key(r[0]))[0] == r[0];
  }

  /** Two lists with the same head that agree on every key agree on every key after the head. */
  lemma TailsAgree<T>(r: seq<T>, q: seq<T>, key: T -> int)
    requires r != [] && q != [] && r[0] == q[0]
    requires forall k :: WithKey(r, key, k) == WithKey(q, key, k)
    ensures forall k :: WithKey(r[1..], key, k) == WithKey(q[1..], key, k)
  {
    WithKeyHead(r, key);
    WithKeyHead(q, key);
    forall k ensures WithKey(r[1..], key, k) == WithKey(q[1..], key, k) {
      assert WithKey(r, key, k) == WithKey(q, key, k);
      if k == key(r[0]) {
        var x, y := WithKey(r[1..], key, k), WithKey(q[1..], key, k);
        assert [r[0]] + x == [r[0]] + y;
        assert ([r[0]] + x)[1..] == x && ([r[0]] + y)[1..] == y;
      }
    }
  }

  lemma WithKeyHead<T>(s: seq<T>, key: T -> int)
    requires s != []
    ensures WithKey(s, key, key(s[0])) == [s[0]] + WithKey(s[1..], key, key(s[0]))
    ensures forall k :: k != key(s[0]) ==> WithKey(s, key, k) == WithKey(s[1..], key, k)
  {
  }

  /** In a sorted list, no element carries a key below the first element's. */
  lemma {:induction false} WithKeyAllAbove<T>(s: seq<T>, key: T -> int, k: int)
    requires SortedBy(s, key)
    requires s != [] && k < key(s[0])
    ensures WithKey(s, key, k) == []
    decreases |s|
  {
    if |s| > 1 {
      assert SortedBy(s[1..], key);
      WithKeyAllAbove(s[1..], key, k);
    }
  }
}
