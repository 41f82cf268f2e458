/** Python's `list.sort(key=...)`: a stable sort by a numeric key. The model
    is an insertion sort; `StableSortUnique` shows that any stable sort gives
    the same list, so the choice of algorithm does not matter. A sort with
    `reverse=True` is still stable and is the ascending sort by the negated
    key. */
module Sorting {
  import opened Seqs

  /** Puts `x` in front of the first element whose key is not smaller than
      its own: ahead of every element with an equal key, which came later in
      the input. */
  function Insert<T>(x: T, s: seq<T>, key: T -> real): (r: seq<T>)
    ensures multiset(r) == multiset(s) + multiset{x}
    ensures |r| == |s| + 1
  {
    if s == [] || key(x) <= key(s[0]) then [x] + s
    else
      assert s == [s[0]] + s[1..];
      [s[0]] + Insert(x, s[1..], key)
  }

  /** `sorted(s, key=key)` */
  function SortBy<T>(s: seq<T>, key: T -> real): seq<T>
  {
    if s == [] then [] else Insert(s[0], SortBy(s[1..], key), key)
  }

  ghost predicate SortedBy<T>(s: seq<T>, key: T -> real)
  {
    forall i, j :: 0 <= i < j < |s| ==> key(s[i]) <= key(s[j])
  }

  /** The elements of `s` whose key is `v`, in their order in `s`. */
  function WithKey<T>(s: seq<T>, key: T -> real, v: real): seq<T>
  {
    if s == [] then [] else (if key(s[0]) == v then [s[0]] else []) + WithKey(s[1..], key, v)
  }

  lemma {:induction false} InsertSorted<T>(x: T, s: seq<T>, key: T -> real)
    requires SortedBy(s, key)
    ensures SortedBy(Insert(x, s, key), key)
  {
    if s != [] && key(x) > key(s[0]) {
      var t := Insert(x, s[1..], key);
      InsertSorted(x, s[1..], key);
      forall y | y in t ensures key(s[0]) <= key(y) {
        assert y in multiset(t);
        if y != x {
          assert y in multiset(s[1..]);
          var j :| 0 <= j < |s[1..]| && s[1..][j] == y;
          assert s[j + 1] == y;
        }
      }
      forall i, j | 0 <= i < j < |[s[0]] + t| ensures key(([s[0]] + t)[i]) <= key(([s[0]] + t)[j]) {
        if i == 0 {
          assert ([s[0]] + t)[j] in t;
        }
      }
    }
  }

  /** The sort puts keys in non-decreasing order. */
  lemma {:induction false} SortIsSorted<T>(s: seq<T>, key: T -> real)
    ensures SortedBy(SortBy(s, key), key)
  {
    if s != [] {
      SortIsSorted(s[1..], key);
      InsertSorted(s[0], SortBy(s[1..], key), key);
    }
  }

  /** The sort neither loses nor duplicates an element. */
  lemma {:induction false} SortIsPermutation<T>(s: seq<T>, key: T -> real)
    ensures multiset(SortBy(s, key)) == multiset(s)
    ensures |SortBy(s, key)| == |s|
  {
    if s != [] {
      SortIsPermutation(s[1..], key);
      assert s == [s[0]] + s[1..];
    }
  }

  lemma {:induction false} InsertStable<T>(x: T, s: seq<T>, key: T -> real, v: real)
    ensures WithKey(Insert(x, s, key), key, v) == (if key(x) == v then [x] else []) + WithKey(s, key, v)
  {
    if s == [] || key(x) <= key(s[0]) {
      assert ([x] + s)[1..] == s;
    } else {
      var t := Insert(x, s[1..], key);
      var r := [s[0]] + t;
      assert r[0] == s[0] && r[1..] == t;
      assert WithKey(r, key, v) == (if key(s[0]) == v then [s[0]] else []) + WithKey(t, key, v);
      InsertStable(x, s[1..], key, v);
      assert WithKey(s, key, v) == (if key(s[0]) == v then [s[0]] else []) + WithKey(s[1..], key, v);
    }
  }

  /** Stability: the elements sharing any one key keep their input order. */
  lemma {:induction false} SortIsStable<T>(s: seq<T>, key: T -> real, v: real)
    ensures WithKey(SortBy(s, key), key, v) == WithKey(s, key, v)
  {
    if s != [] {
      SortIsStable(s[1..], key, v);
      InsertStable(s[0], SortBy(s[1..], key), key, v);
    }
  }

  lemma {:induction false} WithKeyHead<T>(s: seq<T>, key: T -> real)
    requires s != []
    ensures WithKey(s, key, key(s[0])) != [] && WithKey(s, key, key(s[0]))[0] == s[0]
  {
  }

  lemma {:induction false} WithKeyMember<T>(s: seq<T>, key: T -> real, v: real, i: nat)
    requires i < |s| && key(s[i]) == v
    ensures WithKey(s, key, v) != []
  {
    if i > 0 {
      WithKeyMember(s[1..], key, v, i - 1);
    }
  }

  lemma {:induction false} WithKeyBound<T>(s: seq<T>, key: T -> real, v: real)
    requires WithKey(s, key, v) != []
    ensures exists i :: 0 <= i < |s| && key(s[i]) == v
  {
    if key(s[0]) != v {
      WithKeyBound(s[1..], key, v);
      var i :| 0 <= i < |s[1..]| && key(s[1..][i]) == v;
      assert key(s[i + 1]) == v;
    }
  }

  /** Any two sorted lists that agree on the elements of every key, in order,
      are the same list: a stable sort has exactly one possible result. */
  lemma {:induction false} StableSortUnique<T>(a: seq<T>, b: seq<T>, key: T -> real)
    requires SortedBy(a, key) && SortedBy(b, key)
    requires forall v :: WithKey(a, key, v) == WithKey(b, key, v)
    ensures a == b
    decreases |a|
  {
    if a == [] {
      if b != [] {
        WithKeyHead(b, key);
      }
    } else if b == [] {
      WithKeyHead(a, key);
    } else {
      var m := key(a[0]);
      WithKeyHead(a, key);
      WithKeyHead(b, key);
      WithKeyBound(b, key, m);
      WithKeyBound(a, key, key(b[0]));
      assert key(b[0]) == m;
      assert a[0] == b[0];
      forall v ensures WithKey(a[1..], key, v) == WithKey(b[1..], key, v) {
        assert WithKey(a, key, v) == WithKey(b, key, v);
        assert WithKey(a, key, v) == (if key(a[0]) == v then [a[0]] else []) + WithKey(a[1..], key, v);
        assert WithKey(b, key, v) == (if key(b[0]) == v then [b[0]] else []) + WithKey(b[1..], key, v);
        if key(a[0]) == v {
          assert WithKey(a[1..], key, v) == WithKey(a, key, v)[1..];
          assert WithKey(b[1..], key, v) == WithKey(b, key, v)[1..];
        } else {
          assert [] + WithKey(a[1..], key, v) == WithKey(a[1..], key, v);
          assert [] + WithKey(b[1..], key, v) == WithKey(b[1..], key, v);
        }
      }
      StableSortUnique(a[1..], b[1..], key);
      assert a == [a[0]] + a[1..];
      assert b == [b[0]] + b[1..];
    }
  }

  lemma {:induction false} InsertKeepsDistinct<T, U>(x: T, s: seq<T>, key: T -> real, id: T -> U)
    requires forall i, j :: 0 <= i < j < |s| ==> id(s[i]) != id(s[j])
    requires forall i :: 0 <= i < |s| ==> id(s[i]) != id(x)
    ensures forall i, j :: 0 <= i < j < |Insert(x, s, key)| ==> id(Insert(x, s, key)[i]) != id(Insert(x, s, key)[j])
  {
    var r := Insert(x, s, key);
    if s == [] || key(x) <= key(s[0]) {
      forall i, j | 0 <= i < j < |r| ensures id(r[i]) != id(r[j]) {
        assert r[j] == s[j - 1];
        if i > 0 { assert r[i] == s[i - 1]; }
      }
    } else {
      var t := Insert(x, s[1..], key);
      InsertKeepsDistinct(x, s[1..], key, id);
      forall y | y in t ensures id(y) != id(s[0]) {
        assert y in multiset(t);
        if y != x {
          assert y in multiset(s[1..]);
          var j :| 0 <= j < |s[1..]| && s[1..][j] == y;
          assert s[j + 1] == y;
        }
      }
      forall i, j | 0 <= i < j < |r| ensures id(r[i]) != id(r[j]) {
        assert r[j] == t[j - 1];
        if i > 0 { assert r[i] == t[i - 1]; }
      }
    }
  }

  /** Elements that were told apart by `id` before the sort still are. */
  lemma {:induction false} SortKeepsDistinct<T, U>(s: seq<T>, key: T -> real, id: T -> U)
    requires forall i, j :: 0 <= i < j < |s| ==> id(s[i]) != id(s[j])
    ensures forall i, j :: 0 <= i < j < |SortBy(s, key)| ==> id(SortBy(s, key)[i]) != id(SortBy(s, key)[j])
  {
    if s != [] {
      SortKeepsDistinct(s[1..], key, id);
      SortIsPermutation(s[1..], key);
      var t := SortBy(s[1..], key);
      forall i | 0 <= i < |t| ensures id(t[i]) != id(s[0]) {
        assert t[i] in multiset(s[1..]);
        var j :| 0 <= j < |s[1..]| && s[1..][j] == t[i];
        assert s[j + 1] == t[i];
      }
      InsertKeepsDistinct(s[0], t, key, id);
    }
  }
}
