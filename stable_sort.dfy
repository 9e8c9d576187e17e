/**
 * Python's `sorted(xs, key=k)` and `list.sort(key=k)`: a stable sort by an
 * integer key. "Stable" means that elements with equal keys keep their
 * original relative order; Python guarantees this also with `reverse=True`,
 * which is the same as a stable ascending sort on the negated key.
 */
module StableSort {

  ghost predicate SortedBy<T>(s: seq<T>, key: T -> int) {
    forall i, j :: 0 <= i < j < |s| ==> key(s[i]) <= key(s[j])
  }

  /** The elements of `s` whose key is `c`, in their order in `s`. */
  function KeyFilter<T>(s: seq<T>, key: T -> int, c: int): seq<T> {
    if s == [] then [] else (if key(s[0]) == c then [s[0]] else []) + KeyFilter(s[1..], key, c)
  }

  /** `r` keeps, for every key value, the relative order that `s` had. */
  ghost predicate StableWrt<T>(r: seq<T>, s: seq<T>, key: T -> int) {
    forall c :: KeyFilter(r, key, c) == KeyFilter(s, key, c)
  }

  /** Puts `x` in front of the first element of `t` whose key is not smaller. */
  function Insert<T>(x: T, t: seq<T>, key: T -> int): (r: seq<T>)
    ensures multiset(r) == multiset(t) + multiset{x}
    ensures |r| == |t| + 1
  {
    if t == [] || key(x) <= key(t[0]) then [x] + t
    else
      assert t == [t[0]] + t[1..];
      [t[0]] + Insert(x, t[1..], key)
  }

  lemma {:induction false} InsertSorted<T>(x: T, t: seq<T>, key: T -> int)
    requires SortedBy(t, key)
    ensures SortedBy(Insert(x, t, key), key)
  {
    if t != [] && key(x) > key(t[0]) {
      var rest := Insert(x, t[1..], key);
      InsertSorted(x, t[1..], key);
      forall j | 0 <= j < |rest| ensures key(t[0]) <= key(rest[j]) {
        assert rest[j] in multiset(rest);
        if rest[j] != x {
          assert rest[j] in multiset(t[1..]);
          var k :| 0 <= k < |t[1..]| && t[1..][k] == rest[j];
          assert t[k + 1] == rest[j];
        }
      }
      var r := [t[0]] + rest;
      forall i, j | 0 <= i < j < |r| ensures key(r[i]) <= key(r[j]) {
        if i > 0 {
          assert r[i] == rest[i - 1] && r[j] == rest[j - 1];
        } else {
          assert r[j] == rest[j - 1];
        }
      }
    }
  }

  lemma {:induction false} InsertKeyFilter<T>(x: T, t: seq<T>, key: T -> int, c: int)
    ensures KeyFilter(Insert(x, t, key), key, c) == (if key(x) == c then [x] else []) + KeyFilter(t, key, c)
  {
    var hx := if key(x) == c then [x] else [];
    if t == [] || key(x) <= key(t[0]) {
      assert ([x] + t)[1..] == t;
    } else {
      var rest := Insert(x, t[1..], key);
      var h0 := if key(t[0]) == c then [t[0]] else [];
      var f := KeyFilter(t[1..], key, c);
      assert KeyFilter(Insert(x, t, key), key, c) == h0 + KeyFilter(rest, key, c) by {
        var r := [t[0]] + rest;
        assert Insert(x, t, key) == r;
        assert r[1..] == rest;
      }
      assert KeyFilter(rest, key, c) == hx + f by {
        InsertKeyFilter(x, t[1..], key, c);
      }
      assert h0 + (hx + f) == hx + (h0 + f) by {
        if h0 != [] {
          assert key(x) != c;
        }
      }
    }
  }

  /** Stable sort by ascending key (insertion sort). */
  function SortBy<T>(s: seq<T>, key: T -> int): (r: seq<T>)
    ensures multiset(r) == multiset(s) && |r| == |s|
  {
    if s == [] then []
    else
      assert s == [s[0]] + s[1..];
      Insert(s[0], SortBy(s[1..], key), key)
  }

  lemma {:induction false} SortBySorted<T>(s: seq<T>, key: T -> int)
    ensures SortedBy(SortBy(s, key), key)
  {
    if s != [] {
      SortBySorted(s[1..], key);
      InsertSorted(s[0], SortBy(s[1..], key), key);
    }
  }

  /** The sort is stable: ties keep the order they had in the input. */
  lemma {:induction false} SortByStable<T>(s: seq<T>, key: T -> int)
    ensures StableWrt(SortBy(s, key), s, key)
  {
    if s != [] {
      SortByStable(s[1..], key);
      forall c ensures KeyFilter(SortBy(s, key), key, c) == KeyFilter(s, key, c) {
        InsertKeyFilter(s[0], SortBy(s[1..], key), key, c);
      }
    }
  }

  /** Taking a prefix keeps, per key, a prefix of the same elements. */
  lemma {:induction false} KeyFilterPrefix<T>(s: seq<T>, n: nat, key: T -> int, c: int)
    requires n <= |s|
    ensures KeyFilter(s[..n], key, c) <= KeyFilter(s, key, c)
  {
    if n > 0 {
      KeyFilterPrefix(s[1..], n - 1, key, c);
      assert s[..n][1..] == s[1..][..n - 1];
    }
  }
}
