/**
 * Splitting a list by a test, keeping order: the loop of `broadcast_list`
 * that appends each group to the enabled or the disabled list.
 */
module Partition {
  import opened StableSort

  /**
   * The elements `x` of `s`, in order, with `keep(x) == want`; defined
   * from the end so that it follows a left-to-right loop.
   */
  function Select<T>(s: seq<T>, keep: T -> bool, want: bool): (r: seq<T>)
    ensures |r| <= |s|
  {
    if s == [] then []
    else
      var last := s[|s| - 1];
      Select(s[..|s| - 1], keep, want) + (if keep(last) == want then [last] else [])
  }

  /** One more element goes to the end of the side whose test it meets. */
  lemma SelectSnoc<T>(s: seq<T>, x: T, keep: T -> bool, want: bool)
    ensures Select(s + [x], keep, want) == Select(s, keep, want) + (if keep(x) == want then [x] else [])
  {
    assert (s + [x])[..|s|] == s;
  }

  /** `r` is `s` with some elements dropped and the rest in their order in `s`. */
  ghost predicate Subsequence<T>(r: seq<T>, s: seq<T>)
    decreases |s|
  {
    r == [] ||
    (s != [] &&
     ((r[|r| - 1] == s[|s| - 1] && Subsequence(r[..|r| - 1], s[..|s| - 1])) ||
      Subsequence(r, s[..|s| - 1])))
  }

  /** Each side holds only elements of the input that pass (or fail) the test. */
  lemma {:induction false} SelectMembers<T>(s: seq<T>, keep: T -> bool, want: bool)
    ensures forall x :: x in Select(s, keep, want) ==> x in s && keep(x) == want
  {
    if s != [] {
      var init := s[..|s| - 1];
      SelectMembers(init, keep, want);
      assert forall x :: x in init ==> x in s;
    }
  }

  /** The two sides split the input: every element lands in exactly one, as often as it occurs. */
  lemma {:induction false} SelectSplits<T>(s: seq<T>, keep: T -> bool)
    ensures multiset(Select(s, keep, true)) + multiset(Select(s, keep, false)) == multiset(s)
  {
    if s != [] {
      var init := s[..|s| - 1];
      var last := s[|s| - 1];
      SelectSplits(init, keep);
      assert s == init + [last];
    }
  }

  /** Each side lists its elements in the order they have in the input. */
  lemma {:induction false} SelectSubsequence<T>(s: seq<T>, keep: T -> bool, want: bool)
    ensures Subsequence(Select(s, keep, want), s)
  {
    if s != [] {
      var init := s[..|s| - 1];
      var p := Select(init, keep, want);
      SelectSubsequence(init, keep, want);
      var r := Select(s, keep, want);
      if keep(s[|s| - 1]) == want {
        assert r == p + [s[|s| - 1]];
        assert r[..|r| - 1] == p && s[..|s| - 1] == init;
      } else {
        assert r == p && s[..|s| - 1] == init;
      }
    }
  }

  /** A side selected from a sorted list is sorted. */
  lemma {:induction false} SelectSorted<T>(s: seq<T>, keep: T -> bool, want: bool, key: T -> int)
    requires SortedBy(s, key)
    ensures SortedBy(Select(s, keep, want), key)
  {
    if s != [] {
      var init := s[..|s| - 1];
      var last := s[|s| - 1];
      SelectSorted(init, keep, want, key);
      SelectMembers(init, keep, want);
      var r := Select(s, keep, want);
      var p := Select(init, keep, want);
      forall i, j | 0 <= i < j < |r| ensures key(r[i]) <= key(r[j]) {
        if j >= |p| {
          assert r[j] == last;
          assert r[i] == p[i] && p[i] in init;
          var m :| 0 <= m < |init| && init[m] == p[i];
          assert s[m] == p[i];
        } else {
          assert r[i] == p[i] && r[j] == p[j];
        }
      }
    }
  }
}
