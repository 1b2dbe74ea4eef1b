/**
 * Counting and locating repeated values inside a window [lo, hi) of a
 * sequence.  The keyed list reconciler treats equal items as
 * interchangeable and pairs the r-th old occurrence of a value with its r-th
 * new occurrence; these functions give that pairing a definition that does
 * not mention the reconciler's hash map or its chain of "next occurrence"
 * links.
 */
module Occurrences {

  /** Number of positions in [lo, hi) of `s` that hold `v`. */
  function CountIn<T(==)>(s: seq<T>, lo: nat, hi: nat, v: T): (c: nat)
    requires lo <= hi <= |s|
    ensures c <= hi - lo
    decreases hi - lo
  {
    if lo == hi then 0
    else CountIn(s, lo, hi - 1, v) + (if s[hi - 1] == v then 1 else 0)
  }

  /** Splitting a window at `mid` splits its count. */
  lemma {:induction false} CountSplit<T>(s: seq<T>, lo: nat, mid: nat, hi: nat, v: T)
    requires lo <= mid <= hi <= |s|
    ensures CountIn(s, lo, hi, v) == CountIn(s, lo, mid, v) + CountIn(s, mid, hi, v)
    decreases hi - mid
  {
    if mid < hi {
      CountSplit(s, lo, mid, hi - 1, v);
    }
  }

  /** A window in which `v` does not occur counts zero of it. */
  lemma {:induction false} CountAbsent<T>(s: seq<T>, lo: nat, hi: nat, v: T)
    requires lo <= hi <= |s|
    requires forall k :: lo <= k < hi ==> s[k] != v
    ensures CountIn(s, lo, hi, v) == 0
    decreases hi - lo
  {
    if lo < hi {
      CountAbsent(s, lo, hi - 1, v);
    }
  }

  /** A window in which `v` occurs counts at least one of it. */
  lemma {:induction false} CountPresent<T>(s: seq<T>, lo: nat, hi: nat, k: nat, v: T)
    requires lo <= k < hi <= |s| && s[k] == v
    ensures CountIn(s, lo, hi, v) >= 1
  {
    CountSplit(s, lo, k + 1, hi, v);
  }

  /**
   * The rank of an occurrence (how many equal values precede it in the
   * window) is below the count of every longer prefix of the window.
   */
  lemma {:induction false} RankIncreasing<T>(s: seq<T>, lo: nat, j: nat, k: nat, v: T)
    requires lo <= j < k <= |s| && s[j] == v
    ensures CountIn(s, lo, j, v) < CountIn(s, lo, k, v)
  {
    CountSplit(s, lo, j, k, v);
    CountPresent(s, j, k, j, v);
  }

  /**
   * Position in [lo, hi) of the occurrence of `v` that has exactly `r` equal
   * values before it in the window (the (r+1)-th occurrence), or -1 when
   * the window holds at most `r` of them.
   */
  function NthIn<T(==)>(s: seq<T>, lo: nat, hi: nat, v: T, r: nat): (k: int)
    requires lo <= hi <= |s|
    ensures k == -1 || (lo <= k < hi && s[k] == v)
    decreases hi - lo
  {
    if lo == hi then -1
    else
      var k := NthIn(s, lo, hi - 1, v, r);
      if k >= 0 then k
      else if s[hi - 1] == v && CountIn(s, lo, hi - 1, v) == r then hi - 1
      else -1
  }

  /** The occurrence NthIn finds has rank `r`; when it finds none, `v` occurs at most `r` times. */
  lemma {:induction false} NthInRank<T>(s: seq<T>, lo: nat, hi: nat, v: T, r: nat)
    requires lo <= hi <= |s|
    ensures var k := NthIn(s, lo, hi, v, r);
            && (k >= 0 ==> CountIn(s, lo, k, v) == r)
            && (k < 0 ==> CountIn(s, lo, hi, v) <= r)
    decreases hi - lo
  {
    if lo < hi {
      NthInRank(s, lo, hi - 1, v, r);
    }
  }

  /** The occurrence with rank `r`, when it exists, is the one NthIn finds. */
  lemma {:induction false} NthInUnique<T>(s: seq<T>, lo: nat, hi: nat, v: T, r: nat, k: nat)
    requires lo <= k < hi <= |s| && s[k] == v && CountIn(s, lo, k, v) == r
    ensures NthIn(s, lo, hi, v, r) == k
  {
    var k' := NthIn(s, lo, hi, v, r);
    NthInRank(s, lo, hi, v, r);
    RankIncreasing(s, lo, k, hi, v);
    if 0 <= k' < k {
      RankIncreasing(s, lo, k', k, v);
    } else if k < k' {
      RankIncreasing(s, lo, k, k', v);
    }
  }

  /** The leftmost occurrence of `v` in the window has rank 0. */
  lemma {:induction false} FirstOccurrence<T>(s: seq<T>, lo: nat, hi: nat, v: T, k: nat)
    requires lo <= k < hi <= |s| && s[k] == v
    requires forall m :: lo <= m < k ==> s[m] != v
    ensures NthIn(s, lo, hi, v, 0) == k
  {
    CountAbsent(s, lo, k, v);
    NthInUnique(s, lo, hi, v, 0, k);
  }

  /** The nearest later occurrence of `s[j]` has the rank just above that of `j`. */
  lemma {:induction false} NextOccurrence<T>(s: seq<T>, lo: nat, hi: nat, j: nat, k: nat)
    requires lo <= j < k < hi <= |s| && s[k] == s[j]
    requires forall m :: j < m < k ==> s[m] != s[j]
    ensures NthIn(s, lo, hi, s[j], CountIn(s, lo, j, s[j]) + 1) == k
  {
    var v := s[j];
    CountSplit(s, lo, j + 1, k, v);
    CountAbsent(s, j + 1, k, v);
    NthInUnique(s, lo, hi, v, CountIn(s, lo, j, v) + 1, k);
  }

  /** When `s[j]` does not occur again in the window, there is no occurrence of the next rank. */
  lemma {:induction false} LastOccurrence<T>(s: seq<T>, lo: nat, hi: nat, j: nat)
    requires lo <= j < hi <= |s|
    requires forall m :: j < m < hi ==> s[m] != s[j]
    ensures NthIn(s, lo, hi, s[j], CountIn(s, lo, j, s[j]) + 1) == -1
  {
    var v := s[j];
    var k := NthIn(s, lo, hi, v, CountIn(s, lo, j, v) + 1);
    NthInRank(s, lo, hi, v, CountIn(s, lo, j, v) + 1);
    if 0 <= k < j {
      RankIncreasing(s, lo, k, j, v);
    }
  }

  /** Once the occurrences of `v` are used up, every higher rank is missing too. */
  lemma {:induction false} NoHigherRank<T>(s: seq<T>, lo: nat, hi: nat, v: T, r: nat)
    requires lo <= hi <= |s| && NthIn(s, lo, hi, v, r) < 0
    ensures NthIn(s, lo, hi, v, r + 1) < 0
  {
    var k := NthIn(s, lo, hi, v, r + 1);
    NthInRank(s, lo, hi, v, r);
    NthInRank(s, lo, hi, v, r + 1);
    if k >= 0 {
      RankIncreasing(s, lo, k, hi, v);
    }
  }
}
