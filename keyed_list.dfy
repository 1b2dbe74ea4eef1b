/**
 * The closure returned by `map_keyed` (maple-core/src/reactive/iter.rs:10-142)
 * as a class: it owns the previous `items`, the `mapped` outputs and their
 * `scopes`, and each call of `Update` reconciles them in place against the
 * new contents of the list signal.  The phases follow the source's own
 * comments; where the code does not do what those comments say, the class
 * does what they say and the comment on that phase names the difference.
 */
module KeyedList {
  import opened Options
  import opened Occurrences
  import opened KeyedSpec

  /** Rank-wise successor: the next occurrence of `s[j]` after `j` and before `hi`, or -1. */
  ghost function NextRank<T>(s: seq<T>, lo: nat, hi: nat, j: nat): int
    requires lo <= j < hi <= |s|
  {
    NthIn(s, lo, hi, s[j], CountIn(s, lo, j, s[j]) + 1)
  }

  /** `n` is the nearest position in `s[lo..hi]` holding `v`, with none before it. */
  ghost predicate FirstLink<T>(s: seq<T>, lo: int, hi: int, v: T, n: int)
    requires 0 <= lo <= hi <= |s|
  {
    lo <= n < hi && s[n] == v && forall k :: lo <= k < n ==> s[k] != v
  }

  /** `n` is the nearest later position in `s[..hi]` holding `s[j]`, or -1 when there is none. */
  ghost predicate NextLink<T>(s: seq<T>, hi: int, j: int, n: int)
    requires 0 <= j < hi <= |s|
  {
    || (n == -1 && forall k :: j < k < hi ==> s[k] != s[j])
    || (j < n < hi && s[n] == s[j] && forall k :: j < k < n ==> s[k] != s[j])
  }

  /**
   * Skip the common prefix (iter.rs:49-58).  The source follows the loop with
   * a debug assertion that indexes both lists at `start`; that index is out of
   * bounds when one list is a prefix of the other, so the model states the
   * intended property instead: `start` is the length of the longest common
   * prefix (see KeyedFindings.PrefixCheckOutOfBounds).
   */
  method SkipPrefix<T(==)>(items: seq<T>, newItems: seq<T>) returns (start: nat)
    ensures start == CommonPrefix(items, newItems)
  {
    start := 0;
    var end := if |items| < |newItems| then |items| else |newItems|;
    while start < end && items[start] == newItems[start]
      invariant start <= end && end <= |items| && end <= |newItems|
      invariant start <= CommonPrefix(items, newItems)
    {
      start := start + 1;
    }
    if start < CommonPrefix(items, newItems) {
      PrefixAgrees(items, newItems, start);
    }
  }

  /**
   * Build the index of the new middle range [start, newEnd) of `newItems`,
   * scanning backwards (iter.rs:75-86): `indices` maps each value to its first
   * middle position and `next[j]` links position `j` to the next position
   * holding the same value, -1 at the last one.  The source's bounds are
   * inclusive, and its guard `start < new_end` (iter.rs:79) compares with the
   * inclusive last index, so a new middle of one item is not indexed; here
   * `newEnd` is exclusive and every non-empty middle is indexed (see
   * KeyedFindings.IndexGuardSkipsOne).
   */
  method IndexMiddle<T(==)>(newItems: seq<T>, start: nat, newEnd: nat) returns (indices: map<T, int>, next: array<int>)
    requires start <= newEnd <= |newItems|
    ensures fresh(next) && next.Length == newEnd
    ensures forall v :: v in indices ==> indices[v] == NthIn(newItems, start, newEnd, v, 0)
    ensures forall j :: start <= j < newEnd ==> newItems[j] in indices
    ensures forall j :: start <= j < newEnd ==> next[j] == NextRank(newItems, start, newEnd, j)
  {
    indices := map[];
    next := new int[newEnd](_ => 0);
    var i := newEnd;
    if start < newEnd {
      while i > start
        invariant start <= i <= newEnd
        invariant forall v :: v in indices ==> FirstLink(newItems, i, newEnd, v, indices[v])
        invariant forall k :: i <= k < newEnd ==> newItems[k] in indices
        invariant forall j :: i <= j < newEnd ==> NextLink(newItems, newEnd, j, next[j])
      {
        i := i - 1;
        var item := newItems[i];
        next[i] := if item in indices then indices[item] else -1;
        indices := indices[item := i];
      }
    }
    IndexToRanks(newItems, start, newEnd, indices, next[..]);
  }

  /** The nearest-occurrence links of the backward scan, read as occurrence ranks. */
  lemma {:induction false} IndexToRanks<T>(newItems: seq<T>, start: nat, newEnd: nat, indices: map<T, int>, next: seq<int>)
    requires start <= newEnd <= |newItems| && |next| == newEnd
    requires forall v :: v in indices ==> FirstLink(newItems, start, newEnd, v, indices[v])
    requires forall j :: start <= j < newEnd ==> NextLink(newItems, newEnd, j, next[j])
    ensures forall v :: v in indices ==> indices[v] == NthIn(newItems, start, newEnd, v, 0)
    ensures forall j :: start <= j < newEnd ==> next[j] == NextRank(newItems, start, newEnd, j)
  {
    forall v | v in indices
      ensures indices[v] == NthIn(newItems, start, newEnd, v, 0)
    {
      FirstOccurrence(newItems, start, newEnd, v, indices[v]);
    }
    forall j | start <= j < newEnd
      ensures next[j] == NextRank(newItems, start, newEnd, j)
    {
      if next[j] == -1 {
        LastOccurrence(newItems, start, newEnd, j);
      } else {
        NextOccurrence(newItems, start, newEnd, j, next[j]);
      }
    }
  }

  /**
   * Write `x` at position `i`, or append it when `i` is the current length
   * (iter.rs:118-124).  The reuse branch at iter.rs:109-110 assigns by index
   * even when `i` is past the end; the model writes through Put on both
   * branches (see KeyedFindings.AssignPastEnd).
   */
  function Put<V>(s: seq<V>, i: nat, x: V): (r: seq<V>)
    requires i <= |s|
    ensures |r| == if i < |s| then |s| else i + 1
    ensures r[i] == x && forall k :: 0 <= k < |r| && k != i ==> r[k] == s[k]
    ensures r[..i + 1] == s[..i] + [x]
  {
    if i < |s| then s[i := x] else s + [x]
  }

  /** Slot `i` of the temporary arrays holds what the reference reconciliation reuses there, or nothing. */
  ghost predicate TempHolds<T, U>(prev: Baseline<T, U>, newItems: seq<T>, i: nat, t: Option<U>, ts: Option<Scope>)
    requires Aligned(prev) && i < |newItems|
  {
    match SourceOf(prev.items, newItems, i)
    case Some(k) => t == Some(prev.mapped[k]) && ts == prev.scopes[k]
    case None => t == None && ts == None
  }

  ghost predicate TempFilled<T, U>(prev: Baseline<T, U>, newItems: seq<T>, temp: array<Option<U>>, tempScopes: array<Option<Scope>>, lo: nat, hi: nat)
    requires Aligned(prev) && lo <= hi <= |newItems| && temp.Length == |newItems| && tempScopes.Length == |newItems|
    reads temp, tempScopes
  {
    forall i :: lo <= i < hi ==> TempHolds(prev, newItems, i, temp[i], tempScopes[i])
  }

  /** The old middle position that new middle position `j` reuses, once the old positions before `i` are matched. */
  ghost function Claimed<T>(items: seq<T>, newItems: seq<T>, start: nat, end: nat, j: nat, i: nat): Option<nat>
    requires start <= end <= |items| && start <= j < |newItems|
  {
    var k := MiddleSource(items, newItems, start, end, j);
    if k.Some? && k.value < i then k else None
  }

  /** A temporary slot holds the output and scope of old position `c`, or nothing. */
  ghost predicate ClaimHolds<U>(mapped: seq<U>, scopes: seq<Option<Scope>>, c: Option<nat>, t: Option<U>, ts: Option<Scope>)
  {
    match c
    case Some(k) => k < |mapped| && k < |scopes| && t == Some(mapped[k]) && ts == scopes[k]
    case None => t == None && ts == None
  }

  /** Matching old position `i` claims exactly the new middle position ClaimOf names. */
  lemma {:induction false} ClaimStep<T>(items: seq<T>, newItems: seq<T>, start: nat, end: nat, newEnd: nat, i: nat, j: nat)
    requires start <= i < end <= |items| && start <= j < newEnd <= |newItems|
    ensures Claimed(items, newItems, start, end, j, i + 1)
            == if ClaimOf(items, newItems, start, newEnd, i) == j then Some(i) else Claimed(items, newItems, start, end, j, i)
  {
    MiddleSourceInverse(items, newItems, start, end, newEnd, i, j);
  }

  /** One more agreeing pair extends the scanned suffix without passing the longest common suffix. */
  lemma {:induction false} SuffixGrow<T>(items: seq<T>, newItems: seq<T>, start: nat, t: nat)
    requires start + t < |items| && start + t < |newItems| && t <= CommonSuffix(items, newItems, start)
    requires items[|items| - t - 1] == newItems[|newItems| - t - 1]
    ensures t + 1 <= CommonSuffix(items, newItems, start)
  {
  }

  /** The suffix scan stops exactly at the longest common suffix. */
  lemma {:induction false} SuffixExit<T>(items: seq<T>, newItems: seq<T>, start: nat, t: nat)
    requires start + t <= |items| && start + t <= |newItems| && t <= CommonSuffix(items, newItems, start)
    requires || start == |items| - t || start == |newItems| - t
             || items[|items| - t - 1] != newItems[|newItems| - t - 1]
    ensures t == CommonSuffix(items, newItems, start)
  {
    if t < CommonSuffix(items, newItems, start) {
      SuffixAgrees(items, newItems, start, t + 1);
    }
  }

  /** The temporary slots before `hi` are still empty. */
  ghost predicate Unfilled<U>(temp: array<Option<U>>, tempScopes: array<Option<Scope>>, hi: nat)
    reads temp, tempScopes
  {
    hi <= temp.Length && hi <= tempScopes.Length && forall k :: 0 <= k < hi ==> temp[k] == None && tempScopes[k] == None
  }

  /**
   * The temporary slots from `newEnd` on hold, in order, the old outputs and
   * scopes of the same number of last old positions.
   */
  ghost predicate Moved<U>(mapped: seq<U>, scopes: seq<Option<Scope>>, temp: array<Option<U>>, tempScopes: array<Option<Scope>>, newEnd: nat)
    reads temp, tempScopes
  {
    && newEnd <= temp.Length && tempScopes.Length == temp.Length && temp.Length <= |mapped| + newEnd && |scopes| == |mapped|
    && forall k :: newEnd <= k < temp.Length ==>
         temp[k] == Some(mapped[k + |mapped| - temp.Length]) && tempScopes[k] == scopes[k + |mapped| - temp.Length]
  }

  /** What the suffix scan moved into the temporary arrays is what the reference reuses there. */
  lemma {:induction false} SuffixFilled<T, U>(prev: Baseline<T, U>, newItems: seq<T>, newEnd: nat,
                                              temp: array<Option<U>>, tempScopes: array<Option<Scope>>)
    requires Aligned(prev) && temp.Length == |newItems| && tempScopes.Length == |newItems|
    requires newEnd == |newItems| - CommonSuffix(prev.items, newItems, CommonPrefix(prev.items, newItems))
    requires Moved(prev.mapped, prev.scopes, temp, tempScopes, newEnd)
    ensures TempFilled(prev, newItems, temp, tempScopes, newEnd, |newItems|)
  {
    forall k | newEnd <= k < |newItems|
      ensures TempHolds(prev, newItems, k, temp[k], tempScopes[k])
    {
      SuffixSlot(prev, newItems, k, temp[k], tempScopes[k]);
    }
  }

  /** Inside the common suffix the reference reuses the slot at the same distance from the end. */
  lemma {:induction false} SuffixSlot<T, U>(prev: Baseline<T, U>, newItems: seq<T>, k: nat, t: Option<U>, ts: Option<Scope>)
    requires Aligned(prev)
    requires var p := CommonPrefix(prev.items, newItems);
             |newItems| - CommonSuffix(prev.items, newItems, p) <= k < |newItems|
    requires var j := k - |newItems| + |prev.items|;
             0 <= j < |prev.items| && t == Some(prev.mapped[j]) && ts == prev.scopes[j]
    ensures TempHolds(prev, newItems, k, t, ts)
  {
    SourceRegions(prev.items, newItems, k);
  }

  /**
   * After the old middle positions before `i` are matched, the index entry of
   * every value points at its new middle occurrence whose rank is the number
   * of equal old middle items matched so far, or is -1 when there is none;
   * every value of the new middle range is a key.
   */
  ghost predicate PointersAt<T>(pointers: map<T, int>, items: seq<T>, newItems: seq<T>, start: nat, newEnd: nat, i: nat)
    requires start <= i <= |items| && start <= newEnd <= |newItems|
  {
    && (forall v :: v in pointers ==> pointers[v] == NthIn(newItems, start, newEnd, v, CountIn(items, start, i, v)))
    && (forall j :: start <= j < newEnd ==> newItems[j] in pointers)
  }

  /** Every new middle slot holds what the old middle positions before `i` have moved into it. */
  ghost predicate ClaimsHeld<T, U>(prevMapped: seq<U>, prevScopes: seq<Option<Scope>>, temp: array<Option<U>>, tempScopes: array<Option<Scope>>,
                                   items: seq<T>, newItems: seq<T>, start: nat, end: nat, newEnd: nat, i: nat)
    requires start <= end <= |items| && newEnd <= |newItems| && newEnd <= temp.Length && newEnd <= tempScopes.Length
    reads temp, tempScopes
  {
    forall j :: start <= j < newEnd ==>
      ClaimHolds(prevMapped, prevScopes, Claimed(items, newItems, start, end, j, i), temp[j], tempScopes[j])
  }

  /** The old middle positions before `i` that no new occurrence claimed have lost their scopes; nothing else has. */
  ghost predicate ScopesDropped<T>(prevScopes: seq<Option<Scope>>, scopes: seq<Option<Scope>>, items: seq<T>, newItems: seq<T>,
                                   start: nat, newEnd: nat, i: nat)
    requires start <= i <= |items| && start <= newEnd <= |newItems|
  {
    && |scopes| == |prevScopes|
    && forall k :: 0 <= k < |scopes| ==>
         scopes[k] == if start <= k < i && ClaimOf(items, newItems, start, newEnd, k) < 0 then None else prevScopes[k]
  }

  lemma {:induction false} NothingClaimed<T, U>(prevMapped: seq<U>, prevScopes: seq<Option<Scope>>, temp: array<Option<U>>, tempScopes: array<Option<Scope>>,
                                                items: seq<T>, newItems: seq<T>, start: nat, end: nat, newEnd: nat)
    requires start <= end <= |items| && newEnd <= |newItems|
    requires Unfilled(temp, tempScopes, newEnd)
    ensures ClaimsHeld(prevMapped, prevScopes, temp, tempScopes, items, newItems, start, end, newEnd, start)
  {
  }

  /** Matching old position `i` advances its value's entry to the next occurrence of the same value. */
  lemma {:induction false} PointersAdvance<T>(pointers: map<T, int>, items: seq<T>, newItems: seq<T>, start: nat, newEnd: nat, i: nat)
    requires start <= i < |items| && start <= newEnd <= |newItems| && PointersAt(pointers, items, newItems, start, newEnd, i)
    requires items[i] in pointers && pointers[items[i]] >= 0
    ensures start <= pointers[items[i]] < newEnd
    ensures ClaimOf(items, newItems, start, newEnd, i) == pointers[items[i]]
    ensures PointersAt(pointers[items[i] := NextRank(newItems, start, newEnd, pointers[items[i]])], items, newItems, start, newEnd, i + 1)
  {
    var v := items[i];
    NthInRank(newItems, start, newEnd, v, CountIn(items, start, i, v));
  }

  /** An old item whose value has no unclaimed new occurrence is claimed by nobody. */
  lemma {:induction false} PointersExhausted<T>(pointers: map<T, int>, items: seq<T>, newItems: seq<T>, start: nat, newEnd: nat, i: nat)
    requires start <= i < |items| && start <= newEnd <= |newItems| && PointersAt(pointers, items, newItems, start, newEnd, i)
    requires !(items[i] in pointers && pointers[items[i]] >= 0)
    ensures ClaimOf(items, newItems, start, newEnd, i) < 0
    ensures PointersAt(pointers, items, newItems, start, newEnd, i + 1)
  {
    var v := items[i];
    NoHigherRank(newItems, start, newEnd, v, CountIn(items, start, i, v));
  }

  /** An old item claimed by nobody changes no middle slot. */
  lemma {:induction false} ClaimsUnchanged<T, U>(prevMapped: seq<U>, prevScopes: seq<Option<Scope>>, temp: array<Option<U>>, tempScopes: array<Option<Scope>>,
                                                 items: seq<T>, newItems: seq<T>, start: nat, end: nat, newEnd: nat, i: nat)
    requires start <= i < end <= |items| && start <= newEnd <= |newItems| && newEnd <= temp.Length && newEnd <= tempScopes.Length
    requires ClaimOf(items, newItems, start, newEnd, i) < 0
    requires ClaimsHeld(prevMapped, prevScopes, temp, tempScopes, items, newItems, start, end, newEnd, i)
    ensures ClaimsHeld(prevMapped, prevScopes, temp, tempScopes, items, newItems, start, end, newEnd, i + 1)
  {
    forall j | start <= j < newEnd
      ensures ClaimHolds(prevMapped, prevScopes, Claimed(items, newItems, start, end, j, i + 1), temp[j], tempScopes[j])
    {
      ClaimStep(items, newItems, start, end, newEnd, i, j);
    }
  }

  /** Once every old middle item is matched, the middle slots hold what the reference reuses. */
  lemma {:induction false} MiddleFilled<T, U>(prev: Baseline<T, U>, newItems: seq<T>, start: nat, end: nat, newEnd: nat,
                                              temp: array<Option<U>>, tempScopes: array<Option<Scope>>)
    requires Aligned(prev) && temp.Length == |newItems| && tempScopes.Length == |newItems|
    requires start == CommonPrefix(prev.items, newItems)
    requires end == |prev.items| - CommonSuffix(prev.items, newItems, start)
    requires newEnd == |newItems| - CommonSuffix(prev.items, newItems, start)
    requires ClaimsHeld(prev.mapped, prev.scopes, temp, tempScopes, prev.items, newItems, start, end, newEnd, end)
    requires TempFilled(prev, newItems, temp, tempScopes, newEnd, |newItems|)
    ensures TempFilled(prev, newItems, temp, tempScopes, start, |newItems|)
  {
    forall j | start <= j < newEnd
      ensures TempHolds(prev, newItems, j, temp[j], tempScopes[j])
    {
      SourceInMiddle(prev.items, newItems, start, end, newEnd, j);
      assert ClaimHolds(prev.mapped, prev.scopes, Claimed(prev.items, newItems, start, end, j, end), temp[j], tempScopes[j]);
    }
  }

  /**
   * Skip the common suffix, moving each matched pair's output and scope into
   * the temporary arrays (iter.rs:60-73).  As written, `end` and `new_end`
   * are inclusive indices but the copy happens after they are decremented,
   * one pair too early, and the guards stop one pair short; here both ends
   * are exclusive, which makes the decrement-then-copy order correct (see
   * KeyedFindings.SuffixCopyMismatch).
   */
  method SkipSuffix<T(==), U>(items: seq<T>, mapped: seq<U>, scopes: seq<Option<Scope>>, newItems: seq<T>, start: nat, temp: array<Option<U>>, tempScopes: array<Option<Scope>>) returns (end: nat, newEnd: nat)
    requires |mapped| == |items| && |scopes| == |items| && start == CommonPrefix(items, newItems)
    requires temp.Length == |newItems| && tempScopes.Length == |newItems| && temp as object != tempScopes
    requires Unfilled(temp, tempScopes, temp.Length)
    modifies temp, tempScopes
    ensures end == |items| - CommonSuffix(items, newItems, start)
    ensures newEnd == |newItems| - CommonSuffix(items, newItems, start)
    ensures Unfilled(temp, tempScopes, newEnd) && Moved(mapped, scopes, temp, tempScopes, newEnd)
  {
    end := |items|;
    newEnd := |newItems|;
    while start < end && start < newEnd && items[end - 1] == newItems[newEnd - 1]
      invariant start <= end <= |items| && start <= newEnd <= |newItems|
      invariant |items| - end == |newItems| - newEnd <= CommonSuffix(items, newItems, start)
      invariant Unfilled(temp, tempScopes, newEnd) && Moved(mapped, scopes, temp, tempScopes, newEnd)
    {
      SuffixGrow(items, newItems, start, |items| - end);
      end := end - 1;
      newEnd := newEnd - 1;
      MoveSlot(mapped, scopes, end, newEnd, temp, tempScopes);
    }
    SuffixExit(items, newItems, start, |items| - end);
  }

  /** temp[new_end] = mapped[end]; temp_scopes[new_end] = scopes[end] (iter.rs:71-72). */
  method MoveSlot<U>(mapped: seq<U>, scopes: seq<Option<Scope>>, end: nat, newEnd: nat, temp: array<Option<U>>, tempScopes: array<Option<Scope>>)
    requires end < |mapped| && newEnd < temp.Length && temp.Length - newEnd == |mapped| - end
    requires temp as object != tempScopes
    requires Unfilled(temp, tempScopes, newEnd + 1) && Moved(mapped, scopes, temp, tempScopes, newEnd + 1)
    modifies temp, tempScopes
    ensures Unfilled(temp, tempScopes, newEnd) && Moved(mapped, scopes, temp, tempScopes, newEnd)
  {
    temp[newEnd] := Some(mapped[end]);
    tempScopes[newEnd] := scopes[end];
  }

  /**
   * Match each old middle item against the index (iter.rs:88-102): an item
   * whose value still has an unclaimed new occurrence moves its output and
   * scope there and advances the value's entry along the `next` chain; any
   * other item drops its scope, and the result is the vector of scopes after
   * the drops.  As written the loop bound is inclusive, its guard `start < end`
   * (iter.rs:90) compares with the inclusive last index, so an old middle of
   * one item is not matched (see KeyedFindings.MatchGuardSkipsOne), and the -1
   * "no further occurrence" entry is cast to `usize` and used as an index;
   * here the bound is exclusive, every non-empty middle is matched, and -1
   * counts as "not found" (see KeyedFindings.SentinelIndexOutOfBounds).
   */
  method MatchOld<T(==), U>(ghost prev: Baseline<T, U>, items: seq<T>, mapped: seq<U>, scopes0: seq<Option<Scope>>,
                            newItems: seq<T>, start: nat, end: nat, newEnd: nat, indices: map<T, int>, next: array<int>,
                            temp: array<Option<U>>, tempScopes: array<Option<Scope>>) returns (scopes: seq<Option<Scope>>)
    requires Aligned(prev) && items == prev.items && mapped == prev.mapped && scopes0 == prev.scopes
    requires start == CommonPrefix(items, newItems)
    requires end == |items| - CommonSuffix(items, newItems, start)
    requires newEnd == |newItems| - CommonSuffix(items, newItems, start)
    requires temp.Length == |newItems| && tempScopes.Length == |newItems| && next.Length == newEnd
    requires temp as object != tempScopes
    requires PointersAt(indices, items, newItems, start, newEnd, start)
    requires forall j :: start <= j < newEnd ==> next[j] == NextRank(newItems, start, newEnd, j)
    requires Unfilled(temp, tempScopes, newEnd)
    requires TempFilled(prev, newItems, temp, tempScopes, newEnd, |newItems|)
    modifies temp, tempScopes
    ensures ScopesDropped(prev.scopes, scopes, items, newItems, start, newEnd, end)
    ensures |scopes| == |prev.scopes| && scopes[..start] == prev.scopes[..start]
    ensures TempFilled(prev, newItems, temp, tempScopes, start, |newItems|)
  {
    scopes := scopes0;
    var pointers := indices;
    NothingClaimed(mapped, scopes0, temp, tempScopes, items, newItems, start, end, newEnd);
    var i := start;
    while i < end
      invariant start <= i <= end
      invariant ScopesDropped(scopes0, scopes, items, newItems, start, newEnd, i)
      invariant PointersAt(pointers, items, newItems, start, newEnd, i)
      invariant ClaimsHeld(mapped, scopes0, temp, tempScopes, items, newItems, start, end, newEnd, i)
      invariant TempFilled(prev, newItems, temp, tempScopes, newEnd, |newItems|)
    {
      pointers, scopes, i := MatchStep(prev, items, mapped, scopes0, newItems, start, end, newEnd, i, next, pointers, scopes, temp, tempScopes);
    }
    MiddleFilled(prev, newItems, start, end, newEnd, temp, tempScopes);
    assert scopes[..start] == prev.scopes[..start];
  }

  /** One pass of the matching loop (iter.rs:92-100) for old middle position `i`. */
  method MatchStep<T(==), U>(ghost prev: Baseline<T, U>, items: seq<T>, mapped: seq<U>, scopes0: seq<Option<Scope>>,
                             newItems: seq<T>, start: nat, end: nat, newEnd: nat, i: nat, next: array<int>,
                             pointers: map<T, int>, scopes: seq<Option<Scope>>, temp: array<Option<U>>, tempScopes: array<Option<Scope>>)
    returns (pointers': map<T, int>, scopes': seq<Option<Scope>>, i': nat)
    requires Aligned(prev) && items == prev.items && mapped == prev.mapped && scopes0 == prev.scopes
    requires start <= i < end <= |items| && start <= newEnd <= |newItems|
    requires temp.Length == |newItems| && tempScopes.Length == |newItems| && next.Length == newEnd
    requires temp as object != tempScopes
    requires forall j :: start <= j < newEnd ==> next[j] == NextRank(newItems, start, newEnd, j)
    requires ScopesDropped(scopes0, scopes, items, newItems, start, newEnd, i)
    requires PointersAt(pointers, items, newItems, start, newEnd, i)
    requires ClaimsHeld(mapped, scopes0, temp, tempScopes, items, newItems, start, end, newEnd, i)
    requires TempFilled(prev, newItems, temp, tempScopes, newEnd, |newItems|)
    modifies temp, tempScopes
    ensures i' == i + 1
    ensures ScopesDropped(scopes0, scopes', items, newItems, start, newEnd, i')
    ensures PointersAt(pointers', items, newItems, start, newEnd, i')
    ensures ClaimsHeld(mapped, scopes0, temp, tempScopes, items, newItems, start, end, newEnd, i')
    ensures TempFilled(prev, newItems, temp, tempScopes, newEnd, |newItems|)
  {
    i' := i + 1;
    var item := items[i];
    if item in pointers && pointers[item] >= 0 {
      var j := pointers[item];
      PointersAdvance(pointers, items, newItems, start, newEnd, i);
      ClaimSlot(prev, items, mapped, scopes0, newItems, start, end, newEnd, i, j, temp, tempScopes);
      pointers' := pointers[item := next[j]];
      scopes' := scopes;
    } else {
      PointersExhausted(pointers, items, newItems, start, newEnd, i);
      ClaimsUnchanged(mapped, scopes0, temp, tempScopes, items, newItems, start, end, newEnd, i);
      pointers' := pointers;
      scopes' := scopes[i := None];
    }
  }

  /** temp[j] = mapped[i]; temp_scopes[j] = scopes[i] (iter.rs:94-95): new position `j` claims old position `i`. */
  method ClaimSlot<T, U>(ghost prev: Baseline<T, U>, ghost items: seq<T>, mapped: seq<U>, scopes0: seq<Option<Scope>>,
                         ghost newItems: seq<T>, start: nat, end: nat, newEnd: nat, i: nat, j: nat,
                         temp: array<Option<U>>, tempScopes: array<Option<Scope>>)
    requires Aligned(prev) && items == prev.items && mapped == prev.mapped && scopes0 == prev.scopes
    requires start <= i < end <= |items| && start <= j < newEnd <= |newItems|
    requires ClaimOf(items, newItems, start, newEnd, i) == j
    requires temp.Length == |newItems| && tempScopes.Length == |newItems|
    requires temp as object != tempScopes
    requires ClaimsHeld(mapped, scopes0, temp, tempScopes, items, newItems, start, end, newEnd, i)
    requires TempFilled(prev, newItems, temp, tempScopes, newEnd, |newItems|)
    modifies temp, tempScopes
    ensures ClaimsHeld(mapped, scopes0, temp, tempScopes, items, newItems, start, end, newEnd, i + 1)
    ensures TempFilled(prev, newItems, temp, tempScopes, newEnd, |newItems|)
  {
    temp[j] := Some(mapped[i]);
    tempScopes[j] := scopes0[i];
    forall m | start <= m < newEnd
      ensures ClaimHolds(mapped, scopes0, Claimed(items, newItems, start, end, m, i + 1), temp[m], tempScopes[m])
    {
      ClaimStep(items, newItems, start, end, newEnd, i, m);
      if m != j {
        assert ClaimHolds(mapped, scopes0, Claimed(items, newItems, start, end, m, i), old(temp[m]), old(tempScopes[m]));
      }
    }
  }

  /**
   * Fill every position from `start` on (iter.rs:104-126): a position with a
   * moved output takes it, any other gets a fresh output in a fresh scope,
   * overwriting an old slot or appending past the end.  As written the test is
   * `temp.get(i).is_some()`, which only checks that `i` is within `temp` and
   * so always holds; the model tests the slot itself, `temp[i].is_some()`
   * (see KeyedFindings.PullEmptySlot).  The pull branch likewise assigns
   * `mapped[i]` even past the end of `mapped`; the model pushes there, as the
   * create branch does (see KeyedFindings.AssignPastEnd).
   */
  method FillSlots<T(==), U>(ghost prev: Baseline<T, U>, mapFn: (T, nat) -> U, newItems: seq<T>, start: nat,
                             mapped0: seq<U>, scopes0: seq<Option<Scope>>, created0: nat,
                             temp: array<Option<U>>, tempScopes: array<Option<Scope>>)
    returns (mapped: seq<U>, scopes: seq<Option<Scope>>, created: nat)
    requires Aligned(prev) && start == CommonPrefix(prev.items, newItems)
    requires temp.Length == |newItems| && tempScopes.Length == |newItems|
    requires TempFilled(prev, newItems, temp, tempScopes, start, |newItems|)
    requires mapped0 == prev.mapped && |scopes0| == |prev.scopes| && scopes0[..start] == prev.scopes[..start] && created0 == prev.created
    ensures |mapped| == Max(|prev.items|, |newItems|) && |scopes| == |mapped|
    ensures Slots(mapped[..|newItems|], scopes[..|newItems|], created) == Reconcile(prev, mapFn, newItems)
  {
    mapped, scopes, created := mapped0, scopes0, created0;
    ReconcileInPrefix(prev, mapFn, newItems, start);
    assert mapped[..start] == prev.mapped[..start];
    var i := start;
    while i < |newItems|
      invariant start <= i <= |newItems|
      invariant |mapped| == Max(|prev.items|, i) && |scopes| == |mapped|
      invariant Slots(mapped[..i], scopes[..i], created) == ReconcileUpTo(prev, mapFn, newItems, i)
    {
      FillStep(prev, mapFn, newItems, i, mapped, scopes, created, temp[i], tempScopes[i]);
      if temp[i].Some? {
        mapped := Put(mapped, i, temp[i].value);
        scopes := Put(scopes, i, tempScopes[i]);
      } else {
        var output := mapFn(newItems[i], created);
        mapped := Put(mapped, i, output);
        scopes := Put(scopes, i, Some(created));
        created := created + 1;
      }
      i := i + 1;
    }
    assert mapped[..|newItems|] == mapped[..i];
  }

  /** Filling position `i` from its temporary slot extends the reference by one slot. */
  lemma {:induction false} FillStep<T, U>(prev: Baseline<T, U>, mapFn: (T, nat) -> U, newItems: seq<T>, i: nat,
                                          mapped: seq<U>, scopes: seq<Option<Scope>>, created: nat, t: Option<U>, ts: Option<Scope>)
    requires Aligned(prev) && i < |newItems| && i <= |mapped| && |scopes| == |mapped|
    requires Slots(mapped[..i], scopes[..i], created) == ReconcileUpTo(prev, mapFn, newItems, i)
    requires TempHolds(prev, newItems, i, t, ts)
    ensures t.Some? ==>
              Slots(Put(mapped, i, t.value)[..i + 1], Put(scopes, i, ts)[..i + 1], created) == ReconcileUpTo(prev, mapFn, newItems, i + 1)
    ensures t.None? ==>
              Slots(Put(mapped, i, mapFn(newItems[i], created))[..i + 1], Put(scopes, i, Some(created))[..i + 1], created + 1)
              == ReconcileUpTo(prev, mapFn, newItems, i + 1)
  {
  }

  /**
   * The general case of an update (iter.rs:40-127), on the previous vectors:
   * skip the common prefix and suffix, index the new middle, match the old
   * middle against it and fill every slot from the prefix's end on.  The
   * results may still be longer than `newItems`; the caller truncates them.
   */
  method Diff<T(==), U>(ghost prev: Baseline<T, U>, mapFn: (T, nat) -> U, items: seq<T>, mapped: seq<U>, scopes: seq<Option<Scope>>,
                        created: nat, newItems: seq<T>)
    returns (mapped': seq<U>, scopes': seq<Option<Scope>>, created': nat)
    requires prev == Baseline(items, mapped, scopes, created) && Aligned(prev)
    ensures |mapped'| == Max(|items|, |newItems|) && |scopes'| == |mapped'|
    ensures Slots(mapped'[..|newItems|], scopes'[..|newItems|], created') == Reconcile(prev, mapFn, newItems)
  {
    var temp := new Option<U>[|newItems|](_ => None);
    var tempScopes := new Option<Scope>[|newItems|](_ => None);
    var start := SkipPrefix(items, newItems);
    var end, newEnd := SkipSuffix(items, mapped, scopes, newItems, start, temp, tempScopes);
    SuffixFilled(prev, newItems, newEnd, temp, tempScopes);
    var indices, next := IndexMiddle(newItems, start, newEnd);
    var kept := MatchOld(prev, items, mapped, scopes, newItems, start, end, newEnd, indices, next, temp, tempScopes);
    mapped', scopes', created' := FillSlots(prev, mapFn, newItems, start, mapped, kept, created, temp, tempScopes);
  }

  class KeyedMapper<T(==), U> {
    var items: seq<T>
    var mapped: seq<U>
    var scopes: seq<Option<Scope>>
    /** How many scopes this mapper has created, and so how many times it has called `mapFn`. */
    var created: nat
    /**
     * The user's `map_fn`.  Its second argument is the number of earlier
     * calls, which lets a stateful mapper such as a counter be written as a
     * function; a pure mapper ignores it.
     */
    const mapFn: (T, nat) -> U

    ghost function State(): Baseline<T, U>
      reads this
    {
      Baseline(items, mapped, scopes, created)
    }

    ghost predicate Valid()
      reads this
    {
      WellFormed(State())
    }

    /** `map_keyed(list, map_fn)` before its first call: all three vectors empty (iter.rs:18-21). */
    constructor (mapFn: (T, nat) -> U)
      ensures Valid() && items == [] && mapped == [] && scopes == [] && created == 0 && this.mapFn == mapFn
    {
      items := [];
      mapped := [];
      scopes := [];
      created := 0;
      this.mapFn := mapFn;
    }

    /**
     * One call of the closure (iter.rs:23-141) with the list's current
     * contents: the vectors become the reference reconciliation of the
     * previous state against `newItems`, and the result is a copy of `mapped`.
     */
    method Update(newItems: seq<T>) returns (out: seq<U>)
      requires Valid()
      modifies this
      ensures Valid()
      ensures items == newItems
      ensures Slots(mapped, scopes, created) == Reconcile(old(State()), mapFn, newItems)
      ensures out == mapped
    {
      ghost var prev := State();
      if |newItems| == 0 {
        // Fast path: every old scope is dropped with the vector.
        scopes := [];
        mapped := [];
      } else if |items| == 0 {
        CreateAll(prev, newItems);
      } else {
        mapped, scopes, created := Diff(prev, mapFn, items, mapped, scopes, created, newItems);
      }
      // 3) Truncate to the new length.
      if |mapped| > |newItems| {
        mapped := mapped[..|newItems|];
      }
      if |scopes| > |newItems| {
        scopes := scopes[..|newItems|];
      }
      // 4) Keep the new items for the next update.
      items := newItems;
      ReconcileWellFormed(prev, mapFn, newItems);
      out := mapped;
    }

    /** Fast path for an empty previous list: map every item fresh, in order (iter.rs:30-39). */
    method CreateAll(ghost prev: Baseline<T, U>, newItems: seq<T>)
      requires Aligned(prev) && prev.items == [] && mapped == [] && scopes == [] && created == prev.created
      modifies this`mapped, this`scopes, this`created
      ensures Slots(mapped, scopes, created) == Reconcile(prev, mapFn, newItems)
    {
      var i := 0;
      while i < |newItems|
        invariant i <= |newItems|
        invariant Slots(mapped, scopes, created) == ReconcileUpTo(prev, mapFn, newItems, i)
      {
        var output := mapFn(newItems[i], created);
        mapped := mapped + [output];
        scopes := scopes + [Some(created)];
        created := created + 1;
        i := i + 1;
      }
    }

  }
}
