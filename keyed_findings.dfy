/**
 * The phases of `map_keyed` (maple-core/src/reactive/iter.rs) exactly as
 * written, next to inputs on which they do not do what their comments say.
 * Each as-written member models one phase with the other phases taken as
 * intended; the corrected phase is the one in KeyedList, and KeyedSpec
 * states what the corrected phases achieve together.
 */
module KeyedFindings {
  import opened Options
  import opened KeyedSpec
  import opened KeyedList

  /**
   * The common-prefix skip followed by its debug assertion (iter.rs:49-58):
   * None when the assertion cannot hold, that is, when it indexes one of the
   * lists at `start` past its end (a panic in a debug build).
   */
  function SkipPrefixAsWritten<T(==)>(items: seq<T>, newItems: seq<T>): (r: Option<nat>)
    ensures r.Some? ==> r.value == CommonPrefix(items, newItems)
  {
    var start := CommonPrefix(items, newItems);
    if start < |items| && start < |newItems| && items[start] != newItems[start] then Some(start) else None
  }

  /** The assertion fails exactly when one list is a prefix of the other. */
  lemma {:induction false} PrefixCheckFailsOnPrefix<T>(items: seq<T>, newItems: seq<T>)
    ensures SkipPrefixAsWritten(items, newItems).None? <==> (items <= newItems || newItems <= items)
  {
    var p := CommonPrefix(items, newItems);
    if p == |items| {
      forall k | 0 <= k < |items| ensures items[k] == newItems[k] { PrefixAgrees(items, newItems, k); }
      assert items == newItems[..|items|];
    } else if p == |newItems| {
      forall k | 0 <= k < |newItems| ensures items[k] == newItems[k] { PrefixAgrees(items, newItems, k); }
      assert newItems == items[..|newItems|];
    } else {
      assert items[p] != newItems[p];
    }
  }

  /** Growing [1, 2, 3] to [1, 2, 3, 4] trips the assertion. */
  lemma PrefixCheckOutOfBounds()
    ensures SkipPrefixAsWritten([1, 2, 3], [1, 2, 3, 4]).None?
    ensures CommonPrefix([1, 2, 3], [1, 2, 3, 4]) == 3
  {
  }

  /** Where the as-written suffix loop stops, and what it has moved into `temp`. */
  datatype SuffixScan<U> = SuffixScan(end: nat, newEnd: nat, temp: seq<Option<U>>)

  /**
   * The common-suffix loop as written (iter.rs:60-73): `end` and `newEnd` are
   * inclusive last indices, the guard is strict, and the copy into `temp`
   * happens after both are decremented.
   */
  function SkipSuffixAsWritten<T(==), U>(items: seq<T>, mapped: seq<U>, newItems: seq<T>, start: nat,
                                          end: nat, newEnd: nat, temp: seq<Option<U>>): (r: SuffixScan<U>)
    requires |mapped| == |items| && end < |items| && newEnd < |newItems| && |temp| == |newItems|
    ensures r.end <= end && r.newEnd <= newEnd && |r.temp| == |temp|
    ensures end - r.end == newEnd - r.newEnd
    decreases end
  {
    if start < end && start < newEnd && items[end] == newItems[newEnd] then
      SkipSuffixAsWritten(items, mapped, newItems, start, end - 1, newEnd - 1, temp[newEnd - 1 := Some(mapped[end - 1])])
    else SuffixScan(end, newEnd, temp)
  }

  /** The loop started as the source starts it, on non-empty lists. */
  function SuffixAsWritten<T(==), U>(items: seq<T>, mapped: seq<U>, newItems: seq<T>, start: nat): (r: SuffixScan<U>)
    requires |mapped| == |items| && 0 < |items| && 0 < |newItems|
    ensures |r.temp| == |newItems| && |items| - 1 - r.end == |newItems| - 1 - r.newEnd
  {
    SkipSuffixAsWritten(items, mapped, newItems, start, |items| - 1, |newItems| - 1, seq(|newItems|, _ => None))
  }

  /**
   * Replacing the first of [1, 2, 3] by 0: the loop moves the output of old
   * item 1 to new position 0, which holds 0, and leaves the slot of the
   * matched last item empty; the reference reuses nothing at position 0 and
   * the last old slot at position 2.
   */
  lemma SuffixCopyMismatch()
    ensures SuffixAsWritten([1, 2, 3], [2, 4, 6], [0, 2, 3], 0).temp == [Some(2), Some(4), None]
    ensures SourceOf([1, 2, 3], [0, 2, 3], 0) == None && SourceOf([1, 2, 3], [0, 2, 3], 2) == Some(2)
  {
  }

  /**
   * Dropping the first of [1, 2]: the strict guard stops before comparing the
   * middle range's own first pair, so the loop skips no suffix at all while
   * the lists share a suffix of one item.
   */
  lemma SuffixGuardShort()
    ensures var r := SuffixAsWritten([1, 2], [10, 20], [2], 0);
            r.end == 1 && r.newEnd == 0
    ensures CommonSuffix([1, 2], [2], 0) == 1
  {
  }

  /** `-1 as usize` on a 64-bit target, for an `isize` value. */
  function AsUsize(x: int): (r: nat)
    requires -0x8000_0000_0000_0000 <= x
    ensures 0 <= x ==> r == x
    ensures x < 0 ==> r == x + 0x1_0000_0000_0000_0000 && r >= 0x8000_0000_0000_0000
  {
    if x < 0 then x + 0x1_0000_0000_0000_0000 else x
  }

  /**
   * The matching loop as written (iter.rs:90-101), over old positions `i`
   * through `end` inclusive: any key of the index is taken as a position,
   * including the sentinel -1 cast to `usize`.  None when the loop indexes
   * `temp` (of length `tempLen`) or the `next` vector out of bounds.
   */
  function MatchAsWritten<T(==)>(items: seq<T>, i: nat, end: nat, pointers: map<T, nat>, next: seq<int>, tempLen: nat): (r: Option<map<T, nat>>)
    requires end < |items| && i <= end + 1
    requires forall k :: 0 <= k < |next| ==> -1 <= next[k] < |next|
    ensures r.Some? ==> r.value.Keys == pointers.Keys
    ensures r.Some? ==> forall k :: k in pointers && k !in items[i..end + 1] ==> r.value[k] == pointers[k]
    decreases end + 1 - i
  {
    if i > end then Some(pointers)
    else if items[i] in pointers then
      var j := pointers[items[i]];
      if j >= tempLen || j >= |next| then None
      else MatchAsWritten(items, i + 1, end, pointers[items[i] := AsUsize(next[j])], next, tempLen)
    else MatchAsWritten(items, i + 1, end, pointers, next, tempLen)
  }

  /**
   * From [1, 1, 0] to [2, 1, 5]: the first old 1 takes the only new 1 and
   * leaves the sentinel behind; the second old 1 then indexes `temp` at
   * 2^64 - 1.  The index and chain are those the backward scan builds for
   * [2, 1, 5].
   */
  lemma SentinelIndexOutOfBounds()
    ensures MatchAsWritten([1, 1, 0], 1, 2, map[2 := 0, 1 := 0x1_0000_0000_0000_0000 - 1, 5 := 2], [-1, -1, -1], 3).None?
    ensures MatchAsWritten([1, 1, 0], 0, 2, map[2 := 0, 1 := 1, 5 := 2], [-1, -1, -1], 3).None?
  {
  }

  /** The corrected matching finds no slot for the second old 1 and drops its scope. */
  lemma SentinelCorrected()
    ensures ClaimOf([1, 1, 0], [2, 1, 5], 0, 3, 0) == 1
    ensures ClaimOf([1, 1, 0], [2, 1, 5], 0, 3, 1) == -1
  {
  }

  /**
   * The guard of the backward scan as written (iter.rs:79): `start < new_end`,
   * where `new_end` is the inclusive last index of the new middle [start, newEnd),
   * so a new middle of a single item is not indexed.
   */
  predicate IndexGuardAsWritten(start: nat, newEnd: nat): (r: bool)
    ensures r ==> start < newEnd
    ensures start < newEnd ==> (r <==> newEnd - start != 1)
  {
    start < newEnd - 1
  }

  /**
   * The guard of the matching loop as written (iter.rs:90): `start < end`, where
   * `end` is the inclusive last index of the old middle [start, end), so an old
   * middle of a single item is not matched.
   */
  predicate MatchGuardAsWritten(start: nat, end: nat): (r: bool)
    ensures r ==> start < end
    ensures start < end ==> (r <==> end - start != 1)
  {
    start < end - 1
  }

  /**
   * The new position that claims old middle position `x` as written, with the
   * other phases as intended: a skipped scan leaves the index empty and a
   * skipped matching loop claims nothing, so either guard failing leaves `x`
   * unclaimed (-1); otherwise the claim is the intended one.
   */
  ghost function ClaimAsWritten<T>(items: seq<T>, newItems: seq<T>, start: nat, end: nat, newEnd: nat, x: nat): int
    requires start <= x < |items| && start <= newEnd <= |newItems|
  {
    if IndexGuardAsWritten(start, newEnd) && MatchGuardAsWritten(start, end) then ClaimOf(items, newItems, start, newEnd, x)
    else -1
  }

  /**
   * From [1, 2, 9] to [1, 5, 2, 6, 9]: the old middle is the single item 2, so
   * the as-written matching loop is skipped and old 2 claims nothing, while
   * the intended matching hands old 2's output and scope to new position 2.
   */
  lemma MatchGuardSkipsOne()
    ensures CommonPrefix([1, 2, 9], [1, 5, 2, 6, 9]) == 1 && CommonSuffix([1, 2, 9], [1, 5, 2, 6, 9], 1) == 1
    ensures IndexGuardAsWritten(1, 4) && !MatchGuardAsWritten(1, 2)
    ensures ClaimAsWritten([1, 2, 9], [1, 5, 2, 6, 9], 1, 2, 4, 1) == -1
    ensures ClaimOf([1, 2, 9], [1, 5, 2, 6, 9], 1, 4, 1) == 2
    ensures SourceOf([1, 2, 9], [1, 5, 2, 6, 9], 2) == Some(1)
  {
  }

  /**
   * From [1, 7, 2, 5, 9] to [1, 2, 9]: the new middle is the single item 2, so
   * the as-written scan is skipped, the index stays empty and old 2 claims
   * nothing (its scope is dropped and new 2 is mapped fresh), while the
   * intended matching hands old 2's output and scope to new position 1.
   */
  lemma IndexGuardSkipsOne()
    ensures CommonPrefix([1, 7, 2, 5, 9], [1, 2, 9]) == 1 && CommonSuffix([1, 7, 2, 5, 9], [1, 2, 9], 1) == 1
    ensures !IndexGuardAsWritten(1, 2) && MatchGuardAsWritten(1, 4)
    ensures ClaimAsWritten([1, 7, 2, 5, 9], [1, 2, 9], 1, 4, 2, 2) == -1
    ensures ClaimOf([1, 7, 2, 5, 9], [1, 2, 9], 1, 2, 2) == 1
    ensures SourceOf([1, 7, 2, 5, 9], [1, 2, 9], 1) == Some(2)
  {
  }

  /** The guard of the pull branch as written (iter.rs:107): `temp.get(i).is_some()`. */
  predicate PullGuardAsWritten<U>(temp: seq<Option<U>>, i: nat)
  {
    i < |temp|
  }

  /** The guard only checks the bound, so it holds on every position, empty slot or not. */
  lemma {:induction false} PullGuardIgnoresSlot<U>(temp: seq<Option<U>>, i: nat)
    requires i < |temp|
    ensures PullGuardAsWritten(temp, i)
    ensures PullGuardAsWritten(temp[i := None], i)
  {
  }

  /**
   * Inserting 3 into [1, 2]: new position 1 must be mapped fresh, so its
   * temporary slot is empty, yet the as-written guard sends it to the pull
   * branch, which unwraps the empty slot.
   */
  lemma PullEmptySlot(prev: Baseline<int, int>, temp: seq<Option<int>>, tempScopes: seq<Option<Scope>>)
    requires Aligned(prev) && prev.items == [1, 2] && |temp| == 3 && |tempScopes| == 3
    requires TempHolds(prev, [1, 3, 2], 1, temp[1], tempScopes[1])
    ensures PullGuardAsWritten(temp, 1) && temp[1].None?
  {
  }

  /** The pull branch's store as written (iter.rs:109): an index assignment, None when `i` is past the end. */
  function AssignAsWritten<U>(s: seq<U>, i: nat, x: U): (r: Option<seq<U>>)
    ensures r.Some? <==> i < |s|
    ensures r.Some? ==> r.value == s[i := x]
  {
    if i < |s| then Some(s[i := x]) else None
  }

  /**
   * Prepending 0 to [1, 2]: position 2 reuses old slot 1, but `mapped` still
   * has the old length 2 when the fill reaches it, so the as-written store is
   * out of bounds; Put appends there instead.
   */
  lemma AssignPastEnd(prev: Baseline<int, int>, mapFn: (int, nat) -> int)
    requires Aligned(prev) && prev.items == [1, 2]
    ensures SourceOf(prev.items, [0, 1, 2], 2) == Some(1)
    ensures |ReconcileUpTo(prev, mapFn, [0, 1, 2], 2).mapped| == 2 && Max(|prev.items|, 2) == 2
    ensures AssignAsWritten(prev.mapped, 2, prev.mapped[1]).None?
    ensures Put(prev.mapped, 2, prev.mapped[1]) == prev.mapped + [prev.mapped[1]]
  {
  }
}
