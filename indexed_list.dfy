/**
 * `map_indexed` (maple-core/src/reactive/iter.rs:144-206): a mapped list that
 * reuses an output only at the same position.  Between updates the closure
 * keeps the previous items, their outputs and the scope of each output; on an
 * update position `i` keeps its output and scope when the old list has an
 * equal item at `i`, and otherwise gets a fresh output computed in a fresh
 * scope.
 */
module IndexedList {
  import KeyedSpec

  type Scope = KeyedSpec.Scope

  /** What the closure keeps between calls, and how many scopes it has created so far. */
  datatype Snapshot<T, U> = Snapshot(items: seq<T>, mapped: seq<U>, scopes: seq<Scope>, created: nat)

  /** The outputs, scopes and scope count produced by an update. */
  datatype Outcome<U> = Outcome(mapped: seq<U>, scopes: seq<Scope>, created: nat)

  /** One output and one scope per item (the closing debug assertion, iter.rs:198-200). */
  ghost predicate Aligned<T, U>(s: Snapshot<T, U>)
  {
    |s.mapped| == |s.items| && |s.scopes| == |s.items|
  }

  /** Every scope was created earlier, and no two positions share one. */
  ghost predicate WellFormed<T, U>(s: Snapshot<T, U>)
  {
    && Aligned(s)
    && (forall i :: 0 <= i < |s.scopes| ==> s.scopes[i] < s.created)
    && (forall i, j :: 0 <= i < j < |s.scopes| ==> s.scopes[i] != s.scopes[j])
  }

  /** Position `i` keeps its output: the old list has an equal item there (iter.rs:167-176). */
  predicate Keeps<T(==)>(items: seq<T>, newItems: seq<T>, i: nat)
    requires i < |newItems|
  {
    i < |items| && items[i] == newItems[i]
  }

  /** The first `n` positions of the update, built left to right. */
  function IndexedUpTo<T(==), U>(prev: Snapshot<T, U>, mapFn: (T, nat) -> U, newItems: seq<T>, n: nat): (r: Outcome<U>)
    requires Aligned(prev) && n <= |newItems|
    ensures |r.mapped| == n && |r.scopes| == n && r.created >= prev.created
    decreases n
  {
    if n == 0 then Outcome([], [], prev.created)
    else
      var acc := IndexedUpTo(prev, mapFn, newItems, n - 1);
      if Keeps(prev.items, newItems, n - 1) then
        Outcome(acc.mapped + [prev.mapped[n - 1]], acc.scopes + [prev.scopes[n - 1]], acc.created)
      else
        Outcome(acc.mapped + [mapFn(newItems[n - 1], acc.created)], acc.scopes + [acc.created], acc.created + 1)
  }

  /** The outcome of updating `prev` to `newItems`. */
  function Indexed<T(==), U>(prev: Snapshot<T, U>, mapFn: (T, nat) -> U, newItems: seq<T>): Outcome<U>
    requires Aligned(prev)
  {
    IndexedUpTo(prev, mapFn, newItems, |newItems|)
  }

  /** Number of positions below `n` that get a fresh output. */
  function ChangedBelow<T(==)>(items: seq<T>, newItems: seq<T>, n: nat): (c: nat)
    requires n <= |newItems|
    ensures c <= n
  {
    if n == 0 then 0
    else ChangedBelow(items, newItems, n - 1) + (if Keeps(items, newItems, n - 1) then 0 else 1)
  }

  /** Later positions never change earlier ones. */
  lemma {:induction false} IndexedPrefixStable<T, U>(prev: Snapshot<T, U>, mapFn: (T, nat) -> U, newItems: seq<T>, i: nat, n: nat)
    requires Aligned(prev) && i <= n <= |newItems|
    ensures IndexedUpTo(prev, mapFn, newItems, n).mapped[..i] == IndexedUpTo(prev, mapFn, newItems, i).mapped
    ensures IndexedUpTo(prev, mapFn, newItems, n).scopes[..i] == IndexedUpTo(prev, mapFn, newItems, i).scopes
    ensures IndexedUpTo(prev, mapFn, newItems, n).created >= IndexedUpTo(prev, mapFn, newItems, i).created
    decreases n
  {
    if i < n {
      IndexedPrefixStable(prev, mapFn, newItems, i, n - 1);
      var acc := IndexedUpTo(prev, mapFn, newItems, n - 1);
      var r := IndexedUpTo(prev, mapFn, newItems, n);
      assert r.mapped[..n - 1] == acc.mapped;
      assert r.scopes[..n - 1] == acc.scopes;
      assert r.mapped[..i] == acc.mapped[..i];
      assert r.scopes[..i] == acc.scopes[..i];
    }
  }

  /** What position `i` of the update holds: the old output and scope, or fresh ones. */
  lemma {:induction false} IndexedAt<T, U>(prev: Snapshot<T, U>, mapFn: (T, nat) -> U, newItems: seq<T>, i: nat)
    requires Aligned(prev) && i < |newItems|
    ensures var r := Indexed(prev, mapFn, newItems);
            var t := IndexedUpTo(prev, mapFn, newItems, i).created;
            if Keeps(prev.items, newItems, i) then r.mapped[i] == prev.mapped[i] && r.scopes[i] == prev.scopes[i]
            else r.mapped[i] == mapFn(newItems[i], t) && r.scopes[i] == t && prev.created <= t < r.created
  {
    IndexedPrefixStable(prev, mapFn, newItems, i + 1, |newItems|);
    var r := Indexed(prev, mapFn, newItems);
    var r1 := IndexedUpTo(prev, mapFn, newItems, i + 1);
    assert r.mapped[i] == r.mapped[..i + 1][i] == r1.mapped[i];
    assert r.scopes[i] == r.scopes[..i + 1][i] == r1.scopes[i];
  }

  /** The mapping function is called exactly once per position whose item changed or is new. */
  lemma {:induction false} IndexedCallsPerChange<T, U>(prev: Snapshot<T, U>, mapFn: (T, nat) -> U, newItems: seq<T>, n: nat)
    requires Aligned(prev) && n <= |newItems|
    ensures IndexedUpTo(prev, mapFn, newItems, n).created == prev.created + ChangedBelow(prev.items, newItems, n)
    decreases n
  {
    if n > 0 {
      IndexedCallsPerChange(prev, mapFn, newItems, n - 1);
    }
  }

  /** Fresh scopes are numbered in the order of their positions. */
  lemma {:induction false} IndexedTokensIncrease<T, U>(prev: Snapshot<T, U>, mapFn: (T, nat) -> U, newItems: seq<T>, i: nat, j: nat)
    requires Aligned(prev) && i < j < |newItems| && !Keeps(prev.items, newItems, i)
    ensures IndexedUpTo(prev, mapFn, newItems, i).created < IndexedUpTo(prev, mapFn, newItems, j).created
  {
    assert IndexedUpTo(prev, mapFn, newItems, i + 1).created == IndexedUpTo(prev, mapFn, newItems, i).created + 1;
    IndexedPrefixStable(prev, mapFn, newItems, i + 1, j);
  }

  /** An update of a well-formed snapshot is well formed again. */
  lemma {:induction false} IndexedWellFormed<T, U>(prev: Snapshot<T, U>, mapFn: (T, nat) -> U, newItems: seq<T>)
    requires WellFormed(prev)
    ensures var r := Indexed(prev, mapFn, newItems);
            WellFormed(Snapshot(newItems, r.mapped, r.scopes, r.created))
  {
    var r := Indexed(prev, mapFn, newItems);
    forall i | 0 <= i < |newItems|
      ensures r.scopes[i] < r.created
    {
      IndexedAt(prev, mapFn, newItems, i);
    }
    forall i, j | 0 <= i < j < |newItems|
      ensures r.scopes[i] != r.scopes[j]
    {
      IndexedAt(prev, mapFn, newItems, i);
      IndexedAt(prev, mapFn, newItems, j);
      if !Keeps(prev.items, newItems, i) && !Keeps(prev.items, newItems, j) {
        IndexedTokensIncrease(prev, mapFn, newItems, i, j);
      }
    }
  }

  /** Re-feeding the same items changes nothing and maps nothing. */
  lemma {:induction false} IndexedNoOp<T, U>(prev: Snapshot<T, U>, mapFn: (T, nat) -> U, n: nat)
    requires Aligned(prev) && n <= |prev.items|
    ensures IndexedUpTo(prev, mapFn, prev.items, n) == Outcome(prev.mapped[..n], prev.scopes[..n], prev.created)
    decreases n
  {
    if n > 0 {
      IndexedNoOp(prev, mapFn, n - 1);
      assert prev.mapped[..n] == prev.mapped[..n - 1] + [prev.mapped[n - 1]];
      assert prev.scopes[..n] == prev.scopes[..n - 1] + [prev.scopes[n - 1]];
    }
  }

  /**
   * With a mapping function that ignores its history and a snapshot that maps
   * every item through it, the update maps every new item through it.
   */
  lemma {:induction false} IndexedPure<T, U>(prev: Snapshot<T, U>, mapFn: (T, nat) -> U, g: T -> U, newItems: seq<T>)
    requires Aligned(prev)
    requires forall x, k :: mapFn(x, k) == g(x)
    requires forall j :: 0 <= j < |prev.items| ==> prev.mapped[j] == g(prev.items[j])
    ensures forall i :: 0 <= i < |newItems| ==> Indexed(prev, mapFn, newItems).mapped[i] == g(newItems[i])
  {
    forall i | 0 <= i < |newItems|
      ensures Indexed(prev, mapFn, newItems).mapped[i] == g(newItems[i])
    {
      IndexedAt(prev, mapFn, newItems, i);
    }
  }

  /**
   * The loop over the new items (iter.rs:166-184), on the previous vectors:
   * an old position past the end of `items` is pushed, a changed one is
   * overwritten in place, an unchanged one is left alone.  The vectors may
   * still be longer than `newItems` afterwards.
   */
  method MapPositions<T(==), U>(ghost prev: Snapshot<T, U>, mapFn: (T, nat) -> U, items: seq<T>, mapped0: seq<U>, scopes0: seq<Scope>,
                                created0: nat, newItems: seq<T>)
    returns (mapped: seq<U>, scopes: seq<Scope>, created: nat)
    requires prev == Snapshot(items, mapped0, scopes0, created0) && Aligned(prev)
    ensures |mapped| == KeyedSpec.Max(|items|, |newItems|) && |scopes| == |mapped|
    ensures Outcome(mapped[..|newItems|], scopes[..|newItems|], created) == Indexed(prev, mapFn, newItems)
  {
    mapped, scopes, created := mapped0, scopes0, created0;
    var i := 0;
    while i < |newItems|
      invariant i <= |newItems|
      invariant |mapped| == KeyedSpec.Max(|items|, i) && |scopes| == |mapped|
      invariant Outcome(mapped[..i], scopes[..i], created) == IndexedUpTo(prev, mapFn, newItems, i)
      invariant forall k :: i <= k < |items| ==> mapped[k] == mapped0[k] && scopes[k] == scopes0[k]
    {
      PositionStep(prev, mapFn, newItems, i, mapped, scopes, created);
      if i >= |items| {
        var output := mapFn(newItems[i], created);
        mapped := mapped + [output];
        scopes := scopes + [created];
        created := created + 1;
      } else if items[i] != newItems[i] {
        var output := mapFn(newItems[i], created);
        mapped := mapped[i := output];
        scopes := scopes[i := created];
        created := created + 1;
      }
      i := i + 1;
    }
    assert mapped[..|newItems|] == mapped[..i];
  }

  /** Each branch of the loop body extends the reference by one position. */
  lemma {:induction false} PositionStep<T, U>(prev: Snapshot<T, U>, mapFn: (T, nat) -> U, newItems: seq<T>, i: nat,
                                              mapped: seq<U>, scopes: seq<Scope>, created: nat)
    requires Aligned(prev) && i < |newItems| && |mapped| == KeyedSpec.Max(|prev.items|, i) && |scopes| == |mapped|
    requires Outcome(mapped[..i], scopes[..i], created) == IndexedUpTo(prev, mapFn, newItems, i)
    requires i < |prev.items| ==> mapped[i] == prev.mapped[i] && scopes[i] == prev.scopes[i]
    ensures var x := mapFn(newItems[i], created);
            i >= |prev.items| ==> Outcome((mapped + [x])[..i + 1], (scopes + [created])[..i + 1], created + 1) == IndexedUpTo(prev, mapFn, newItems, i + 1)
    ensures var x := mapFn(newItems[i], created);
            i < |prev.items| && prev.items[i] != newItems[i] ==>
              Outcome(mapped[i := x][..i + 1], scopes[i := created][..i + 1], created + 1) == IndexedUpTo(prev, mapFn, newItems, i + 1)
    ensures Keeps(prev.items, newItems, i) ==> Outcome(mapped[..i + 1], scopes[..i + 1], created) == IndexedUpTo(prev, mapFn, newItems, i + 1)
  {
    var x := mapFn(newItems[i], created);
    if i >= |prev.items| {
      assert (mapped + [x])[..i + 1] == mapped[..i] + [x];
      assert (scopes + [created])[..i + 1] == scopes[..i] + [created];
    } else {
      assert mapped[i := x][..i + 1] == mapped[..i] + [x];
      assert scopes[i := created][..i + 1] == scopes[..i] + [created];
      assert mapped[..i + 1] == mapped[..i] + [mapped[i]];
      assert scopes[..i + 1] == scopes[..i] + [scopes[i]];
    }
  }

  /** Drop one scope per removed position (iter.rs:186-190): `scopes.pop()` that many times. */
  method PopScopes(scopes0: seq<Scope>, count: nat) returns (scopes: seq<Scope>)
    requires count <= |scopes0|
    ensures scopes == scopes0[..|scopes0| - count]
  {
    scopes := scopes0;
    var k := 0;
    while k < count
      invariant k <= count && scopes == scopes0[..|scopes0| - k]
    {
      scopes := scopes[..|scopes| - 1];
      k := k + 1;
    }
  }

  /** `Vec::truncate`: keep at most the first `n` elements. */
  function Truncate<V>(s: seq<V>, n: nat): (r: seq<V>)
    ensures |s| <= n ==> r == s
    ensures n < |s| ==> r == s[..n]
  {
    if n < |s| then s[..n] else s
  }

  class IndexedMapper<T(==), U> {
    var items: seq<T>
    var mapped: seq<U>
    var scopes: seq<Scope>
    /** How many scopes this mapper has created, and so how many times it has called `mapFn`. */
    var created: nat
    /** The user's `map_fn`, given the number of earlier calls as its second argument. */
    const mapFn: (T, nat) -> U

    ghost function State(): Snapshot<T, U>
      reads this
    {
      Snapshot(items, mapped, scopes, created)
    }

    ghost predicate Valid()
      reads this
    {
      WellFormed(State())
    }

    /** `map_indexed(list, map_fn)` before its first call (iter.rs:152-155). */
    constructor (mapFn: (T, nat) -> U)
      ensures Valid() && items == [] && mapped == [] && scopes == [] && created == 0 && this.mapFn == mapFn
    {
      items := [];
      mapped := [];
      scopes := [];
      created := 0;
      this.mapFn := mapFn;
    }

    /**
     * One call of the closure (iter.rs:157-205) with the list's current
     * contents: the vectors become the update of the previous state, and the
     * result is a copy of `mapped`.
     */
    method Update(newItems: seq<T>) returns (out: seq<U>)
      requires Valid()
      modifies this
      ensures Valid()
      ensures items == newItems
      ensures Outcome(mapped, scopes, created) == Indexed(old(State()), mapFn, newItems)
      ensures out == mapped
    {
      ghost var prev := State();
      if |newItems| == 0 {
        // Fast path: drop every scope and forget the old items.
        scopes := [];
        items := [];
        mapped := [];
      } else {
        var m, s, c := MapPositions(prev, mapFn, items, mapped, scopes, created, newItems);
        if |newItems| < |items| {
          s := PopScopes(s, |items| - |newItems|);
        }
        // In case the new list is shorter, cut both vectors to its length.
        mapped, scopes, created := Truncate(m, |newItems|), Truncate(s, |newItems|), c;
        items := newItems;
      }
      IndexedWellFormed(prev, mapFn, newItems);
      out := mapped;
    }
  }
}
