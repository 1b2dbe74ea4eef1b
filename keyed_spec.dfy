/**
 * Reference definition of keyed list reconciliation (`map_keyed` in
 * maple-core/src/reactive/iter.rs, a port of Solid's `mapArray`).
 *
 * The reconciler keeps, between updates, the previous source items, the
 * mapped output for each item and the scope that owns each output.  On an
 * update every new position either reuses the output and scope of one old
 * position holding an equal item, or gets a fresh output computed inside a
 * fresh scope.  This module says WHICH old position each new position
 * reuses, without the hash map and "next occurrence" chain the algorithm
 * uses to find it:
 *   - positions inside the common prefix reuse the same position;
 *   - positions inside the common suffix (taken after the prefix, so the two
 *     never overlap) reuse the position at the same distance from the end;
 *   - in the remaining middle range, the new occurrence of a value with `r`
 *     equal values before it (in the middle range) reuses the old middle
 *     occurrence of that value with `r` equal values before it, if any.
 * Fresh outputs are created left to right.
 */
module KeyedSpec {
  import opened Options
  import opened Occurrences

  /**
   * A disposal scope (`ReactiveScope` from `create_root`), treated as an
   * opaque token compared by identity.  Tokens are numbered in creation
   * order; dropping a scope means that no slot refers to its token any more.
   */
  type Scope = nat

  /**
   * The state a keyed mapper keeps between updates: the previous items, their
   * mapped outputs, the owning scope of each output, and how many scopes (and
   * so how many calls of the mapping function) there have been so far.
   */
  datatype Baseline<T, U> = Baseline(items: seq<T>, mapped: seq<U>, scopes: seq<Option<Scope>>, created: nat)

  /** The three vectors have one entry per item (the source's closing debug assertion). */
  ghost predicate Aligned<T, U>(b: Baseline<T, U>)
  {
    |b.mapped| == |b.items| && |b.scopes| == |b.items|
  }

  /** Every slot owns a live scope, created earlier, and no two slots share one. */
  ghost predicate WellFormed<T, U>(b: Baseline<T, U>)
  {
    && Aligned(b)
    && (forall i :: 0 <= i < |b.scopes| ==> b.scopes[i].Some? && b.scopes[i].value < b.created)
    && (forall i, j :: 0 <= i < j < |b.scopes| ==> b.scopes[i] != b.scopes[j])
  }

  /** The outputs, scopes and scope count produced by an update. */
  datatype Slots<U> = Slots(mapped: seq<U>, scopes: seq<Option<Scope>>, created: nat)

  /** Length of the longest common prefix of `a` and `b`. */
  function CommonPrefix<T(==)>(a: seq<T>, b: seq<T>): (p: nat)
    ensures p <= |a| && p <= |b|
    ensures p == |a| || p == |b| || a[p] != b[p]
  {
    PrefixFrom(a, b, 0)
  }

  /** The first position from `k` on where `a` and `b` differ or one of them ends. */
  function PrefixFrom<T(==)>(a: seq<T>, b: seq<T>, k: nat): (p: nat)
    requires k <= |a| && k <= |b|
    ensures k <= p <= |a| && p <= |b|
    ensures p == |a| || p == |b| || a[p] != b[p]
    decreases |a| - k
  {
    if k == |a| || k == |b| || a[k] != b[k] then k
    else PrefixFrom(a, b, k + 1)
  }

  /** Inside the common prefix both sequences agree position by position. */
  lemma {:induction false} PrefixAgrees<T>(a: seq<T>, b: seq<T>, k: nat)
    requires k < CommonPrefix(a, b)
    ensures a[k] == b[k]
  {
    PrefixFromAgrees(a, b, 0, k);
  }

  lemma {:induction false} PrefixFromAgrees<T>(a: seq<T>, b: seq<T>, from: nat, k: nat)
    requires from <= k && from <= |a| && from <= |b| && k < PrefixFrom(a, b, from)
    ensures a[k] == b[k]
    decreases |a| - from
  {
    if from < k {
      PrefixFromAgrees(a, b, from + 1, k);
    }
  }

  /**
   * Length of the longest common suffix of `a` and `b` that leaves the first
   * `lo` positions of both untouched.
   */
  function CommonSuffix<T(==)>(a: seq<T>, b: seq<T>, lo: nat): (s: nat)
    requires lo <= |a| && lo <= |b|
    ensures s <= |a| - lo && s <= |b| - lo
    ensures s == |a| - lo || s == |b| - lo || a[|a| - s - 1] != b[|b| - s - 1]
  {
    SuffixFrom(a, b, lo, 0)
  }

  /** The first distance from the ends, from `t` on, where `a` and `b` differ or reach position `lo`. */
  function SuffixFrom<T(==)>(a: seq<T>, b: seq<T>, lo: nat, t: nat): (s: nat)
    requires lo + t <= |a| && lo + t <= |b|
    ensures t <= s <= |a| - lo && s <= |b| - lo
    ensures s == |a| - lo || s == |b| - lo || a[|a| - s - 1] != b[|b| - s - 1]
    decreases |a| - t
  {
    if lo + t == |a| || lo + t == |b| || a[|a| - t - 1] != b[|b| - t - 1] then t
    else SuffixFrom(a, b, lo, t + 1)
  }

  /** Inside the common suffix both sequences agree at equal distances from their ends. */
  lemma {:induction false} SuffixAgrees<T>(a: seq<T>, b: seq<T>, lo: nat, t: nat)
    requires lo <= |a| && lo <= |b| && 1 <= t <= CommonSuffix(a, b, lo)
    ensures a[|a| - t] == b[|b| - t]
  {
    SuffixFromAgrees(a, b, lo, 0, t);
  }

  lemma {:induction false} SuffixFromAgrees<T>(a: seq<T>, b: seq<T>, lo: nat, from: nat, t: nat)
    requires lo + from <= |a| && lo + from <= |b| && from < t <= SuffixFrom(a, b, lo, from)
    ensures a[|a| - t] == b[|b| - t]
    decreases |a| - from
  {
    if from + 1 < t {
      SuffixFromAgrees(a, b, lo, from + 1, t);
    }
  }

  /**
   * Inside the middle ranges (old positions [p, end), new positions from p
   * on): the old position that new middle position `j` reuses, found by rank
   * among equal values.
   */
  function MiddleSource<T(==)>(items: seq<T>, newItems: seq<T>, p: nat, end: nat, j: nat): (k: Option<nat>)
    requires p <= end <= |items| && p <= j < |newItems|
    ensures k.Some? ==> p <= k.value < end && items[k.value] == newItems[j]
  {
    var v := newItems[j];
    var k := NthIn(items, p, end, v, CountIn(newItems, p, j, v));
    if k >= 0 then Some(k) else None
  }

  /** Two middle positions holding the same value reuse old slots in the same order. */
  lemma {:induction false} MiddleInOrder<T>(items: seq<T>, newItems: seq<T>, p: nat, end: nat, j1: nat, j2: nat)
    requires p <= end <= |items| && p <= j1 < j2 < |newItems| && newItems[j1] == newItems[j2]
    requires MiddleSource(items, newItems, p, end, j1).Some? && MiddleSource(items, newItems, p, end, j2).Some?
    ensures MiddleSource(items, newItems, p, end, j1).value < MiddleSource(items, newItems, p, end, j2).value
  {
    var v := newItems[j1];
    RankIncreasing(newItems, p, j1, j2, v);
    NthInRank(items, p, end, v, CountIn(newItems, p, j1, v));
    NthInRank(items, p, end, v, CountIn(newItems, p, j2, v));
    var k1 := MiddleSource(items, newItems, p, end, j1).value;
    var k2 := MiddleSource(items, newItems, p, end, j2).value;
    if k2 < k1 {
      RankIncreasing(items, p, k2, k1, v);
    }
  }

  /**
   * The new middle position (below `newEnd`) that claims old position `x`:
   * the occurrence of `items[x]` with as many equal values before it, counted
   * from `p`, as `x` has, or -1 when there are too few.
   */
  ghost function ClaimOf<T>(items: seq<T>, newItems: seq<T>, p: nat, newEnd: nat, x: nat): int
    requires p <= x < |items| && p <= newEnd <= |newItems|
  {
    NthIn(newItems, p, newEnd, items[x], CountIn(items, p, x, items[x]))
  }

  /**
   * Middle position `j` reuses old middle position `x` exactly when `j` is the
   * new occurrence of `items[x]` whose rank equals the rank of `x`: walking the
   * old items forward and claiming, for each, the next unclaimed new
   * occurrence of its value assigns the same pairs as MiddleSource.
   */
  lemma {:induction false} MiddleSourceInverse<T>(items: seq<T>, newItems: seq<T>, p: nat, end: nat, newEnd: nat, x: nat, j: nat)
    requires p <= x < end <= |items| && p <= j < newEnd <= |newItems|
    ensures MiddleSource(items, newItems, p, end, j) == Some(x) <==> ClaimOf(items, newItems, p, newEnd, x) == j
  {
    var v := items[x];
    var c := CountIn(items, p, x, v);
    if MiddleSource(items, newItems, p, end, j) == Some(x) {
      NthInRank(items, p, end, newItems[j], CountIn(newItems, p, j, newItems[j]));
      NthInUnique(newItems, p, newEnd, newItems[j], CountIn(newItems, p, j, newItems[j]), j);
    }
    if NthIn(newItems, p, newEnd, v, c) == j {
      NthInRank(newItems, p, newEnd, v, c);
      NthInUnique(items, p, end, v, c, x);
    }
  }

  /** The old position whose output and scope new position `i` reuses, if any. */
  function SourceOf<T(==)>(items: seq<T>, newItems: seq<T>, i: nat): (src: Option<nat>)
    requires i < |newItems|
    ensures src.Some? ==> src.value < |items| && items[src.value] == newItems[i]
  {
    var p := CommonPrefix(items, newItems);
    var s := CommonSuffix(items, newItems, p);
    if i < p then PrefixAgrees(items, newItems, i); Some(i)
    else if i >= |newItems| - s then
      SuffixAgrees(items, newItems, p, |newItems| - i);
      Some(i - |newItems| + |items|)
    else
      MiddleSource(items, newItems, p, |items| - s, i)
  }

  /**
   * A new position is mapped fresh only inside the middle range, and only when
   * every old middle occurrence of its value is already claimed by an earlier
   * new occurrence.
   */
  lemma {:induction false} FreshOnlyWhenExhausted<T>(items: seq<T>, newItems: seq<T>, i: nat)
    requires i < |newItems| && SourceOf(items, newItems, i).None?
    ensures var p := CommonPrefix(items, newItems);
            var s := CommonSuffix(items, newItems, p);
            && p <= i < |newItems| - s
            && CountIn(items, p, |items| - s, newItems[i]) <= CountIn(newItems, p, i, newItems[i])
  {
    var p := CommonPrefix(items, newItems);
    var s := CommonSuffix(items, newItems, p);
    NthInRank(items, p, |items| - s, newItems[i], CountIn(newItems, p, i, newItems[i]));
  }

  /** Where each region of the new list takes its slots from. */
  lemma {:induction false} SourceRegions<T>(items: seq<T>, newItems: seq<T>, i: nat)
    requires i < |newItems|
    ensures var p := CommonPrefix(items, newItems);
            var s := CommonSuffix(items, newItems, p);
            var src := SourceOf(items, newItems, i);
            && (i < p ==> src == Some(i))
            && (i >= |newItems| - s ==> src == Some(i - |newItems| + |items|) && src.value >= |items| - s)
            && (p <= i < |newItems| - s ==> src.Some? ==> p <= src.value < |items| - s)
  {
  }

  /** The length of an output array that started at one length and was written up to the other; both mappers use it. */
  function Max(a: nat, b: nat): nat
  {
    if a < b then b else a
  }

  /** The first `n` slots of the update, built left to right. */
  function ReconcileUpTo<T(==), U>(prev: Baseline<T, U>, mapFn: (T, nat) -> U, newItems: seq<T>, n: nat): (r: Slots<U>)
    requires Aligned(prev) && n <= |newItems|
    ensures |r.mapped| == n && |r.scopes| == n && r.created >= prev.created
    decreases n
  {
    if n == 0 then Slots([], [], prev.created)
    else
      var acc := ReconcileUpTo(prev, mapFn, newItems, n - 1);
      match SourceOf(prev.items, newItems, n - 1)
      case Some(j) =>
        Slots(acc.mapped + [prev.mapped[j]], acc.scopes + [prev.scopes[j]], acc.created)
      case None =>
        Slots(acc.mapped + [mapFn(newItems[n - 1], acc.created)], acc.scopes + [Some(acc.created)], acc.created + 1)
  }

  /** The outcome of reconciling `prev` against `newItems`. */
  function Reconcile<T(==), U>(prev: Baseline<T, U>, mapFn: (T, nat) -> U, newItems: seq<T>): Slots<U>
    requires Aligned(prev)
  {
    ReconcileUpTo(prev, mapFn, newItems, |newItems|)
  }

  /** Up to the end of the common prefix every slot is reused in place and nothing is created. */
  lemma {:induction false} ReconcileInPrefix<T, U>(prev: Baseline<T, U>, mapFn: (T, nat) -> U, newItems: seq<T>, n: nat)
    requires Aligned(prev) && n <= CommonPrefix(prev.items, newItems)
    ensures ReconcileUpTo(prev, mapFn, newItems, n) == Slots(prev.mapped[..n], prev.scopes[..n], prev.created)
    decreases n
  {
    if n > 0 {
      ReconcileInPrefix(prev, mapFn, newItems, n - 1);
      assert SourceOf(prev.items, newItems, n - 1) == Some(n - 1);
      assert prev.mapped[..n] == prev.mapped[..n - 1] + [prev.mapped[n - 1]];
      assert prev.scopes[..n] == prev.scopes[..n - 1] + [prev.scopes[n - 1]];
    }
  }

  /** Later slots never change earlier ones. */
  lemma {:induction false} ReconcilePrefixStable<T, U>(prev: Baseline<T, U>, mapFn: (T, nat) -> U, newItems: seq<T>, i: nat, n: nat)
    requires Aligned(prev) && i <= n <= |newItems|
    ensures ReconcileUpTo(prev, mapFn, newItems, n).mapped[..i] == ReconcileUpTo(prev, mapFn, newItems, i).mapped
    ensures ReconcileUpTo(prev, mapFn, newItems, n).scopes[..i] == ReconcileUpTo(prev, mapFn, newItems, i).scopes
    ensures ReconcileUpTo(prev, mapFn, newItems, n).created >= ReconcileUpTo(prev, mapFn, newItems, i).created
    decreases n
  {
    if i < n {
      ReconcilePrefixStable(prev, mapFn, newItems, i, n - 1);
      var acc := ReconcileUpTo(prev, mapFn, newItems, n - 1);
      var r := ReconcileUpTo(prev, mapFn, newItems, n);
      assert r.mapped[..n - 1] == acc.mapped;
      assert r.scopes[..n - 1] == acc.scopes;
      assert r.mapped[..i] == acc.mapped[..i];
      assert r.scopes[..i] == acc.scopes[..i];
    }
  }

  /** What slot `i` of the update holds: a reused old slot, or a fresh one. */
  lemma {:induction false} ReconcileAt<T, U>(prev: Baseline<T, U>, mapFn: (T, nat) -> U, newItems: seq<T>, i: nat)
    requires Aligned(prev) && i < |newItems|
    ensures var r := Reconcile(prev, mapFn, newItems);
            var t := ReconcileUpTo(prev, mapFn, newItems, i).created;
            match SourceOf(prev.items, newItems, i)
            case Some(j) => r.mapped[i] == prev.mapped[j] && r.scopes[i] == prev.scopes[j]
            case None => r.mapped[i] == mapFn(newItems[i], t) && r.scopes[i] == Some(t) && prev.created <= t < r.created
  {
    ReconcilePrefixStable(prev, mapFn, newItems, i + 1, |newItems|);
    ReconcilePrefixStable(prev, mapFn, newItems, 0, i);
    var r := Reconcile(prev, mapFn, newItems);
    var r1 := ReconcileUpTo(prev, mapFn, newItems, i + 1);
    assert r.mapped[i] == r.mapped[..i + 1][i] == r1.mapped[i];
    assert r.scopes[i] == r.scopes[..i + 1][i] == r1.scopes[i];
  }

  /** Inside the middle range the reference reuses what MiddleSource names. */
  lemma {:induction false} SourceInMiddle<T>(items: seq<T>, newItems: seq<T>, start: nat, end: nat, newEnd: nat, j: nat)
    requires start == CommonPrefix(items, newItems)
    requires end == |items| - CommonSuffix(items, newItems, start) && newEnd == |newItems| - CommonSuffix(items, newItems, start)
    requires start <= j < newEnd
    ensures SourceOf(items, newItems, j) == MiddleSource(items, newItems, start, end, j)
  {
  }

  /**
   * Equal items are reused in order of appearance: of two new positions that
   * hold the same value and both reuse an old slot, the earlier one reuses the
   * earlier old slot.
   */
  lemma {:induction false} SourcesInOrder<T>(items: seq<T>, newItems: seq<T>, i1: nat, i2: nat)
    requires i1 < i2 < |newItems| && newItems[i1] == newItems[i2]
    requires SourceOf(items, newItems, i1).Some? && SourceOf(items, newItems, i2).Some?
    ensures SourceOf(items, newItems, i1).value < SourceOf(items, newItems, i2).value
  {
    var p := CommonPrefix(items, newItems);
    var s := CommonSuffix(items, newItems, p);
    var n := |newItems|;
    var k1 := SourceOf(items, newItems, i1).value;
    var k2 := SourceOf(items, newItems, i2).value;
    SourceRegions(items, newItems, i1);
    SourceRegions(items, newItems, i2);
    if p <= i1 && i2 < n - s {
      SourceInMiddle(items, newItems, p, |items| - s, n - s, i1);
      SourceInMiddle(items, newItems, p, |items| - s, n - s, i2);
      MiddleInOrder(items, newItems, p, |items| - s, i1, i2);
    } else {
      RegionsInOrder(p, s, |items|, n, i1, i2, k1, k2);
    }
  }

  /** Outside a single middle range, reused slots are ordered by region alone. */
  lemma {:induction false} RegionsInOrder(p: nat, s: nat, m: nat, n: nat, i1: nat, i2: nat, k1: nat, k2: nat)
    requires p + s <= m && p + s <= n && i1 < i2 < n
    requires i1 < p ==> k1 == i1
    requires i2 < p ==> k2 == i2
    requires i1 >= n - s ==> k1 == i1 - n + m
    requires i2 >= n - s ==> k2 == i2 - n + m
    requires p <= i1 < n - s ==> p <= k1 < m - s
    requires p <= i2 < n - s ==> p <= k2 < m - s
    requires !(p <= i1 && i2 < n - s)
    ensures k1 < k2
  {
  }

  /** No old slot is reused by two new positions. */
  lemma {:induction false} SourcesInjective<T>(items: seq<T>, newItems: seq<T>, i1: nat, i2: nat)
    requires i1 < |newItems| && i2 < |newItems| && i1 != i2
    requires SourceOf(items, newItems, i1).Some? && SourceOf(items, newItems, i2).Some?
    ensures SourceOf(items, newItems, i1) != SourceOf(items, newItems, i2)
  {
    if SourceOf(items, newItems, i1) == SourceOf(items, newItems, i2) {
      if i1 < i2 {
        SourcesInOrder(items, newItems, i1, i2);
      } else {
        SourcesInOrder(items, newItems, i2, i1);
      }
    }
  }

  /** Re-feeding the same items reuses every slot in place: nothing is remapped or dropped. */
  lemma {:induction false} NoOpReconcile<T, U>(prev: Baseline<T, U>, mapFn: (T, nat) -> U)
    requires Aligned(prev)
    ensures Reconcile(prev, mapFn, prev.items) == Slots(prev.mapped, prev.scopes, prev.created)
  {
    ReconcileInPrefix(prev, mapFn, prev.items, |prev.items|);
    assert prev.mapped[..|prev.items|] == prev.mapped;
    assert prev.scopes[..|prev.items|] == prev.scopes;
  }

  /**
   * With a mapping function that ignores its history, and a baseline that maps
   * every item through it, the update maps every new item through it.
   */
  lemma {:induction false} PureMapElementwise<T, U>(prev: Baseline<T, U>, mapFn: (T, nat) -> U, g: T -> U, newItems: seq<T>)
    requires Aligned(prev)
    requires forall x, k :: mapFn(x, k) == g(x)
    requires forall j :: 0 <= j < |prev.items| ==> prev.mapped[j] == g(prev.items[j])
    ensures forall i :: 0 <= i < |newItems| ==> Reconcile(prev, mapFn, newItems).mapped[i] == g(newItems[i])
  {
    forall i | 0 <= i < |newItems|
      ensures Reconcile(prev, mapFn, newItems).mapped[i] == g(newItems[i])
    {
      ReconcileAt(prev, mapFn, newItems, i);
    }
  }

  /** With no previous items every new item is mapped fresh, in order, each in its own new scope. */
  lemma {:induction false} FromEmpty<T, U>(prev: Baseline<T, U>, mapFn: (T, nat) -> U, newItems: seq<T>, n: nat)
    requires Aligned(prev) && prev.items == [] && n <= |newItems|
    ensures var r := ReconcileUpTo(prev, mapFn, newItems, n);
            && r.created == prev.created + n
            && (forall i :: 0 <= i < n ==> r.mapped[i] == mapFn(newItems[i], prev.created + i))
            && (forall i :: 0 <= i < n ==> r.scopes[i] == Some(prev.created + i))
    decreases n
  {
    if n > 0 {
      FromEmpty(prev, mapFn, newItems, n - 1);
      assert SourceOf(prev.items, newItems, n - 1) == None;
    }
  }

  /** Fresh scopes are numbered in the order of their positions. */
  lemma {:induction false} FreshTokensIncrease<T, U>(prev: Baseline<T, U>, mapFn: (T, nat) -> U, newItems: seq<T>, i: nat, j: nat)
    requires Aligned(prev) && i < j < |newItems|
    requires SourceOf(prev.items, newItems, i).None?
    ensures ReconcileUpTo(prev, mapFn, newItems, i).created < ReconcileUpTo(prev, mapFn, newItems, j).created
  {
    var acc := ReconcileUpTo(prev, mapFn, newItems, i);
    assert ReconcileUpTo(prev, mapFn, newItems, i + 1).created == acc.created + 1;
    ReconcilePrefixStable(prev, mapFn, newItems, i + 1, j);
  }

  /** Two slots of an update never share a scope. */
  lemma {:induction false} ReconcileScopesDistinct<T, U>(prev: Baseline<T, U>, mapFn: (T, nat) -> U, newItems: seq<T>, i: nat, j: nat)
    requires WellFormed(prev) && i < j < |newItems|
    ensures Reconcile(prev, mapFn, newItems).scopes[i] != Reconcile(prev, mapFn, newItems).scopes[j]
  {
    var si := SourceOf(prev.items, newItems, i);
    var sj := SourceOf(prev.items, newItems, j);
    ReconcileAt(prev, mapFn, newItems, i);
    ReconcileAt(prev, mapFn, newItems, j);
    if si.Some? && sj.Some? {
      SourcesInjective(prev.items, newItems, i, j);
    } else if si.None? && sj.None? {
      FreshTokensIncrease(prev, mapFn, newItems, i, j);
    }
  }

  /**
   * An update of a well-formed baseline is well formed again: every slot owns
   * a distinct live scope.
   */
  lemma {:induction false} ReconcileWellFormed<T, U>(prev: Baseline<T, U>, mapFn: (T, nat) -> U, newItems: seq<T>)
    requires WellFormed(prev)
    ensures var r := Reconcile(prev, mapFn, newItems);
            WellFormed(Baseline(newItems, r.mapped, r.scopes, r.created))
  {
    var r := Reconcile(prev, mapFn, newItems);
    forall i | 0 <= i < |newItems|
      ensures r.scopes[i].Some? && r.scopes[i].value < r.created
    {
      ReconcileAt(prev, mapFn, newItems, i);
    }
    forall i, j | 0 <= i < j < |newItems|
      ensures r.scopes[i] != r.scopes[j]
    {
      ReconcileScopesDistinct(prev, mapFn, newItems, i, j);
    }
  }

  /**
   * The scope of an old slot that no new position reuses is dropped: no slot
   * of the updated state refers to it.
   */
  lemma {:induction false} ScopeDropped<T, U>(prev: Baseline<T, U>, mapFn: (T, nat) -> U, newItems: seq<T>, k: nat)
    requires WellFormed(prev) && k < |prev.items|
    requires forall i :: 0 <= i < |newItems| ==> SourceOf(prev.items, newItems, i) != Some(k)
    ensures prev.scopes[k] !in Reconcile(prev, mapFn, newItems).scopes
  {
    var r := Reconcile(prev, mapFn, newItems);
    forall i | 0 <= i < |newItems|
      ensures r.scopes[i] != prev.scopes[k]
    {
      ReconcileAt(prev, mapFn, newItems, i);
    }
  }

  /** ... and the scope of a reused slot moves with its output. */
  lemma {:induction false} ScopeKept<T, U>(prev: Baseline<T, U>, mapFn: (T, nat) -> U, newItems: seq<T>, i: nat)
    requires Aligned(prev) && i < |newItems| && SourceOf(prev.items, newItems, i).Some?
    ensures var k := SourceOf(prev.items, newItems, i).value;
            && Reconcile(prev, mapFn, newItems).scopes[i] == prev.scopes[k]
            && Reconcile(prev, mapFn, newItems).mapped[i] == prev.mapped[k]
  {
    ReconcileAt(prev, mapFn, newItems, i);
  }
}
