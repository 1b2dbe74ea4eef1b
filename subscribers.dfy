/**
 * Ordered lists of identities in which an entry is added only when absent:
 * the subscriber list of a signal cell (maple-core/src/reactive.rs:170-220)
 * and the dependency list of a running effect (reactive.rs:8-11, 31-61).
 * Identities stand for the `Rc` pointers the source compares by address.
 */
module Subscribers {

  /** No identity occurs twice. */
  predicate NoDup<T(==)>(l: seq<T>)
  {
    forall i, j :: 0 <= i < j < |l| ==> l[i] != l[j]
  }

  /**
   * Adds `x` at the end unless it is already present (the identity search
   * followed by `push` in `subscribe`, reactive.rs:184-197, and in `get`,
   * reactive.rs:35-59).
   */
  function PushAbsent<T(==,!new)>(l: seq<T>, x: T): (r: seq<T>)
    ensures x in r
    ensures forall y :: y in r <==> y in l || y == x
    ensures l <= r && |r| <= |l| + 1
    ensures x !in l ==> |r| == |l| + 1
    ensures NoDup(l) ==> NoDup(r)
  {
    if x in l then l else l + [x]
  }

  /** Adding the same identity twice adds it once. */
  lemma {:induction false} PushAbsentIdempotent<T(!new)>(l: seq<T>, x: T)
    ensures PushAbsent(PushAbsent(l, x), x) == PushAbsent(l, x)
  {
  }

  /** The entries among the first `n` of `l` that differ from `x`, in order. */
  function RemoveUpTo<T(==,!new)>(l: seq<T>, n: nat, x: T): (r: seq<T>)
    requires n <= |l|
    ensures |r| <= n
    ensures forall y :: y in r ==> y != x && y in l
    decreases n
  {
    if n == 0 then []
    else RemoveUpTo(l, n - 1, x) + (if l[n - 1] == x then [] else [l[n - 1]])
  }

  /** Every entry other than `x` among the first `n` survives the removal. */
  lemma {:induction false} RemoveUpToKeeps<T(!new)>(l: seq<T>, n: nat, x: T, k: nat)
    requires k < n <= |l| && l[k] != x
    ensures l[k] in RemoveUpTo(l, n, x)
    decreases n
  {
    if k < n - 1 {
      RemoveUpToKeeps(l, n - 1, x, k);
    }
  }

  /** Removing an absent identity leaves the first `n` entries as they are. */
  lemma {:induction false} RemoveUpToAbsent<T(!new)>(l: seq<T>, n: nat, x: T)
    requires n <= |l| && forall k :: 0 <= k < n ==> l[k] != x
    ensures RemoveUpTo(l, n, x) == l[..n]
    decreases n
  {
    if n > 0 {
      RemoveUpToAbsent(l, n - 1, x);
      assert l[..n] == l[..n - 1] + [l[n - 1]];
    }
  }

  /** Removal looks only at the first `n` entries. */
  lemma {:induction false} RemoveUpToPrefix<T(!new)>(a: seq<T>, b: seq<T>, n: nat, x: T)
    requires n <= |a| && n <= |b| && forall k :: 0 <= k < n ==> a[k] == b[k]
    ensures RemoveUpTo(a, n, x) == RemoveUpTo(b, n, x)
    decreases n
  {
    if n > 0 {
      RemoveUpToPrefix(a, b, n - 1, x);
    }
  }

  /** Removal keeps a list without duplicates free of them. */
  lemma {:induction false} RemoveUpToNoDup<T(!new)>(l: seq<T>, n: nat, x: T)
    requires n <= |l| && NoDup(l)
    ensures NoDup(RemoveUpTo(l, n, x))
    ensures forall y :: y in RemoveUpTo(l, n, x) ==> exists k :: 0 <= k < n && l[k] == y
    decreases n
  {
    if n > 0 {
      RemoveUpToNoDup(l, n - 1, x);
      var r := RemoveUpTo(l, n - 1, x);
      forall y | y in r ensures y != l[n - 1] {
        var k :| 0 <= k < n - 1 && l[k] == y;
      }
      if l[n - 1] != x {
        var r2 := r + [l[n - 1]];
        forall i, j | 0 <= i < j < |r2| ensures r2[i] != r2[j] {
          if j == |r| {
            assert r2[i] in r;
          }
        }
      }
    }
  }

  /** The facts Remove promises about its window. */
  lemma {:induction false} RemoveFacts<T(!new)>(l: seq<T>, x: T)
    ensures forall y :: y in l && y != x ==> y in RemoveUpTo(l, |l|, x)
    ensures x !in l ==> RemoveUpTo(l, |l|, x) == l
    ensures NoDup(l) ==> NoDup(RemoveUpTo(l, |l|, x))
  {
    forall y | y in l && y != x ensures y in RemoveUpTo(l, |l|, x) {
      var k :| 0 <= k < |l| && l[k] == y;
      RemoveUpToKeeps(l, |l|, x, k);
    }
    if x !in l {
      RemoveUpToAbsent(l, |l|, x);
    }
    if NoDup(l) {
      RemoveUpToNoDup(l, |l|, x);
    }
  }

  /**
   * The intended `unsubscribe` (the doc comment at reactive.rs:199): every
   * entry other than `x` stays, in its order, and `x` is gone.  The filter
   * as written keeps the opposite set (see KeepOnly).
   */
  function Remove<T(==,!new)>(l: seq<T>, x: T): (r: seq<T>)
    ensures forall y :: y in r <==> y in l && y != x
    ensures x !in l ==> r == l
    ensures NoDup(l) ==> NoDup(r)
    ensures |r| <= |l|
  {
    RemoveFacts(l, x);
    RemoveUpTo(l, |l|, x)
  }

  /** Removal is a filter: it distributes over appending one more entry. */
  lemma {:induction false} RemoveAppend<T(!new)>(l: seq<T>, y: T, x: T)
    ensures Remove(l + [y], x) == Remove(l, x) + (if y == x then [] else [y])
  {
    RemoveUpToPrefix(l + [y], l, |l|, x);
  }

  /** Subscribing a new handler and then unsubscribing it restores the list. */
  lemma {:induction false} RemoveUndoesPush<T(!new)>(l: seq<T>, x: T)
    requires x !in l
    ensures Remove(PushAbsent(l, x), x) == l
  {
    RemoveAppend(l, x, x);
  }

  /** A prefix of a list without repeats has none either. */
  lemma {:induction false} NoDupPrefix<T>(l: seq<T>, m: nat, n: nat)
    requires m <= n <= |l| && NoDup(l[..n])
    ensures NoDup(l[..m])
  {
    forall i, j | 0 <= i < j < m ensures l[..m][i] != l[..m][j] {
      assert l[..n][i] != l[..n][j];
    }
  }

  /**
   * The filter of `unsubscribe` as written (reactive.rs:201-212) over the
   * first `n` entries: its predicate is the identity test itself, so it
   * keeps every entry equal to `x` and drops all others.
   */
  function KeepOnlyUpTo<T(==,!new)>(l: seq<T>, n: nat, x: T): (r: seq<T>)
    requires n <= |l|
    ensures forall y :: y in r <==> y == x && x in l[..n]
    ensures x !in l[..n] ==> r == []
    ensures NoDup(l[..n]) && x in l[..n] ==> r == [x]
    decreases n
  {
    if n == 0 then []
    else
      var r0 := KeepOnlyUpTo(l, n - 1, x);
      var r := r0 + (if l[n - 1] == x then [l[n - 1]] else []);
      assert l[..n] == l[..n - 1] + [l[n - 1]];
      if NoDup(l[..n]) && x in l[..n] then
        if x in l[..n - 1] then
          var k :| 0 <= k < n - 1 && l[k] == x;
          assert l[..n][k] != l[..n][n - 1];
          NoDupPrefix(l, n - 1, n);
          r
        else
          assert l[n - 1] == x;
          assert r == [x];
          r
      else r
  }

  /**
   * The whole list filtered as written: the handler stays exactly when it
   * was there, once if it was there once, and every other entry goes.
   */
  function KeepOnly<T(==,!new)>(l: seq<T>, x: T): (r: seq<T>)
    ensures forall y :: y in r <==> y == x && x in l
    ensures NoDup(l) && x in l ==> r == [x]
  {
    assert l[..|l|] == l;
    KeepOnlyUpTo(l, |l|, x)
  }

  /**
   * With handlers h and k subscribed, unsubscribing h as written leaves h
   * alone in the list, whereas the documented behaviour leaves k alone.
   */
  lemma UnsubscribeKeepsOnlyHandler(h: nat, k: nat)
    requires h != k
    ensures KeepOnly([h, k], h) == [h]
    ensures Remove([h, k], h) == [k]
  {
    assert Remove([h, k], h) == RemoveUpTo([h, k], 2, h);
  }
}
