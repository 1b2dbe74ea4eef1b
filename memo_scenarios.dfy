/**
 * The memo and selector tests of maple-core/src/reactive.rs:554-655, on
 * any top-level world (no effect running) where their signals are
 * distinct.  A memo's update callback is subscribed once, when the memo is
 * created, to what its derivation read then; a `set` of such a signal
 * calls the update, which re-derives and `set`s the memo unless the
 * comparator calls the two values the same.
 */
module MemoScenarios {
  import opened Subscribers
  import opened Reactive
  import opened ReactiveLaws
  import opened EffectScenarios

  /**
   * A `set` on a signal whose only subscriber is a memo's update callback
   * (reactive.rs:126-139 calling the closure of reactive.rs:389-399)
   * stores the value and runs the update one level deeper.
   */
  lemma {:induction false} SetRunsUpdate(w: World, s: SignalId, v: int, u: CallbackId, m: SignalId, d: Derivation, same: (int, int) -> bool, fuel: nat)
    requires Valid(w) && s < |w.cells| && !w.cells[s].borrowed
    requires u < |w.callbacks| && w.callbacks[u] == Update(m, d, same) && w.cells[s].subscribers == [u]
    ensures m < |w.cells| && DerivationIn(d, |w.cells|)
    ensures Set(w, s, v, fuel + 1) == RunUpdate(UpdateValue(w, s, v), m, d, same, fuel)
  {
    var w1 := UpdateValue(w, s, v);
    CallUpdate(w1, u, fuel + 1);
    assert Set(w, s, v, fuel + 1) == Notify(w1, [u], 0, fuel + 1);
    match Call(w1, u, fuel + 1)
    case Panic(f) =>
    case Done(w2) =>
      assert Notify(w2, [u], 1, fuel + 1) == Done(w2);
  }

  /** Outside every effect, reading registers nothing. */
  lemma {:induction false} TrackAllAtTop(w: World, l: seq<SignalId>)
    requires Valid(w) && IdsBelow(l, |w.cells|) && w.contexts == []
    ensures TrackAll(w, l) == w
    decreases |l|
  {
    if l != [] {
      assert Track(w, l[0]) == w;
      TrackAllAtTop(w, l[1..]);
    }
  }

  /** Outside every effect, a derivation changes only the values its prelude writes. */
  lemma {:induction false} DeriveAtTop(w: World, d: Derivation)
    requires Valid(w) && DerivationIn(d, |w.cells|) && Unobserved(w.cells, d.prelude) && w.contexts == []
    ensures AfterDerive(w, d) == w.(cells := Run(w.cells, d.prelude).after)
  {
    TrackAllAtTop(w, DerivationReads(w.cells, d));
  }

  /**
   * A memo `m` at top level whose update callback `u` is the only
   * subscriber of `s`, whose own list is empty, and whose derivation's
   * writes reach no subscriber.
   */
  ghost predicate MemoWorld(w: World, s: SignalId, u: CallbackId, m: SignalId, d: Derivation, same: (int, int) -> bool)
  {
    && Valid(w) && w.contexts == [] && s < |w.cells| && m < |w.cells| && s != m
    && u < |w.callbacks| && w.callbacks[u] == Update(m, d, same)
    && w.cells[s].subscribers == [u] && !w.cells[s].borrowed
    && w.cells[m].subscribers == [] && !w.cells[m].borrowed
    && DerivationIn(d, |w.cells|) && Unobserved(w.cells, d.prelude)
  }

  /** MemoWorld holds again on cells of the same shape. */
  lemma {:induction false} MemoWorldShape(w: World, w': World, s: SignalId, u: CallbackId, m: SignalId, d: Derivation, same: (int, int) -> bool)
    requires MemoWorld(w, s, u, m, d, same)
    requires Valid(w') && SameShape(w.cells, w'.cells) && w'.callbacks == w.callbacks && w'.contexts == w.contexts
    ensures MemoWorld(w', s, u, m, d, same)
  {
    UnobservedShape(w.cells, w'.cells, d.prelude);
  }

  /**
   * The update a `set` of `s` runs, for a comparator that never calls two
   * values the same: the derivation runs on the new values and the memo is
   * `set` to its result, which nobody is subscribed to.
   */
  lemma {:induction false} MemoUpdate(w: World, m: SignalId, d: Derivation, same: (int, int) -> bool, fuel: nat)
    requires Valid(w) && w.contexts == [] && m < |w.cells| && DerivationIn(d, |w.cells|) && Unobserved(w.cells, d.prelude)
    requires w.cells[m].subscribers == [] && !w.cells[m].borrowed && forall a, b :: !same(a, b)
    ensures var t := Run(w.cells, d.prelude);
            RunUpdate(w, m, d, same, fuel) == Done(UpdateValue(w.(cells := t.after), m, DerivedValue(w.cells, d)))
  {
    var t := Run(w.cells, d.prelude);
    DeriveAtTop(w, d);
    SelectorSetsWhenChanged(w, m, d, same, fuel);
    SetUnobserved(w.(cells := t.after), m, DerivedValue(w.cells, d), fuel);
  }

  /**
   * `s.set(v)` in a MemoWorld whose comparator never calls two values the
   * same (`create_memo`, reactive.rs:348-354): the memo holds what the
   * derivation yields on the new values, every other signal what the
   * derivation's prelude leaves, and the MemoWorld holds again.
   */
  lemma {:induction false} MemoSet(w: World, s: SignalId, u: CallbackId, m: SignalId, d: Derivation, same: (int, int) -> bool, v: int, fuel: nat)
    returns (w': World)
    requires MemoWorld(w, s, u, m, d, same) && forall a, b :: !same(a, b)
    ensures var c := UpdateValue(w, s, v).cells;
            && Unobserved(c, d.prelude)
            && Set(w, s, v, fuel + 1) == Done(w')
            && w'.cells[m].value == DerivedValue(c, d)
            && (forall i :: 0 <= i < |w.cells| && i != m ==> w'.cells[i].value == Run(c, d.prelude).after[i].value)
    ensures MemoWorld(w', s, u, m, d, same)
  {
    var w1 := UpdateValue(w, s, v);
    SetRunsUpdate(w, s, v, u, m, d, same, fuel);
    MemoWorldShape(w, w1, s, u, m, d, same);
    MemoUpdate(w1, m, d, same, fuel);
    var t := Run(w1.cells, d.prelude);
    w' := UpdateValue(w1.(cells := t.after), m, DerivedValue(w1.cells, d));
    MemoWorldShape(w1, w', s, u, m, d, same);
  }

  /** The derivation of `memo` (reactive.rs:558-561): `*state.get() * 2`. */
  function Doubled(state: SignalId): Derivation
  {
    Derivation(Skip, Times(Read(state), Lit(2)))
  }

  /** The derivation of `memo_only_run_once` (reactive.rs:578-585): count the run, then `*state.get() * 2`. */
  function CountedDouble(state: SignalId, counter: SignalId): Derivation
  {
    Derivation(Write(counter, Plus(ReadUntracked(counter), Lit(1))), Times(Read(state), Lit(2)))
  }

  /** The derivation of `untracked_memo` (reactive.rs:615-618): `*state.get_untracked() * 2`. */
  function UntrackedDouble(state: SignalId): Derivation
  {
    Derivation(Skip, Times(ReadUntracked(state), Lit(2)))
  }

  /** Doubled reads `state` and yields twice its value. */
  lemma {:induction false} DoubledRun(cells: seq<Cell>, state: SignalId)
    requires state < |cells|
    ensures DerivationIn(Doubled(state), |cells|) && Unobserved(cells, Skip) && Targets(Skip) == {}
    ensures DerivationReads(cells, Doubled(state)) == [state]
    ensures DerivedValue(cells, Doubled(state)) == 2 * cells[state].value
    ensures Run(cells, Skip).after == cells
  {
    assert Reads(Times(Read(state), Lit(2))) == [state];
    assert ExprIn(Lit(2), |cells|);
    assert Value(cells, Times(Read(state), Lit(2))) == Value(cells, Read(state)) * Value(cells, Lit(2));
  }

  /** CountedDouble bumps the counter, reads `state` and yields twice its value. */
  lemma {:induction false} CountedDoubleRun(cells: seq<Cell>, state: SignalId, counter: SignalId)
    requires Unwatched(cells, counter) && state < |cells| && state != counter
    ensures var d := CountedDouble(state, counter);
            && DerivationIn(d, |cells|) && Unobserved(cells, d.prelude) && Targets(d.prelude) == {counter}
            && DerivationReads(cells, d) == [state]
            && DerivedValue(cells, d) == 2 * cells[state].value
            && Run(cells, d.prelude).after == cells[counter := cells[counter].(value := cells[counter].value + 1)]
  {
    var d := CountedDouble(state, counter);
    CountingRun(cells, counter, Skip);
    assert ExprIn(Plus(ReadUntracked(counter), Lit(1)), |cells|);
    assert Value(cells, Plus(ReadUntracked(counter), Lit(1))) == cells[counter].value + 1;
    assert Reads(Plus(ReadUntracked(counter), Lit(1))) == [];
    assert Reads(Times(Read(state), Lit(2))) == [state];
    var after := Run(cells, d.prelude).after;
    assert after[state] == cells[state] && |after| == |cells|;
    assert ExprIn(Lit(2), |after|);
    assert Value(after, Times(Read(state), Lit(2))) == Value(after, Read(state)) * Value(after, Lit(2));
  }

  /** UntrackedDouble reads nothing with `get` and yields twice the value of `state`. */
  lemma {:induction false} UntrackedDoubleRun(cells: seq<Cell>, state: SignalId)
    requires state < |cells|
    ensures DerivationIn(UntrackedDouble(state), |cells|) && Unobserved(cells, Skip)
    ensures DerivationReads(cells, UntrackedDouble(state)) == []
    ensures DerivedValue(cells, UntrackedDouble(state)) == 2 * cells[state].value
  {
    assert Reads(Times(ReadUntracked(state), Lit(2))) == [];
    assert ExprIn(Lit(2), |cells|);
    assert Value(cells, Times(ReadUntracked(state), Lit(2))) == Value(cells, ReadUntracked(state)) * Value(cells, Lit(2));
  }

  /**
   * The subscriber lists `create_selector_with` (reactive.rs:377-403)
   * leaves at top level when its derivation reads only `s` with `get` and
   * writes neither `s` nor anything watched: the update callback is the
   * only subscriber of `s`, and the derivation's writes still reach no
   * subscriber.
   */
  lemma {:induction false} SelectorCreatedLists(w: World, s: SignalId, d: Derivation, same: (int, int) -> bool, fuel: nat)
    returns (w': World)
    requires Valid(w) && Unborrowed(w) && s < |w.cells| && w.cells[s].subscribers == []
    requires DerivationIn(d, |w.cells|) && Unobserved(w.cells, d.prelude)
    requires DerivationReads(w.cells, d) == [s] && s !in Targets(d.prelude)
    ensures CreateSelectorWith(w, d, same, fuel) == Done(w')
    ensures Valid(w') && Unborrowed(w') && w'.contexts == w.contexts
    ensures |w'.cells| == |w.cells| + 1 && w'.callbacks == w.callbacks + [Noop, Update(|w.cells|, d, same)]
    ensures w'.cells[s].subscribers == [|w.callbacks| + 1]
    ensures forall i :: 0 <= i < |w.cells| && i != s ==> w'.cells[i].subscribers == w.cells[i].subscribers
    ensures DerivationIn(d, |w'.cells|) && Unobserved(w'.cells, d.prelude)
  {
    SelectorSubscriberLists(w, d, same, fuel);
    w' := CreateSelectorWith(w, d, same, fuel).world;
    SelectorListsAfter(w.cells, w'.cells, s, d, |w.callbacks| + 1);
  }

  /** SelectorCreatedLists on the cell lists alone. */
  lemma {:induction false} SelectorListsAfter(c: seq<Cell>, c': seq<Cell>, s: SignalId, d: Derivation, u: CallbackId)
    requires |c'| == |c| + 1 && s < |c| && c[s].subscribers == [] && (forall i :: 0 <= i < |c| ==> !c[i].borrowed)
    requires DerivationIn(d, |c|) && Unobserved(c, d.prelude)
    requires DerivationReads(c, d) == [s] && s !in Targets(d.prelude)
    requires forall i :: 0 <= i < |c| ==>
               c'[i].subscribers == if i in DerivationReads(c, d) then c[i].subscribers + [u] else c[i].subscribers
    requires (forall i :: 0 <= i < |c| ==> c'[i].borrowed == c[i].borrowed) && !c'[|c|].borrowed
    ensures c'[s].subscribers == [u] && (forall i :: 0 <= i < |c'| ==> !c'[i].borrowed)
    ensures forall i :: 0 <= i < |c| && i != s ==> c'[i].subscribers == c[i].subscribers
    ensures DerivationIn(d, |c'|) && Unobserved(c', d.prelude)
  {
    StmtInGrows(d.prelude, |c|, |c'|);
    ExprInGrows(d.result, |c|, |c'|);
    forall t | t in Targets(d.prelude)
      ensures t < |c'| && c'[t].subscribers == [] && !c'[t].borrowed
    {
      assert t < |c| && c[t].subscribers == [] && t !in DerivationReads(c, d);
    }
  }

  /**
   * `create_selector_with` at top level under the same conditions: the
   * result is a MemoWorld for `s` holding the derived value, and the other
   * signals hold what the derivation's prelude leaves.
   */
  lemma {:induction false} SelectorCreated(w: World, s: SignalId, d: Derivation, same: (int, int) -> bool, fuel: nat)
    returns (w': World)
    requires Valid(w) && Unborrowed(w) && w.contexts == [] && s < |w.cells| && w.cells[s].subscribers == []
    requires DerivationIn(d, |w.cells|) && Unobserved(w.cells, d.prelude)
    requires DerivationReads(w.cells, d) == [s] && s !in Targets(d.prelude)
    ensures CreateSelectorWith(w, d, same, fuel) == Done(w')
    ensures |w'.cells| == |w.cells| + 1 && Unborrowed(w') && MemoWorld(w', s, |w.callbacks| + 1, |w.cells|, d, same)
    ensures w'.callbacks == w.callbacks + [Noop, Update(|w.cells|, d, same)]
    ensures forall i :: 0 <= i < |w.cells| && i != s ==> w'.cells[i].subscribers == w.cells[i].subscribers
    ensures w'.cells[|w.cells|].value == DerivedValue(w.cells, d)
    ensures forall i :: 0 <= i < |w.cells| ==> w'.cells[i].value == Run(w.cells, d.prelude).after[i].value
  {
    w' := SelectorCreatedLists(w, s, d, same, fuel);
    SelectorCreation(w, d, same, fuel);
  }

  /**
   * `create_memo` (reactive.rs:348-354) at top level on a derivation that
   * reads only `s` with `get` and does not write it: the memo holds the
   * derived value, and the result is a MemoWorld whose comparator never
   * calls two values the same.
   */
  lemma {:induction false} MemoCreated(w: World, s: SignalId, d: Derivation, fuel: nat) returns (w': World)
    requires Valid(w) && Unborrowed(w) && w.contexts == [] && s < |w.cells| && w.cells[s].subscribers == []
    requires DerivationIn(d, |w.cells|) && Unobserved(w.cells, d.prelude)
    requires DerivationReads(w.cells, d) == [s] && s !in Targets(d.prelude)
    ensures CreateMemo(w, d, fuel) == Done(w')
    ensures var u := |w.callbacks| + 1;
            && |w'.cells| == |w.cells| + 1 && |w'.callbacks| == u + 1 && Unborrowed(w')
            && w'.callbacks == w.callbacks + [Noop, w'.callbacks[u]] && w'.callbacks[u].Update?
            && MemoWorld(w', s, u, |w.cells|, d, w'.callbacks[u].same)
            && (forall a, b :: !w'.callbacks[u].same(a, b))
    ensures forall i :: 0 <= i < |w.cells| && i != s ==> w'.cells[i].subscribers == w.cells[i].subscribers
    ensures w'.cells[|w.cells|].value == DerivedValue(w.cells, d)
    ensures forall i :: 0 <= i < |w.cells| ==> w'.cells[i].value == Run(w.cells, d.prelude).after[i].value
  {
    var never := (a: int, b: int) => false;
    assert CreateMemo(w, d, fuel) == CreateSelectorWith(w, d, never, fuel);
    w' := SelectorCreated(w, s, d, never, fuel);
  }

  /**
   * The whole of `memo` (reactive.rs:554-569) on a fresh `state`: the memo
   * starts at twice the value of `state` and follows each `set` of it.
   */
  lemma {:induction false} MemoFollows(w: World, state: SignalId, v1: int, v2: int, fuel: nat)
    requires Valid(w) && Unborrowed(w) && w.contexts == [] && state < |w.cells| && w.cells[state].subscribers == []
    ensures var m := |w.cells|;
            && DerivationIn(Doubled(state), m)
            && var r0 := CreateMemo(w, Doubled(state), fuel);
            && r0.Done? && m < |r0.world.cells|
            && Get(r0.world, m).1 == 2 * w.cells[state].value
            && var r1 := Set(r0.world, state, v1, fuel + 1);
            && r1.Done? && Get(r1.world, m).1 == 2 * v1
            && var r2 := Set(r1.world, state, v2, fuel + 1);
            && r2.Done? && Get(r2.world, m).1 == 2 * v2
  {
    var d := Doubled(state);
    var m := |w.cells|;
    var u := |w.callbacks| + 1;
    DoubledRun(w.cells, state);
    var w0 := MemoCreated(w, state, d, fuel);
    var same := w0.callbacks[u].same;
    DoubledRun(UpdateValue(w0, state, v1).cells, state);
    var w1 := MemoSet(w0, state, u, m, d, same, v1, fuel);
    DoubledRun(UpdateValue(w1, state, v2).cells, state);
    var w2 := MemoSet(w1, state, u, m, d, same, v2, fuel);
  }

  /**
   * The whole of `memo_only_run_once` (reactive.rs:571-592): the
   * derivation runs once at creation and once per `set` of `state`, and
   * reading the memo afterwards runs nothing.
   */
  lemma {:induction false} MemoRunsOnce(w: World, state: SignalId, counter: SignalId, v: int, fuel: nat)
    requires Valid(w) && Unborrowed(w) && w.contexts == [] && Unwatched(w.cells, counter)
    requires state < |w.cells| && state != counter && w.cells[state].subscribers == []
    ensures var m := |w.cells|;
            var n := w.cells[counter].value;
            && DerivationIn(CountedDouble(state, counter), m)
            && var r0 := CreateMemo(w, CountedDouble(state, counter), fuel);
            && r0.Done? && m < |r0.world.cells|
            && r0.world.cells[counter].value == n + 1
            && Get(r0.world, m).1 == 2 * w.cells[state].value
            && var r1 := Set(r0.world, state, v, fuel + 1);
            && r1.Done? && r1.world.cells[counter].value == n + 2
            && var g := Get(r1.world, m);
            && g.1 == 2 * v && g.0.cells[counter].value == n + 2
  {
    var d := CountedDouble(state, counter);
    var m := |w.cells|;
    var u := |w.callbacks| + 1;
    CountedDoubleRun(w.cells, state, counter);
    var w0 := MemoCreated(w, state, d, fuel);
    var same := w0.callbacks[u].same;
    assert counter in Targets(d.prelude);
    var c := UpdateValue(w0, state, v).cells;
    assert c[counter] == w0.cells[counter];
    CountedDoubleRun(c, state, counter);
    var w1 := MemoSet(w0, state, u, m, d, same, v, fuel);
  }

  /**
   * The whole of `untracked_memo` (reactive.rs:611-624): a derivation that
   * reads `state` only with `get_untracked` subscribes to nothing, so a
   * `set` of `state` leaves the memo as it was.
   */
  lemma {:induction false} UntrackedMemo(w: World, state: SignalId, v: int, fuel: nat)
    requires Valid(w) && Unborrowed(w) && w.contexts == [] && state < |w.cells| && w.cells[state].subscribers == []
    ensures var m := |w.cells|;
            && DerivationIn(UntrackedDouble(state), m)
            && var r0 := CreateMemo(w, UntrackedDouble(state), fuel);
            && r0.Done? && m < |r0.world.cells|
            && Get(r0.world, m).1 == 2 * w.cells[state].value
            && var r1 := Set(r0.world, state, v, fuel);
            && r1.Done? && GetUntracked(r1.world, state) == v
            && Get(r1.world, m).1 == 2 * w.cells[state].value
  {
    var d := UntrackedDouble(state);
    var never := (a: int, b: int) => false;
    UntrackedDoubleRun(w.cells, state);
    assert CreateMemo(w, d, fuel) == CreateSelectorWith(w, d, never, fuel);
    SelectorSubscriberLists(w, d, never, fuel);
    SelectorCreation(w, d, never, fuel);
    var w0 := CreateMemo(w, d, fuel).world;
    assert w0.cells[state].subscribers == [];
    SetUnobserved(w0, state, v, fuel);
  }

  /** The effect of `selector` (reactive.rs:636-644): it counts its runs and reads the selector `m` with `get`. */
  function WatchBody(counter: SignalId, m: SignalId): Stmt
  {
    Counting(counter, Do(Read(m)))
  }

  /** WatchBody bumps the counter and reads `m` once. */
  lemma {:induction false} WatchRun(cells: seq<Cell>, counter: SignalId, m: SignalId)
    requires Unwatched(cells, counter) && m < |cells|
    ensures StmtIn(WatchBody(counter, m), |cells|) && Unobserved(cells, WatchBody(counter, m))
    ensures Run(cells, WatchBody(counter, m)).tracked == [m]
    ensures Run(cells, WatchBody(counter, m)).after == cells[counter := cells[counter].(value := cells[counter].value + 1)]
  {
    assert Reads(Read(m)) == [m];
    CountingRun(cells, counter, Do(Read(m)));
  }

  /**
   * The world of `selector` once its effect exists: `m` is the selector
   * on Doubled(`state`) with update callback `u`, whose only subscriber is
   * the effect's `execute` callback `h`, and `m` holds twice `state`.
   */
  ghost predicate SelectorWorld(w: World, state: SignalId, counter: SignalId, u: CallbackId, m: SignalId, h: CallbackId, run: RecordId)
  {
    && Valid(w) && Unborrowed(w) && w.contexts == []
    && state < |w.cells| && m < |w.cells| && Unwatched(w.cells, counter)
    && state != m && state != counter && m != counter
    && u < |w.callbacks| && w.callbacks[u].Update? && w.callbacks[u].memo == m && w.callbacks[u].derived == Doubled(state)
    && (forall a, b :: w.callbacks[u].same(a, b) <==> a == b)
    && h < |w.callbacks| && w.callbacks[h] == Execute(run, WatchBody(counter, m)) && run < |w.records|
    && w.cells[state].subscribers == [u] && w.cells[m].subscribers == [h]
    && w.cells[m].value == 2 * w.cells[state].value
  }

  /**
   * `create_selector` at top level on Doubled(`state`) beside an unwatched
   * counter (reactive.rs:628-633): the selector holds twice `state`, its
   * update callback is the only subscriber of `state`, and nobody
   * subscribes to the selector or the counter yet.
   */
  lemma {:induction false} SelectorMade(w: World, state: SignalId, counter: SignalId, fuel: nat)
    requires Valid(w) && Unborrowed(w) && w.contexts == [] && Unwatched(w.cells, counter)
    requires state < |w.cells| && state != counter && w.cells[state].subscribers == []
    ensures DerivationIn(Doubled(state), |w.cells|)
    ensures var r := CreateSelector(w, Doubled(state), fuel);
            var m := |w.cells|;
            var u := |w.callbacks| + 1;
            && r.Done? && Unborrowed(r.world) && Unwatched(r.world.cells, counter)
            && r.world.callbacks[u].Update? && r.world.callbacks[u].memo == m && r.world.callbacks[u].derived == Doubled(state)
            && r.world.cells[state].subscribers == [u] && r.world.cells[m].subscribers == []
            && r.world.cells[state].value == w.cells[state].value
            && r.world.cells[counter].value == w.cells[counter].value
            && r.world.cells[m].value == 2 * w.cells[state].value
  {
    var d := Doubled(state);
    var eq := (a: int, b: int) => a == b;
    DoubledRun(w.cells, state);
    assert CreateSelector(w, d, fuel) == CreateSelectorWith(w, d, eq, fuel);
    var w' := SelectorCreated(w, state, d, eq, fuel);
  }

  /**
   * `create_effect` of WatchBody on the selector (reactive.rs:636-644):
   * the counter goes up by one and the effect becomes the only subscriber
   * of the selector, which gives a SelectorWorld.
   */
  lemma {:induction false} WatchCreated(w: World, state: SignalId, counter: SignalId, u: CallbackId, m: SignalId, fuel: nat)
    requires Valid(w) && Unborrowed(w) && w.contexts == [] && Unwatched(w.cells, counter)
    requires state < |w.cells| && m < |w.cells| && state != m && state != counter && m != counter
    requires u < |w.callbacks| && w.callbacks[u].Update? && w.callbacks[u].memo == m && w.callbacks[u].derived == Doubled(state)
    requires forall a, b :: w.callbacks[u].same(a, b) <==> a == b
    requires w.cells[state].subscribers == [u] && w.cells[m].subscribers == []
    requires w.cells[m].value == 2 * w.cells[state].value
    ensures StmtIn(WatchBody(counter, m), |w.cells|)
    ensures var r := CreateEffect(w, WatchBody(counter, m), fuel + 1);
            && r.Done? && SelectorWorld(r.world, state, counter, u, m, |w.callbacks|, |w.records|)
            && r.world.cells[counter].value == w.cells[counter].value + 1
            && r.world.cells[state].value == w.cells[state].value
  {
    var body := WatchBody(counter, m);
    WatchRun(w.cells, counter, m);
    EffectCreation(w, body, fuel);
    CreationSubscriberLists(w, body, fuel);
  }

  /**
   * `state.set(v)` in a SelectorWorld when twice `v` is what the selector
   * already holds (reactive.rs:647-649): the update compares equal, so the
   * effect does not run and only `state` is stored.
   */
  lemma {:induction false} SelectorSetSame(w: World, state: SignalId, counter: SignalId, u: CallbackId, m: SignalId, h: CallbackId, run: RecordId, v: int, fuel: nat)
    requires SelectorWorld(w, state, counter, u, m, h, run) && 2 * v == w.cells[m].value
    ensures Set(w, state, v, fuel + 1) == Done(UpdateValue(w, state, v))
  {
    var d := Doubled(state);
    var same := w.callbacks[u].same;
    var w1 := UpdateValue(w, state, v);
    SetRunsUpdate(w, state, v, u, m, d, same, fuel);
    DoubledRun(w1.cells, state);
    DeriveAtTop(w1, d);
    SelectorSilentWhenSame(w1, m, d, same, fuel);
  }

  /**
   * `state.set(v)` in a SelectorWorld when twice `v` differs from what the
   * selector holds (reactive.rs:651-653): the update compares unequal, so
   * it `set`s the selector to twice `v` after storing `v`.
   */
  lemma {:induction false} SelectorSetChanged(w: World, state: SignalId, counter: SignalId, u: CallbackId, m: SignalId, h: CallbackId, run: RecordId, v: int, fuel: nat)
    requires SelectorWorld(w, state, counter, u, m, h, run) && 2 * v != w.cells[m].value
    ensures Set(w, state, v, fuel + 1) == Set(UpdateValue(w, state, v), m, 2 * v, fuel)
  {
    var d := Doubled(state);
    var same := w.callbacks[u].same;
    var w1 := UpdateValue(w, state, v);
    SetRunsUpdate(w, state, v, u, m, d, same, fuel);
    DoubledRun(w1.cells, state);
    DeriveAtTop(w1, d);
    SelectorSetsWhenChanged(w1, m, d, same, fuel);
  }

  /**
   * A `set` of the selector while the effect is its only subscriber
   * (reactive.rs:126-139): the effect runs once more, so the counter goes
   * up by one, and every other signal keeps its value.
   */
  lemma {:induction false} WatchRerun(w: World, counter: SignalId, m: SignalId, h: CallbackId, run: RecordId, x: int, fuel: nat)
    returns (w': World)
    requires Valid(w) && Unwatched(w.cells, counter) && m < |w.cells| && m != counter && !w.cells[m].borrowed
    requires h < |w.callbacks| && w.callbacks[h] == Execute(run, WatchBody(counter, m)) && w.cells[m].subscribers == [h]
    ensures Set(w, m, x, fuel + 1) == Done(w')
    ensures w'.cells[m].value == x && w'.cells[counter].value == w.cells[counter].value + 1
    ensures forall i :: 0 <= i < |w.cells| && i != m && i != counter ==> w'.cells[i].value == w.cells[i].value
  {
    var body := WatchBody(counter, m);
    SetReruns(w, m, x, h, run, body, fuel);
    var w1 := UpdateValue(w, m, x);
    WatchRun(w1.cells, counter, m);
    w' := Rerun(w1, run, body, fuel);
  }

  /**
   * The two `set`s of `selector` (reactive.rs:647-653) in a SelectorWorld:
   * storing the value `state` already holds runs nothing and leaves the
   * world as it was; storing any other `b` moves the selector to twice `b`
   * and runs the effect once more.
   */
  lemma {:induction false} SelectorSets(w: World, state: SignalId, counter: SignalId, u: CallbackId, m: SignalId, h: CallbackId, run: RecordId, b: int, fuel: nat)
    requires SelectorWorld(w, state, counter, u, m, h, run) && b != w.cells[state].value
    ensures Set(w, state, w.cells[state].value, fuel + 1) == Done(w)
    ensures var r := Set(w, state, b, fuel + 2);
            && r.Done? && r.world.cells[state].value == b && r.world.cells[m].value == 2 * b
            && r.world.cells[counter].value == w.cells[counter].value + 1
  {
    SelectorSetSame(w, state, counter, u, m, h, run, w.cells[state].value, fuel);
    UpdateSame(w.cells, state);
    SelectorSetChanged(w, state, counter, u, m, h, run, b, fuel + 1);
    var w1 := UpdateValue(w, state, b);
    var w' := WatchRerun(w1, counter, m, h, run, 2 * b, fuel);
  }

  /**
   * The whole of `selector` (reactive.rs:626-655), with `state` starting
   * at `a`: the selector holds twice `a` and the effect has run once;
   * setting `state` to `a` again runs nothing; setting it to any other `b`
   * moves the selector to twice `b` and runs the effect once more.
   */
  lemma {:induction false} SelectorScenario(w: World, state: SignalId, counter: SignalId, b: int, fuel: nat)
    requires Valid(w) && Unborrowed(w) && w.contexts == [] && Unwatched(w.cells, counter)
    requires state < |w.cells| && state != counter && w.cells[state].subscribers == [] && b != w.cells[state].value
    ensures var m := |w.cells|;
            var a := w.cells[state].value;
            var n := w.cells[counter].value;
            && DerivationIn(Doubled(state), m)
            && var r0 := CreateSelector(w, Doubled(state), fuel);
            && r0.Done? && Get(r0.world, m).1 == 2 * a
            && StmtIn(WatchBody(counter, m), |r0.world.cells|)
            && var r1 := CreateEffect(r0.world, WatchBody(counter, m), fuel + 1);
            && r1.Done? && r1.world.cells[counter].value == n + 1 && m < |r1.world.cells|
            && var r2 := Set(r1.world, state, a, fuel + 1);
            && r2 == Done(r1.world)
            && var r3 := Set(r2.world, state, b, fuel + 2);
            && r3.Done? && r3.world.cells[m].value == 2 * b && r3.world.cells[counter].value == n + 2
  {
    var d := Doubled(state);
    var m := |w.cells|;
    var u := |w.callbacks| + 1;
    SelectorMade(w, state, counter, fuel);
    var w0 := CreateSelector(w, d, fuel).world;
    WatchCreated(w0, state, counter, u, m, fuel);
    var w1 := CreateEffect(w0, WatchBody(counter, m), fuel + 1).world;
    SelectorSets(w1, state, counter, u, m, |w0.callbacks|, |w0.records|, b, fuel);
  }

  /**
   * The two memos of `dependency_on_memo` (reactive.rs:594-603): `m1`
   * doubles `state` and is watched only by the update callback `u2` of
   * `m2`, which doubles `m1`; the update callback `u1` of `m1` is the only
   * subscriber of `state`.  Both comparators never call two values the
   * same.
   */
  ghost predicate MemoChain(w: World, state: SignalId, u1: CallbackId, m1: SignalId, u2: CallbackId, m2: SignalId)
  {
    && u2 < |w.callbacks| && w.callbacks[u2].Update? && MemoWorld(w, m1, u2, m2, Doubled(m1), w.callbacks[u2].same)
    && (forall a, b :: !w.callbacks[u2].same(a, b))
    && state < |w.cells| && state != m1 && state != m2 && !w.cells[state].borrowed
    && u1 < |w.callbacks| && w.callbacks[u1].Update? && w.callbacks[u1].memo == m1 && w.callbacks[u1].derived == Doubled(state)
    && (forall a, b :: !w.callbacks[u1].same(a, b))
    && w.cells[state].subscribers == [u1]
  }

  /** Two memos added one after the other, the second on the first, make a MemoChain. */
  lemma {:induction false} ChainFromMemos(w: World, w0: World, w1: World, state: SignalId)
    requires MemoAdded(w, w0, state) && MemoAdded(w0, w1, |w.cells|)
    ensures MemoChain(w1, state, |w.callbacks| + 1, |w.cells|, |w0.callbacks| + 1, |w0.cells|)
  {
    assert w1.callbacks[|w.callbacks| + 1] == w0.callbacks[|w.callbacks| + 1];
  }

  /**
   * `state.set(v)` in a MemoChain (reactive.rs:607-608): the update of `m1`
   * sets it to twice `v`, whose update in turn sets `m2` to twice that.
   */
  lemma {:induction false} MemoChainSet(w: World, state: SignalId, u1: CallbackId, m1: SignalId, u2: CallbackId, m2: SignalId, v: int, fuel: nat)
    returns (w': World)
    requires MemoChain(w, state, u1, m1, u2, m2)
    ensures Set(w, state, v, fuel + 2) == Done(w')
    ensures w'.cells[state].value == v && w'.cells[m1].value == 2 * v && w'.cells[m2].value == 4 * v
  {
    var d2 := Doubled(m1);
    var same2 := w.callbacks[u2].same;
    var w1 := UpdateValue(w, state, v);
    MemoChainStep(w, state, u1, m1, u2, m2, v, fuel);
    MemoWorldShape(w, w1, m1, u2, m2, d2, same2);
    w' := MemoSet(w1, m1, u2, m2, d2, same2, 2 * v, fuel);
    DoubledRun(UpdateValue(w1, m1, 2 * v).cells, m1);
  }

  /** The first step of MemoChainSet: the update of `m1` sets it to twice `v`. */
  lemma {:induction false} MemoChainStep(w: World, state: SignalId, u1: CallbackId, m1: SignalId, u2: CallbackId, m2: SignalId, v: int, fuel: nat)
    requires MemoChain(w, state, u1, m1, u2, m2)
    ensures Set(w, state, v, fuel + 2) == Set(UpdateValue(w, state, v), m1, 2 * v, fuel + 1)
  {
    var d1 := Doubled(state);
    var same1 := w.callbacks[u1].same;
    SetRunsUpdate(w, state, v, u1, m1, d1, same1, fuel + 1);
    var w1 := UpdateValue(w, state, v);
    DoubledRun(w1.cells, state);
    DeriveAtTop(w1, d1);
    SelectorSetsWhenChanged(w1, m1, d1, same1, fuel + 1);
  }

  /**
   * `w'` is `w` after creating a memo of Doubled(`s`) at top level on a
   * fresh `s`: the memo is the new cell and holds twice `s`, its update
   * callback comes after a Noop and is the only subscriber of `s`, and no
   * other signal's list changed.
   */
  ghost predicate MemoAdded(w: World, w': World, s: SignalId)
  {
    var u := |w.callbacks| + 1;
    && s < |w.cells| && |w'.cells| == |w.cells| + 1
    && |w'.callbacks| == u + 1 && w'.callbacks == w.callbacks + [Noop, w'.callbacks[u]]
    && w'.callbacks[u].Update? && Unborrowed(w')
    && MemoWorld(w', s, u, |w.cells|, Doubled(s), w'.callbacks[u].same)
    && (forall a, b :: !w'.callbacks[u].same(a, b))
    && w'.cells[|w.cells|].value == 2 * w.cells[s].value
    && forall i :: 0 <= i < |w.cells| && i != s ==> w'.cells[i].subscribers == w.cells[i].subscribers
  }

  /** MemoCreated for Doubled(`state`), reaching `w'`: the memo holds twice `state`. */
  lemma {:induction false} DoubledMemo(w: World, state: SignalId, fuel: nat) returns (w': World)
    requires Valid(w) && Unborrowed(w) && w.contexts == [] && state < |w.cells| && w.cells[state].subscribers == []
    ensures DerivationIn(Doubled(state), |w.cells|) && CreateMemo(w, Doubled(state), fuel) == Done(w')
    ensures MemoAdded(w, w', state)
  {
    DoubledRun(w.cells, state);
    w' := MemoCreated(w, state, Doubled(state), fuel);
  }

  /**
   * The whole of `dependency_on_memo` (reactive.rs:594-609): a memo of a
   * memo holds four times `state`, and follows a `set` of `state`.
   */
  lemma {:induction false} DependencyOnMemo(w: World, state: SignalId, v: int, fuel: nat) returns (w0: World, w1: World, w2: World)
    requires Valid(w) && Unborrowed(w) && w.contexts == [] && state < |w.cells| && w.cells[state].subscribers == []
    ensures DerivationIn(Doubled(state), |w.cells|) && CreateMemo(w, Doubled(state), fuel) == Done(w0)
    ensures Valid(w0) && DerivationIn(Doubled(|w.cells|), |w0.cells|) && CreateMemo(w0, Doubled(|w.cells|), fuel) == Done(w1)
    ensures Valid(w1) && state < |w1.cells| && |w0.cells| < |w1.cells| && Get(w1, |w0.cells|).1 == 4 * w.cells[state].value
    ensures Set(w1, state, v, fuel + 2) == Done(w2)
    ensures Valid(w2) && |w0.cells| < |w2.cells| && Get(w2, |w0.cells|).1 == 4 * v
  {
    w0, w1 := MemoChainMade(w, state, fuel);
    w2 := MemoChainSet(w1, state, |w.callbacks| + 1, |w.cells|, |w0.callbacks| + 1, |w0.cells|, v, fuel);
  }

  /**
   * The two creations of `dependency_on_memo` (reactive.rs:596-605) on a
   * fresh `state`: the memo of the memo holds four times `state`, and the
   * result is a MemoChain.
   */
  lemma {:induction false} MemoChainMade(w: World, state: SignalId, fuel: nat) returns (w0: World, w1: World)
    requires Valid(w) && Unborrowed(w) && w.contexts == [] && state < |w.cells| && w.cells[state].subscribers == []
    ensures DerivationIn(Doubled(state), |w.cells|) && CreateMemo(w, Doubled(state), fuel) == Done(w0)
    ensures Valid(w0) && DerivationIn(Doubled(|w.cells|), |w0.cells|) && CreateMemo(w0, Doubled(|w.cells|), fuel) == Done(w1)
    ensures MemoChain(w1, state, |w.callbacks| + 1, |w.cells|, |w0.callbacks| + 1, |w0.cells|)
    ensures w1.cells[|w0.cells|].value == 4 * w.cells[state].value
  {
    w0 := DoubledMemo(w, state, fuel);
    w1 := MemoOfMemo(w, w0, state, fuel);
  }

  /** The second creation of MemoChainMade, on Doubled(`m1`) where `m1` is the memo `w0` added to `w`. */
  lemma {:induction false} MemoOfMemo(w: World, w0: World, state: SignalId, fuel: nat) returns (w1: World)
    requires MemoAdded(w, w0, state)
    ensures Valid(w0) && DerivationIn(Doubled(|w.cells|), |w0.cells|) && CreateMemo(w0, Doubled(|w.cells|), fuel) == Done(w1)
    ensures MemoChain(w1, state, |w.callbacks| + 1, |w.cells|, |w0.callbacks| + 1, |w0.cells|)
    ensures w1.cells[|w0.cells|].value == 4 * w.cells[state].value
  {
    w1 := DoubledMemo(w0, |w.cells|, fuel);
    ChainFromMemos(w, w0, w1, state);
  }
}
