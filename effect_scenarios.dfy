/**
 * The effect tests of maple-core/src/reactive.rs:483-552, on any world
 * where their signals are distinct: an effect that counts its runs in a
 * signal nobody subscribes to, and reads other signals with `get`.
 * Truth is a non-zero value.  Each test's `set` of a signal whose only
 * subscriber is the effect is SetReruns followed by the re-run lemma, and
 * SubscribeOnce and RecreateDependencies chain a whole test from the
 * creation of the effect through its last `set`.
 */
module EffectScenarios {
  import opened Subscribers
  import opened Reactive
  import opened ReactiveLaws

  /** `counter.set(*counter.get_untracked() + 1)`, then `rest`. */
  function Counting(counter: SignalId, rest: Stmt): Stmt
  {
    Then(Write(counter, Plus(ReadUntracked(counter), Lit(1))), rest)
  }

  /** The body of `effect_should_subscribe_once` (reactive.rs:492-498). */
  function ReadTwiceBody(state: SignalId, counter: SignalId): Stmt
  {
    Counting(counter, Then(Do(Read(state)), Do(Read(state))))
  }

  /** The body of `effect_should_recreate_dependencies` (reactive.rs:525-533). */
  function BranchBody(cond: SignalId, s1: SignalId, s2: SignalId, counter: SignalId): Stmt
  {
    Counting(counter, If(Read(cond), Do(Read(s1)), Do(Read(s2))))
  }

  /** A counter nobody subscribes to or borrows. */
  predicate Unwatched(cells: seq<Cell>, counter: SignalId)
  {
    counter < |cells| && cells[counter].subscribers == [] && !cells[counter].borrowed
  }

  /** A counting run bumps the counter, leaves every other cell, and reads what `rest` reads. */
  lemma {:induction false} CountingRun(cells: seq<Cell>, counter: SignalId, rest: Stmt)
    requires Unwatched(cells, counter) && StmtIn(rest, |cells|) && WriteFree(rest)
    ensures StmtIn(Counting(counter, rest), |cells|) && Unobserved(cells, Counting(counter, rest))
    ensures var t := Run(cells, Counting(counter, rest));
            var c := cells[counter := cells[counter].(value := cells[counter].value + 1)];
            && t.after == c
            && t.tracked == Run(c, rest).tracked
  {
    var c := cells[counter := cells[counter].(value := cells[counter].value + 1)];
    assert ExprIn(ReadUntracked(counter), |cells|) && ExprIn(Lit(1), |cells|);
    assert ExprIn(Plus(ReadUntracked(counter), Lit(1)), |cells|);
    assert Targets(Counting(counter, rest)) == {counter};
    assert Value(cells, Plus(ReadUntracked(counter), Lit(1))) == cells[counter].value + 1;
    assert Run(cells, Write(counter, Plus(ReadUntracked(counter), Lit(1)))).after == c;
    assert Reads(Plus(ReadUntracked(counter), Lit(1))) == [];
    assert Run(c, rest).after == c;
  }

  /** The two reads of ReadTwiceBody, in order. */
  lemma {:induction false} ReadTwiceRun(cells: seq<Cell>, state: SignalId, counter: SignalId)
    requires Unwatched(cells, counter) && state < |cells|
    ensures StmtIn(ReadTwiceBody(state, counter), |cells|) && Unobserved(cells, ReadTwiceBody(state, counter))
    ensures Run(cells, ReadTwiceBody(state, counter)).tracked == [state, state]
    ensures Run(cells, ReadTwiceBody(state, counter)).after == cells[counter := cells[counter].(value := cells[counter].value + 1)]
  {
    var rest := Then(Do(Read(state)), Do(Read(state)));
    CountingRun(cells, counter, rest);
  }

  /** The reads of BranchBody: the condition, then the branch it selects. */
  lemma {:induction false} BranchRun(cells: seq<Cell>, cond: SignalId, s1: SignalId, s2: SignalId, counter: SignalId)
    requires Unwatched(cells, counter) && cond < |cells| && s1 < |cells| && s2 < |cells| && cond != counter
    ensures StmtIn(BranchBody(cond, s1, s2, counter), |cells|) && Unobserved(cells, BranchBody(cond, s1, s2, counter))
    ensures Run(cells, BranchBody(cond, s1, s2, counter)).tracked ==
              if cells[cond].value != 0 then [cond, s1] else [cond, s2]
    ensures Run(cells, BranchBody(cond, s1, s2, counter)).after == cells[counter := cells[counter].(value := cells[counter].value + 1)]
  {
    var rest := If(Read(cond), Do(Read(s1)), Do(Read(s2)));
    CountingRun(cells, counter, rest);
  }

  /** Registering two different signals keeps both, in order. */
  lemma {:induction false} PushDistinct(a: SignalId, b: SignalId)
    requires a != b
    ensures PushAll([], [a, b]) == [a, b]
  {
    assert PushAbsent([], a) == [a];
    assert [a, b][1..] == [b];
    assert PushAbsent([a], b) == [a, b];
    assert PushAll([a], [b]) == PushAll([a, b], []);
  }

  /**
   * A `set` on a signal whose only subscriber is an effect's `execute`
   * (reactive.rs:126-139) stores the value and re-runs that effect.
   */
  lemma {:induction false} SetReruns(w: World, s: SignalId, v: int, h: CallbackId, run: RecordId, body: Stmt, fuel: nat)
    requires Valid(w) && s < |w.cells| && !w.cells[s].borrowed
    requires h < |w.callbacks| && w.callbacks[h] == Execute(run, body) && w.cells[s].subscribers == [h]
    ensures run < |w.records| && StmtIn(body, |w.cells|)
    ensures Set(w, s, v, fuel + 1) == RunEffect(UpdateValue(w, s, v), run, body, fuel)
  {
    var w1 := UpdateValue(w, s, v);
    CallEffect(w1, h, fuel + 1);
    assert Set(w, s, v, fuel + 1) == Notify(w1, [h], 0, fuel + 1);
    match Call(w1, h, fuel + 1)
    case Panic(f) =>
    case Done(w2) =>
      assert Notify(w2, [h], 1, fuel + 1) == Done(w2);
  }

  /**
   * SetReruns followed by the re-run, reaching `w'`: the effect's record
   * depends on what the body read on the new values, and signals `a` and
   * `b` hold what the body leaves in them.
   */
  lemma {:induction false} SetRerunsWith(w: World, s: SignalId, v: int, h: CallbackId, run: RecordId, body: Stmt, fuel: nat, a: SignalId, b: SignalId)
    returns (w': World)
    requires Valid(w) && s < |w.cells| && !w.cells[s].borrowed
    requires h < |w.callbacks| && w.callbacks[h] == Execute(run, body) && w.cells[s].subscribers == [h]
    requires Unobserved(UpdateValue(w, s, v).cells, body) && a < |w.cells| && b < |w.cells|
    ensures StmtIn(body, |w.cells|)
    ensures Set(w, s, v, fuel + 1) == Done(w')
    ensures var t := Run(UpdateValue(w, s, v).cells, body);
            && w'.records[run].dependencies == PushAll([], t.tracked)
            && w'.cells[a].value == t.after[a].value && w'.cells[b].value == t.after[b].value
  {
    SetReruns(w, s, v, h, run, body, fuel);
    w' := Rerun(UpdateValue(w, s, v), run, body, fuel);
  }

  /** EffectRebuildsDependencies, reaching `w'`. */
  lemma {:induction false} Rerun(w: World, run: RecordId, body: Stmt, fuel: nat)
    returns (w': World)
    requires Valid(w) && run < |w.records| && StmtIn(body, |w.cells|) && Unobserved(w.cells, body)
    ensures RunEffect(w, run, body, fuel) == Done(w')
    ensures var t := Run(w.cells, body);
            && w'.records[run].dependencies == PushAll([], t.tracked)
            && forall c :: 0 <= c < |w.cells| ==> w'.cells[c].value == t.after[c].value
  {
    EffectRebuildsDependencies(w, run, body, fuel);
    w' := RunEffect(w, run, body, fuel).world;
  }

  /**
   * Creating the effect of `effect_should_subscribe_once`
   * (reactive.rs:485-501): the counter goes up by one, the effect depends
   * on `state` once, and its callback comes last among the subscribers of
   * `state` and is not a subscriber of the counter.
   */
  lemma {:induction false} ReadTwiceCreation(w: World, state: SignalId, counter: SignalId, fuel: nat)
    requires Valid(w) && Unwatched(w.cells, counter) && state < |w.cells| && state != counter
    ensures StmtIn(ReadTwiceBody(state, counter), |w.cells|)
    ensures var r := CreateEffect(w, ReadTwiceBody(state, counter), fuel + 1);
            var h := |w.callbacks|;
            && r.Done?
            && r.world.cells[counter].value == w.cells[counter].value + 1
            && r.world.records[|w.records|] == Running(h, [state])
            && r.world.cells[state].subscribers == w.cells[state].subscribers + [h]
            && r.world.cells[counter].subscribers == []
  {
    var body := ReadTwiceBody(state, counter);
    ReadTwiceRun(w.cells, state, counter);
    PushTwice(state);
    EffectCreation(w, body, fuel);
    CreationSubscriberLists(w, body, fuel);
  }

  /** Registering the same signal twice keeps one entry (reactive.rs:35-59). */
  lemma {:induction false} PushTwice(s: SignalId)
    ensures PushAll([], [s, s]) == [s]
  {
    assert PushAbsent([], s) == [s];
    assert [s, s][1..] == [s];
    assert PushAll([s], [s]) == PushAll([s], []);
  }

  /**
   * A re-run of the effect of `effect_should_subscribe_once`
   * (reactive.rs:303-336 with the body of reactive.rs:492-498): the
   * counter goes up by one, `state` keeps its value, and the effect depends
   * on `state` once and is subscribed to it.
   */
  lemma {:induction false} ReadTwiceRerun(w: World, run: RecordId, state: SignalId, counter: SignalId, fuel: nat)
    returns (w': World)
    requires Valid(w) && Unwatched(w.cells, counter) && state < |w.cells| && state != counter && run < |w.records|
    ensures StmtIn(ReadTwiceBody(state, counter), |w.cells|)
    ensures RunEffect(w, run, ReadTwiceBody(state, counter), fuel) == Done(w')
    ensures w'.cells[state].value == w.cells[state].value
    ensures w'.cells[counter].value == w.cells[counter].value + 1
    ensures w'.records[run].dependencies == [state]
    ensures w.records[run].execute in w'.cells[state].subscribers
  {
    var body := ReadTwiceBody(state, counter);
    ReadTwiceRun(w.cells, state, counter);
    PushTwice(state);
    EffectRebuildsDependencies(w, run, body, fuel);
    w' := RunEffect(w, run, body, fuel).world;
  }

  /**
   * Creating the effect of `effect_should_recreate_dependencies`
   * (reactive.rs:508-536) while the condition holds: the first run bumps
   * the counter, leaves the condition as it was, and records that the
   * effect depends on the condition and `state1`.
   */
  lemma {:induction false} BranchCreation(w: World, cond: SignalId, s1: SignalId, s2: SignalId, counter: SignalId, fuel: nat)
    requires Valid(w) && BranchSignals(w.cells, cond, s1, s2, counter)
    requires w.cells[cond].value != 0
    ensures StmtIn(BranchBody(cond, s1, s2, counter), |w.cells|)
    ensures var r := CreateEffect(w, BranchBody(cond, s1, s2, counter), fuel + 1);
            && r.Done?
            && r.world.cells[counter].value == w.cells[counter].value + 1
            && r.world.cells[cond].value == w.cells[cond].value
            && r.world.records[|w.records|] == Running(|w.callbacks|, [cond, s1])
  {
    BranchRun(w.cells, cond, s1, s2, counter);
    PushDistinct(cond, s1);
    EffectCreation(w, BranchBody(cond, s1, s2, counter), fuel);
  }

  /**
   * The subscriber lists after that creation: the new callback comes last
   * among the subscribers of the condition and of `state1`, and the lists
   * of `state2` and of the counter are as they were.
   */
  lemma {:induction false} BranchCreationLists(w: World, cond: SignalId, s1: SignalId, s2: SignalId, counter: SignalId, fuel: nat)
    requires Valid(w) && BranchSignals(w.cells, cond, s1, s2, counter)
    requires w.cells[cond].value != 0
    ensures StmtIn(BranchBody(cond, s1, s2, counter), |w.cells|)
    ensures var r := CreateEffect(w, BranchBody(cond, s1, s2, counter), fuel + 1);
            var h := |w.callbacks|;
            && r.Done? && |r.world.cells| == |w.cells|
            && r.world.cells[cond].subscribers == w.cells[cond].subscribers + [h]
            && r.world.cells[s1].subscribers == w.cells[s1].subscribers + [h]
            && r.world.cells[s2].subscribers == w.cells[s2].subscribers
            && r.world.cells[counter].subscribers == []
  {
    BranchRun(w.cells, cond, s1, s2, counter);
    CreationSubscriberLists(w, BranchBody(cond, s1, s2, counter), fuel);
  }

  /** The signals of `effect_should_recreate_dependencies`: present, distinct, and a counter nobody watches. */
  predicate BranchSignals(cells: seq<Cell>, cond: SignalId, s1: SignalId, s2: SignalId, counter: SignalId)
  {
    && cond < |cells| && s1 < |cells| && s2 < |cells| && Unwatched(cells, counter)
    && cond != counter && s1 != counter && s2 != counter && s2 != cond && s1 != cond && s2 != s1
  }

  /** Signal `s` has the effect's callback `h` as its only subscriber if it is among `deps`, and no subscriber otherwise. */
  predicate SoleSubscriber(w: World, h: CallbackId, deps: seq<SignalId>, s: SignalId)
  {
    s < |w.cells| && w.cells[s].subscribers == if s in deps then [h] else []
  }

  /**
   * A run of `body` on `cells` that reads `cond` and then `next`, and
   * changes no value but the counter's, which goes up by one.
   */
  ghost predicate BranchRuns(cells: seq<Cell>, body: Stmt, cond: SignalId, next: SignalId, counter: SignalId)
  {
    && StmtIn(body, |cells|) && Unobserved(cells, body)
    && var t := Run(cells, body);
       && t.tracked == [cond, next]
       && forall s :: 0 <= s < |cells| ==> t.after[s].value == if s == counter then cells[s].value + 1 else cells[s].value
  }

  /**
   * What BranchBody does on any cells where the test's signals are
   * distinct: it bumps the counter and reads the condition, then `state1`
   * when the condition holds and `state2` otherwise.
   */
  ghost predicate BranchLike(body: Stmt, cond: SignalId, s1: SignalId, s2: SignalId, counter: SignalId)
  {
    forall cells: seq<Cell> {:trigger BranchSignals(cells, cond, s1, s2, counter)} :: BranchSignals(cells, cond, s1, s2, counter) ==>
      BranchRuns(cells, body, cond, if cells[cond].value != 0 then s1 else s2, counter)
  }

  /** BranchBody behaves as BranchLike says. */
  lemma {:induction false} BranchBodyLike(cond: SignalId, s1: SignalId, s2: SignalId, counter: SignalId)
    ensures BranchLike(BranchBody(cond, s1, s2, counter), cond, s1, s2, counter)
  {
    forall cells: seq<Cell> | BranchSignals(cells, cond, s1, s2, counter)
      ensures BranchRuns(cells, BranchBody(cond, s1, s2, counter), cond, if cells[cond].value != 0 then s1 else s2, counter)
    {
      BranchRun(cells, cond, s1, s2, counter);
    }
  }

  /**
   * A world of that test after a run of its effect (callback `h`, record
   * `run`, body `body`) that read the condition and then `on`: the effect
   * depends on those two and is their only subscriber, the other branch
   * signal has no subscriber, and nothing is borrowed.
   */
  predicate BranchWorld(w: World, h: CallbackId, run: RecordId, body: Stmt, cond: SignalId, s1: SignalId, s2: SignalId, counter: SignalId, on: SignalId)
  {
    && Valid(w) && Unborrowed(w) && BranchSignals(w.cells, cond, s1, s2, counter)
    && (on == s1 || on == s2)
    && h < |w.callbacks| && run < |w.records|
    && w.callbacks[h] == Execute(run, body)
    && w.records[run] == Running(h, [cond, on])
    && w.cells[cond].subscribers == [h] && w.cells[on].subscribers == [h]
    && w.cells[if on == s1 then s2 else s1].subscribers == []
  }

  /** Removing the only subscriber leaves none. */
  lemma {:induction false} RemoveOnly(h: CallbackId)
    ensures Remove([h], h) == []
  {
    assert Remove([h], h) == RemoveUpTo([h], 1, h);
    assert RemoveUpTo([h], 1, h) == RemoveUpTo([h], 0, h) + [];
  }

  /**
   * A signal whose only possible subscriber is the effect, present exactly
   * when the effect depends on it, stays that way across a re-run: after
   * it the effect is its only subscriber if the body read it, and it has
   * none otherwise.
   */
  lemma {:induction false} RerunSoleSubscriber(w: World, run: RecordId, body: Stmt, fuel: nat, s: SignalId)
    returns (w': World)
    requires Valid(w) && run < |w.records| && StmtIn(body, |w.cells|) && Unobserved(w.cells, body)
    requires SoleSubscriber(w, w.records[run].execute, w.records[run].dependencies, s)
    ensures RunEffect(w, run, body, fuel) == Done(w')
    ensures SoleSubscriber(w', w.records[run].execute, Run(w.cells, body).tracked, s)
  {
    RemoveOnly(w.records[run].execute);
    RerunSubscriberLists(w, run, body, fuel);
    w' := RunEffect(w, run, body, fuel).world;
  }

  /**
   * A re-run (reactive.rs:303-336) in which four signals keep the effect as
   * their only possible subscriber: the record depends on what the body
   * read, each of the four has the effect as its only subscriber exactly
   * when the body read it, and the values are those the body leaves.
   */
  lemma {:induction false} SoleRerun(w: World, run: RecordId, body: Stmt, fuel: nat, a: SignalId, b: SignalId, c: SignalId, d: SignalId)
    returns (w': World)
    requires Valid(w) && run < |w.records| && StmtIn(body, |w.cells|) && Unobserved(w.cells, body)
    requires var h := w.records[run].execute;
             var deps := w.records[run].dependencies;
             SoleSubscriber(w, h, deps, a) && SoleSubscriber(w, h, deps, b) && SoleSubscriber(w, h, deps, c) && SoleSubscriber(w, h, deps, d)
    ensures RunEffect(w, run, body, fuel) == Done(w')
    ensures var h := w.records[run].execute;
            var t := Run(w.cells, body).tracked;
            && w'.records[run] == Running(h, PushAll([], t))
            && SoleSubscriber(w', h, t, a) && SoleSubscriber(w', h, t, b) && SoleSubscriber(w', h, t, c) && SoleSubscriber(w', h, t, d)
    ensures forall s :: 0 <= s < |w.cells| ==> w'.cells[s].value == Run(w.cells, body).after[s].value
  {
    w' := RerunSoleSubscriber(w, run, body, fuel, a);
    w' := RerunSoleSubscriber(w, run, body, fuel, b);
    w' := RerunSoleSubscriber(w, run, body, fuel, c);
    w' := RerunSoleSubscriber(w, run, body, fuel, d);
    EffectRebuildsDependencies(w, run, body, fuel);
  }

  /**
   * A re-run from a world where nothing is borrowed and four signals keep
   * the effect as their only possible subscriber, of a body that reads two
   * distinct signals `first` and `second`: the record then depends on
   * exactly those two, each of the four signals has the effect as its
   * only subscriber exactly when it is one of them, nothing is borrowed,
   * and the values are those the body leaves.
   */
  lemma {:induction false} RerunReadingTwo(w: World, run: RecordId, body: Stmt, fuel: nat, first: SignalId, second: SignalId, a: SignalId, b: SignalId, c: SignalId, d: SignalId)
    returns (w': World)
    requires Valid(w) && run < |w.records| && StmtIn(body, |w.cells|) && Unobserved(w.cells, body)
    requires Run(w.cells, body).tracked == [first, second] && first != second
    requires var h := w.records[run].execute;
             var deps := w.records[run].dependencies;
             SoleSubscriber(w, h, deps, a) && SoleSubscriber(w, h, deps, b) && SoleSubscriber(w, h, deps, c) && SoleSubscriber(w, h, deps, d)
    ensures RunEffect(w, run, body, fuel) == Done(w')
    ensures var h := w.records[run].execute;
            && w'.records[run] == Running(h, [first, second])
            && SoleSubscriber(w', h, [first, second], a) && SoleSubscriber(w', h, [first, second], b)
            && SoleSubscriber(w', h, [first, second], c) && SoleSubscriber(w', h, [first, second], d)
    ensures forall s :: 0 <= s < |w.cells| ==> w'.cells[s].value == Run(w.cells, body).after[s].value
  {
    PushDistinct(first, second);
    w' := SoleRerun(w, run, body, fuel, a, b, c, d);
  }

  /**
   * A world that user code left valid and steady, in which the effect now
   * depends on the condition and `next` and is the only subscriber of
   * exactly those, is again a world of the test.
   */
  lemma {:induction false} BranchWorldAgain(w: World, w': World, h: CallbackId, run: RecordId, body: Stmt, cond: SignalId, s1: SignalId, s2: SignalId, counter: SignalId, on: SignalId, next: SignalId)
    requires BranchWorld(w, h, run, body, cond, s1, s2, counter, on) && (next == s1 || next == s2)
    requires Valid(w') && Steady(w, w')
    requires w'.records[run] == Running(h, [cond, next])
    requires SoleSubscriber(w', h, [cond, next], cond) && SoleSubscriber(w', h, [cond, next], s1)
    requires SoleSubscriber(w', h, [cond, next], s2) && SoleSubscriber(w', h, [cond, next], counter)
    ensures BranchWorld(w', h, run, body, cond, s1, s2, counter, next)
  {
  }

  /** In a world of the test, the effect is the only possible subscriber of its four signals. */
  lemma {:induction false} BranchSole(w: World, h: CallbackId, run: RecordId, body: Stmt, cond: SignalId, s1: SignalId, s2: SignalId, counter: SignalId, on: SignalId)
    requires BranchWorld(w, h, run, body, cond, s1, s2, counter, on)
    ensures var deps := w.records[run].dependencies;
            && w.records[run].execute == h
            && SoleSubscriber(w, h, deps, cond) && SoleSubscriber(w, h, deps, s1)
            && SoleSubscriber(w, h, deps, s2) && SoleSubscriber(w, h, deps, counter)
  {
  }

  /**
   * A re-run of the effect of `effect_should_recreate_dependencies`
   * (reactive.rs:303-336 with the body of reactive.rs:525-533), reaching
   * `w'`: the counter goes up by one and no other value changes; the
   * effect now depends on the condition and the branch signal the
   * condition selects, is the only subscriber of those two, and has left
   * the other branch signal without subscriber.
   */
  lemma {:induction false} BranchRerunStep(w: World, h: CallbackId, run: RecordId, body: Stmt, cond: SignalId, s1: SignalId, s2: SignalId, counter: SignalId, on: SignalId, next: SignalId, fuel: nat)
    returns (w': World)
    requires BranchWorld(w, h, run, body, cond, s1, s2, counter, on)
    requires BranchRuns(w.cells, body, cond, next, counter) && (next == s1 || next == s2)
    ensures RunEffect(w, run, body, fuel) == Done(w')
    ensures BranchWorld(w', h, run, body, cond, s1, s2, counter, next)
    ensures w'.cells[counter].value == w.cells[counter].value + 1 && w'.cells[cond].value == w.cells[cond].value
  {
    BranchSole(w, h, run, body, cond, s1, s2, counter, on);
    w' := RerunReadingTwo(w, run, body, fuel, cond, next, cond, s1, s2, counter);
    BranchWorldAgain(w, w', h, run, body, cond, s1, s2, counter, on, next);
  }

  /** Storing a value into a signal other than the counter keeps a world of the test one. */
  lemma {:induction false} BranchUpdate(w: World, h: CallbackId, run: RecordId, body: Stmt, cond: SignalId, s1: SignalId, s2: SignalId, counter: SignalId, on: SignalId, x: SignalId, v: int)
    requires BranchWorld(w, h, run, body, cond, s1, s2, counter, on) && x < |w.cells| && x != counter
    ensures BranchWorld(UpdateValue(w, x, v), h, run, body, cond, s1, s2, counter, on)
  {
    var w1 := UpdateValue(w, x, v);
    assert w1.cells[counter] == w.cells[counter];
    assert forall i :: 0 <= i < |w.cells| ==> w1.cells[i].subscribers == w.cells[i].subscribers;
  }

  /** Under BranchLike, the next run from a world of the test reads the condition and the branch it selects. */
  lemma {:induction false} BranchNext(w: World, h: CallbackId, run: RecordId, body: Stmt, cond: SignalId, s1: SignalId, s2: SignalId, counter: SignalId, on: SignalId)
    requires BranchLike(body, cond, s1, s2, counter) && BranchWorld(w, h, run, body, cond, s1, s2, counter, on)
    ensures BranchRuns(w.cells, body, cond, if w.cells[cond].value != 0 then s1 else s2, counter)
  {
    assert BranchSignals(w.cells, cond, s1, s2, counter);
  }

  /**
   * `set` (reactive.rs:126-139) on the condition or on the branch signal the
   * last run read, reaching `w'`: the effect is their only subscriber, so
   * it re-runs once, with the new value in place, and bumps the counter.
   */
  lemma {:induction false} BranchSetRuns(w: World, h: CallbackId, run: RecordId, body: Stmt, cond: SignalId, s1: SignalId, s2: SignalId, counter: SignalId, on: SignalId, x: SignalId, v: int, next: SignalId, fuel: nat)
    returns (w': World)
    requires BranchLike(body, cond, s1, s2, counter) && BranchWorld(w, h, run, body, cond, s1, s2, counter, on)
    requires x == cond || x == on
    requires next == if (if x == cond then v else w.cells[cond].value) != 0 then s1 else s2
    ensures Set(w, x, v, fuel + 1) == Done(w')
    ensures BranchWorld(w', h, run, body, cond, s1, s2, counter, next)
    ensures w'.cells[counter].value == w.cells[counter].value + 1
    ensures w'.cells[cond].value == if x == cond then v else w.cells[cond].value
  {
    SetReruns(w, x, v, h, run, body, fuel);
    BranchUpdate(w, h, run, body, cond, s1, s2, counter, on, x, v);
    var w1 := UpdateValue(w, x, v);
    BranchNext(w1, h, run, body, cond, s1, s2, counter, on);
    w' := BranchRerunStep(w1, h, run, body, cond, s1, s2, counter, on, next, fuel);
  }

  /**
   * `set` on the branch signal the last run did not read: it has no
   * subscriber, so only the value changes and the effect does not run.
   */
  lemma {:induction false} BranchSetIdle(w: World, h: CallbackId, run: RecordId, body: Stmt, cond: SignalId, s1: SignalId, s2: SignalId, counter: SignalId, on: SignalId, v: int, fuel: nat)
    returns (w': World)
    requires BranchWorld(w, h, run, body, cond, s1, s2, counter, on)
    ensures var x := if on == s1 then s2 else s1;
            && Set(w, x, v, fuel) == Done(w') && w' == UpdateValue(w, x, v)
            && BranchWorld(w', h, run, body, cond, s1, s2, counter, on)
            && w'.cells[counter].value == w.cells[counter].value
            && w'.cells[cond].value == w.cells[cond].value
  {
    var x := if on == s1 then s2 else s1;
    SetUnobserved(w, x, v, fuel);
    BranchUpdate(w, h, run, body, cond, s1, s2, counter, on, x, v);
    w' := UpdateValue(w, x, v);
  }

  /**
   * The whole of `effect_should_recreate_dependencies` (reactive.rs:508-551)
   * on fresh signals: the effect runs at creation, again on `state1.set(1)`,
   * not on `state2.set(1)`, again on `condition.set(false)`, not on
   * `state1.set(2)`, and again on `state2.set(2)`.
   */
  lemma {:induction false} RecreateDependencies(w: World, cond: SignalId, s1: SignalId, s2: SignalId, counter: SignalId, fuel: nat)
    requires Valid(w) && Unborrowed(w) && BranchSignals(w.cells, cond, s1, s2, counter)
    requires w.cells[cond].value != 0
    requires w.cells[cond].subscribers == [] && w.cells[s1].subscribers == [] && w.cells[s2].subscribers == []
    ensures StmtIn(BranchBody(cond, s1, s2, counter), |w.cells|)
    ensures var n := w.cells[counter].value;
            var r0 := CreateEffect(w, BranchBody(cond, s1, s2, counter), fuel + 1);
            && r0.Done? && r0.world.cells[counter].value == n + 1
            && var r1 := Set(r0.world, s1, 1, fuel + 1);
            && r1.Done? && r1.world.cells[counter].value == n + 2
            && var r2 := Set(r1.world, s2, 1, fuel + 1);
            && r2.Done? && r2.world.cells[counter].value == n + 2
            && var r3 := Set(r2.world, cond, 0, fuel + 1);
            && r3.Done? && r3.world.cells[counter].value == n + 3
            && var r4 := Set(r3.world, s1, 2, fuel + 1);
            && r4.Done? && r4.world.cells[counter].value == n + 3
            && var r5 := Set(r4.world, s2, 2, fuel + 1);
            && r5.Done? && r5.world.cells[counter].value == n + 4
  {
    var h := |w.callbacks|;
    var run := |w.records|;
    BranchCreation(w, cond, s1, s2, counter, fuel);
    BranchCreationLists(w, cond, s1, s2, counter, fuel);
    var body := BranchBody(cond, s1, s2, counter);
    BranchBodyLike(cond, s1, s2, counter);
    var w0 := CreateEffect(w, body, fuel + 1).world;
    assert BranchWorld(w0, h, run, body, cond, s1, s2, counter, s1);
    var w1 := BranchSetRuns(w0, h, run, body, cond, s1, s2, counter, s1, s1, 1, s1, fuel);
    var w2 := BranchSetIdle(w1, h, run, body, cond, s1, s2, counter, s1, 1, fuel + 1);
    var w3 := BranchSetRuns(w2, h, run, body, cond, s1, s2, counter, s1, cond, 0, s2, fuel);
    var w4 := BranchSetIdle(w3, h, run, body, cond, s1, s2, counter, s2, 2, fuel + 1);
    var w5 := BranchSetRuns(w4, h, run, body, cond, s1, s2, counter, s2, s2, 2, s2, fuel);
  }

  /**
   * The whole of `effect_should_subscribe_once` (reactive.rs:485-505) on
   * fresh signals: creating the effect runs it once, and one `set` of
   * `state` runs it exactly once more, though its body reads `state` twice.
   */
  lemma {:induction false} SubscribeOnce(w: World, state: SignalId, counter: SignalId, v: int, fuel: nat)
    requires Valid(w) && Unborrowed(w) && Unwatched(w.cells, counter) && state < |w.cells| && state != counter
    requires w.cells[state].subscribers == []
    ensures StmtIn(ReadTwiceBody(state, counter), |w.cells|)
    ensures var r1 := CreateEffect(w, ReadTwiceBody(state, counter), fuel + 1);
            && r1.Done?
            && r1.world.cells[counter].value == w.cells[counter].value + 1
            && var r2 := Set(r1.world, state, v, fuel + 1);
               && r2.Done?
               && r2.world.cells[state].value == v
               && r2.world.cells[counter].value == w.cells[counter].value + 2
  {
    var body := ReadTwiceBody(state, counter);
    ReadTwiceCreation(w, state, counter, fuel);
    var w1 := CreateEffect(w, body, fuel + 1).world;
    var h := |w.callbacks|;
    var run := |w.records|;
    assert w1.callbacks[h] == Execute(run, body);
    assert w1.cells[state].subscribers == [h];
    var w2 := ReadTwiceSet(w1, h, run, state, counter, v, fuel);
  }

  /**
   * `state.set(v)` while the effect is the only subscriber of `state`
   * (reactive.rs:498-504): the effect runs once more, so the counter goes
   * up by one, and the new value is in place.
   */
  lemma {:induction false} ReadTwiceSet(w: World, h: CallbackId, run: RecordId, state: SignalId, counter: SignalId, v: int, fuel: nat)
    returns (w': World)
    requires Valid(w) && Unwatched(w.cells, counter) && state < |w.cells| && state != counter && !w.cells[state].borrowed
    requires h < |w.callbacks| && w.callbacks[h] == Execute(run, ReadTwiceBody(state, counter))
    requires w.cells[state].subscribers == [h]
    ensures Set(w, state, v, fuel + 1) == Done(w')
    ensures w'.cells[state].value == v && w'.cells[counter].value == w.cells[counter].value + 1
  {
    var cells := UpdateValue(w, state, v).cells;
    ReadTwiceRun(cells, state, counter);
    PushTwice(state);
    w' := SetRerunsWith(w, state, v, h, run, ReadTwiceBody(state, counter), fuel, state, counter);
  }
}
