/**
 * What the reactive engine of maple-core/src/reactive.rs promises, stated
 * over the functions of module Reactive: reads register once, untracked
 * reads register nothing, a re-run of an effect replaces its dependencies
 * by what the body read this time, and a selector stays silent when its
 * comparator calls the new value the same as the stored one.
 */
module ReactiveLaws {
  import opened Subscribers
  import opened Reactive

  // ---------------------------------------------------------------------
  // Reading
  // ---------------------------------------------------------------------

  /** Reading a signal twice in a row registers it once (reactive.rs:35-59, 484-505). */
  lemma {:induction false} TrackTwice(w: World, s: SignalId)
    requires Valid(w) && s < |w.cells|
    ensures Track(Track(w, s), s) == Track(w, s)
  {
    if w.contexts != [] {
      var top := w.contexts[|w.contexts| - 1];
      var rec := w.records[top];
      PushAbsentIdempotent(rec.dependencies, s);
      var p := PushAbsent(rec.dependencies, s);
      var w1 := Track(w, s);
      assert w1.contexts == w.contexts && w1.records == w.records[top := Running(rec.execute, p)];
      assert w1.records[top] == Running(rec.execute, p);
      UpdateTwice(w.records, top, Running(rec.execute, p), Running(rec.execute, p));
      assert Track(w1, s).records == w1.records;
    }
  }

  /** The signals `e` reads with `get`, in evaluation order. */
  function Reads(e: Expr): (r: seq<SignalId>)
    ensures forall k :: 0 <= k < |r| ==> forall n: nat :: ExprIn(e, n) ==> r[k] < n
  {
    match e
    case Lit(_) => []
    case Read(s) => [s]
    case ReadUntracked(_) => []
    case Plus(a, b) => Reads(a) + Reads(b)
    case Times(a, b) => Reads(a) + Reads(b)
  }

  function ExprSize(e: Expr): nat
  {
    match e
    case Plus(a, b) => ExprSize(a) + ExprSize(b) + 1
    case Times(a, b) => ExprSize(a) + ExprSize(b) + 1
    case _ => 1
  }

  /** The value of `e` over the given cells. */
  function Value(cells: seq<Cell>, e: Expr): int
    requires ExprIn(e, |cells|)
  {
    match e
    case Lit(n) => n
    case Read(s) => cells[s].value
    case ReadUntracked(s) => cells[s].value
    case Plus(a, b) => Value(cells, a) + Value(cells, b)
    case Times(a, b) => Value(cells, a) * Value(cells, b)
  }

  /** Registers the signals of `l` one after the other. */
  function TrackAll(w: World, l: seq<SignalId>): (w': World)
    requires Valid(w) && IdsBelow(l, |w.cells|)
    ensures Valid(w') && Steady(w, w') && w'.cells == w.cells
    decreases |l|
  {
    if l == [] then w else TrackAll(Track(w, l[0]), l[1..])
  }

  lemma {:induction false} TrackAllAppend(w: World, a: seq<SignalId>, b: seq<SignalId>)
    requires Valid(w) && IdsBelow(a, |w.cells|) && IdsBelow(b, |w.cells|)
    ensures IdsBelow(a + b, |w.cells|)
    ensures TrackAll(w, a + b) == TrackAll(TrackAll(w, a), b)
    decreases |a|
  {
    if a == [] {
      assert a + b == b;
    } else {
      assert (a + b)[1..] == a[1..] + b;
      TrackAllAppend(Track(w, a[0]), a[1..], b);
    }
  }

  lemma {:induction false} TrackAllOne(w: World, s: SignalId)
    requires Valid(w) && s < |w.cells|
    ensures TrackAll(w, [s]) == Track(w, s)
  {
    assert [s][1..] == [];
  }

  /** Evaluating registers exactly the signals of Reads, in order, and yields Value. */
  lemma {:induction false} EvaluateTracks(w: World, e: Expr)
    requires Valid(w) && ExprIn(e, |w.cells|)
    ensures IdsBelow(Reads(e), |w.cells|)
    ensures Evaluate(w, e).0 == TrackAll(w, Reads(e))
    ensures Evaluate(w, e).1 == Value(w.cells, e)
    decreases ExprSize(e), 1
  {
    match e
    case Lit(_) =>
    case Read(s) => TrackAllOne(w, s);
    case ReadUntracked(_) =>
    case Plus(a, b) => EvaluatePair(w, a, b);
    case Times(a, b) => EvaluatePair(w, a, b);
  }

  /** The inductive step of EvaluateTracks for the two operands of a binary operator. */
  lemma {:induction false} EvaluatePair(w: World, a: Expr, b: Expr)
    requires Valid(w) && ExprIn(a, |w.cells|) && ExprIn(b, |w.cells|)
    ensures IdsBelow(Reads(a) + Reads(b), |w.cells|)
    ensures var p := Evaluate(w, a);
            var q := Evaluate(p.0, b);
            q.0 == TrackAll(w, Reads(a) + Reads(b)) && p.1 == Value(w.cells, a) && q.1 == Value(w.cells, b)
    decreases ExprSize(a) + ExprSize(b) + 1, 0
  {
    var p := Evaluate(w, a);
    EvaluateTracks(w, a);
    EvaluateTracks(p.0, b);
    TrackAllAppend(w, Reads(a), Reads(b));
  }

  /**
   * An expression made of untracked reads leaves the world as it was: no
   * context, dependency list or subscriber list changes (reactive.rs:87-89).
   */
  lemma {:induction false} UntrackedLeavesWorld(w: World, e: Expr)
    requires Valid(w) && ExprIn(e, |w.cells|) && Reads(e) == []
    ensures Evaluate(w, e).0 == w
    ensures Evaluate(w, e).1 == Value(w.cells, e)
  {
    EvaluateTracks(w, e);
  }

  /** PushAbsent applied to each element of `xs` in turn. */
  function PushAll(l: seq<nat>, xs: seq<nat>): seq<nat>
    decreases |xs|
  {
    if xs == [] then l else PushAll(PushAbsent(l, xs[0]), xs[1..])
  }

  /** Pushing a list keeps what was there, adds every element once, and adds nothing else. */
  lemma {:induction false} PushAllMembers(l: seq<nat>, xs: seq<nat>)
    ensures forall y :: y in PushAll(l, xs) <==> y in l || y in xs
    ensures NoDup(l) ==> NoDup(PushAll(l, xs))
    decreases |xs|
  {
    if xs != [] {
      PushAllMembers(PushAbsent(l, xs[0]), xs[1..]);
      assert forall y :: y in xs <==> y == xs[0] || y in xs[1..];
    }
  }

  /**
   * Registering a list of reads inside an effect adds them, each once, to
   * the innermost record and changes nothing else.
   */
  lemma {:induction false} TrackAllInContext(w: World, l: seq<SignalId>, top: RecordId)
    requires Valid(w) && IdsBelow(l, |w.cells|) && w.contexts != [] && top == w.contexts[|w.contexts| - 1]
    ensures TrackAll(w, l).records == w.records[top := Running(w.records[top].execute, PushAll(w.records[top].dependencies, l))]
    decreases |l|
  {
    var rec := w.records[top];
    if l != [] {
      var p := PushAbsent(rec.dependencies, l[0]);
      var w1 := TrackInContext(w, l[0]);
      TrackAllInContext(w1, l[1..], top);
      var r1 := TrackAll(w1, l[1..]);
      assert r1.records == w1.records[top := Running(rec.execute, PushAll(p, l[1..]))];
      TrackAllCons(w, l);
      assert TrackAll(w, l) == r1;
      assert PushAll(rec.dependencies, l) == PushAll(p, l[1..]);
      UpdateTwice(w.records, top, Running(rec.execute, p), Running(rec.execute, PushAll(p, l[1..])));
    } else {
      UpdateSame(w.records, top);
    }
  }

  /** One registration inside an effect, seen from the innermost record. */
  lemma {:induction false} TrackInContext(w: World, s: SignalId) returns (w1: World)
    requires Valid(w) && s < |w.cells| && w.contexts != []
    ensures var top := w.contexts[|w.contexts| - 1];
            var rec := w.records[top];
            && w1 == Track(w, s) && Valid(w1) && w1.cells == w.cells && w1.contexts == w.contexts
            && w1.records == w.records[top := Running(rec.execute, PushAbsent(rec.dependencies, s))]
            && w1.records[top] == Running(rec.execute, PushAbsent(rec.dependencies, s))
  {
    w1 := Track(w, s);
  }

  /** The first step of registering and of pushing a non-empty list. */
  lemma {:induction false} TrackAllCons(w: World, l: seq<SignalId>)
    requires Valid(w) && IdsBelow(l, |w.cells|) && l != []
    ensures TrackAll(w, l) == TrackAll(Track(w, l[0]), l[1..])
    ensures forall d :: PushAll(d, l) == PushAll(PushAbsent(d, l[0]), l[1..])
  {
  }

  /** Storing an element back where it was changes nothing. */
  lemma {:induction false} UpdateSame<T>(s: seq<T>, i: nat)
    requires i < |s|
    ensures s[i := s[i]] == s
  {
  }

  /** A second update at the same position overrides the first. */
  lemma {:induction false} UpdateTwice<T>(s: seq<T>, i: nat, a: T, b: T)
    requires i < |s|
    ensures s[i := a][i := b] == s[i := b]
  {
  }

  // ---------------------------------------------------------------------
  // Effect re-runs
  // ---------------------------------------------------------------------

  /** The signals `st` may `set`. */
  function Targets(st: Stmt): set<SignalId>
  {
    match st
    case Skip => {}
    case Do(_) => {}
    case Write(s, _) => {s}
    case If(_, a, b) => Targets(a) + Targets(b)
    case Then(a, b) => Targets(a) + Targets(b)
  }

  /** A body that reads but never calls `set`. */
  predicate WriteFree(st: Stmt)
  {
    Targets(st) == {}
  }

  /**
   * Every signal `st` may `set` is unborrowed and has no subscriber in
   * `cells`, so each of its `set` calls stores the value and runs no user
   * code (reactive.rs:126-139).
   */
  predicate Unobserved(cells: seq<Cell>, st: Stmt)
  {
    forall s :: s in Targets(st) ==> s < |cells| && cells[s].subscribers == [] && !cells[s].borrowed
  }

  /** Two cell lists that differ at most in their values. */
  predicate SameShape(c1: seq<Cell>, c2: seq<Cell>)
  {
    && |c1| == |c2|
    && forall i :: 0 <= i < |c1| ==> c1[i].subscribers == c2[i].subscribers && c1[i].borrowed == c2[i].borrowed
  }

  /** What a body does to the cells, and the signals it reads with `get`, in order. */
  datatype Trace = Trace(after: seq<Cell>, tracked: seq<SignalId>)

  /**
   * Runs `st` over `cells` when its writes reach no subscriber: each write
   * stores its value in place, each tracked read is recorded.  Only the
   * values of the written signals change.
   */
  function Run(cells: seq<Cell>, st: Stmt): (r: Trace)
    requires StmtIn(st, |cells|) && Unobserved(cells, st)
    ensures IdsBelow(r.tracked, |cells|) && SameShape(cells, r.after)
    ensures forall i :: 0 <= i < |cells| && i !in Targets(st) ==> r.after[i] == cells[i]
    decreases st
  {
    match st
    case Skip => Trace(cells, [])
    case Do(e) => Trace(cells, Reads(e))
    case Write(s, e) => Trace(cells[s := cells[s].(value := Value(cells, e))], Reads(e))
    case If(c, a, b) =>
      UnobservedPart(cells, st, a);
      UnobservedPart(cells, st, b);
      var t := if Value(cells, c) != 0 then Run(cells, a) else Run(cells, b);
      Trace(t.after, Reads(c) + t.tracked)
    case Then(a, b) =>
      UnobservedPart(cells, st, a);
      UnobservedPart(cells, st, b);
      var t := Run(cells, a);
      UnobservedShape(cells, t.after, b);
      var u := Run(t.after, b);
      Trace(u.after, t.tracked + u.tracked)
  }

  /** A part of a body writes only where the whole body does. */
  lemma {:induction false} UnobservedPart(cells: seq<Cell>, st: Stmt, part: Stmt)
    requires Unobserved(cells, st) && Targets(part) <= Targets(st)
    ensures Unobserved(cells, part)
  {
  }

  /** Whether a write reaches a subscriber depends only on the subscribers and borrow flags. */
  lemma {:induction false} UnobservedShape(c1: seq<Cell>, c2: seq<Cell>, st: Stmt)
    requires Unobserved(c1, st) && SameShape(c1, c2)
    ensures Unobserved(c2, st)
  {
    forall s | s in Targets(st) ensures s < |c2| && c2[s].subscribers == [] && !c2[s].borrowed {
      assert c1[s].subscribers == [] && !c1[s].borrowed;
    }
  }

  /** A world whose cells change only in their values stays valid. */
  lemma {:induction false} ShapeKeepsValid(w: World, c: seq<Cell>)
    requires Valid(w) && SameShape(w.cells, c)
    ensures Valid(w.(cells := c))
  {
    forall i | 0 <= i < |c| ensures IdsBelow(c[i].subscribers, |w.callbacks|) {
      assert c[i].subscribers == w.cells[i].subscribers;
    }
  }

  /** Registration looks at the context stack and the records only, never at the cells. */
  lemma {:induction false} TrackAllCells(w: World, c: seq<Cell>, l: seq<SignalId>)
    requires Valid(w) && SameShape(w.cells, c) && IdsBelow(l, |w.cells|)
    ensures Valid(w.(cells := c))
    ensures TrackAll(w.(cells := c), l) == TrackAll(w, l).(cells := c)
    decreases |l|
  {
    ShapeKeepsValid(w, c);
    if l != [] {
      var w1 := Track(w, l[0]);
      assert Track(w.(cells := c), l[0]) == w1.(cells := c);
      TrackAllCells(w1, c, l[1..]);
    }
  }

  /** The world after `st` as Run describes it: the reads registered, the writes stored. */
  function AfterRun(w: World, st: Stmt): (w': World)
    requires Valid(w) && StmtIn(st, |w.cells|) && Unobserved(w.cells, st)
    ensures Valid(w') && Steady(w, w') && w'.cells == Run(w.cells, st).after
    ensures w'.records == TrackAll(w, Run(w.cells, st).tracked).records
  {
    var t := Run(w.cells, st);
    ShapeKeepsValid(TrackAll(w, t.tracked), t.after);
    TrackAll(w, t.tracked).(cells := t.after)
  }

  /** Running a body whose writes reach no subscriber finishes as Run describes. */
  lemma {:induction false} ExecRun(w: World, st: Stmt, fuel: nat)
    requires Valid(w) && StmtIn(st, |w.cells|) && Unobserved(w.cells, st)
    ensures Exec(w, st, fuel) == Done(AfterRun(w, st))
    decreases st, 0
  {
    match st
    case Skip =>
    case Do(e) => EvaluateTracks(w, e);
    case Write(s, e) =>
      EvaluateTracks(w, e);
      SetUnobserved(Evaluate(w, e).0, s, Value(w.cells, e), fuel);
    case If(c, a, b) =>
      EvaluateTracks(w, c);
      var w1 := Evaluate(w, c).0;
      if Value(w.cells, c) != 0 {
        ExecRun(w1, a, fuel);
        TrackAllAppend(w, Reads(c), Run(w.cells, a).tracked);
      } else {
        ExecRun(w1, b, fuel);
        TrackAllAppend(w, Reads(c), Run(w.cells, b).tracked);
      }
    case Then(a, b) =>
      UnobservedPart(w.cells, st, a);
      ExecRun(w, a, fuel);
      ThenStep(w, a, b, fuel);
  }

  /** The second half of a sequence, run after the first as Run describes. */
  lemma {:induction false} ThenStep(w: World, a: Stmt, b: Stmt, fuel: nat)
    requires Valid(w) && StmtIn(Then(a, b), |w.cells|) && Unobserved(w.cells, Then(a, b)) && Unobserved(w.cells, a)
    requires Exec(w, a, fuel) == Done(AfterRun(w, a))
    ensures Exec(w, Then(a, b), fuel) == Done(AfterRun(w, Then(a, b)))
    decreases b, 1
  {
    var t := Run(w.cells, a);
    var wa := AfterRun(w, a);
    UnobservedShape(w.cells, t.after, b);
    var u := Run(t.after, b);
    ExecRun(wa, b, fuel);
    TrackAllCells(TrackAll(w, t.tracked), t.after, u.tracked);
    TrackAllAppend(w, t.tracked, u.tracked);
  }

  /** Reads and values depend on the values of the cells only. */
  lemma {:induction false} ValueSameValues(c1: seq<Cell>, c2: seq<Cell>, e: Expr)
    requires |c1| == |c2| && forall i :: 0 <= i < |c1| ==> c1[i].value == c2[i].value
    requires ExprIn(e, |c1|)
    ensures Value(c1, e) == Value(c2, e)
    decreases e
  {
    match e
    case Lit(_) =>
    case Read(_) =>
    case ReadUntracked(_) =>
    case Plus(a, b) => ValueSameValues(c1, c2, a); ValueSameValues(c1, c2, b);
    case Times(a, b) => ValueSameValues(c1, c2, a); ValueSameValues(c1, c2, b);
  }

  /** Run depends on the values of the cells only. */
  lemma {:induction false} RunSameValues(c1: seq<Cell>, c2: seq<Cell>, st: Stmt)
    requires |c1| == |c2| && forall i :: 0 <= i < |c1| ==> c1[i].value == c2[i].value
    requires StmtIn(st, |c1|) && Unobserved(c1, st) && Unobserved(c2, st)
    ensures Run(c1, st).tracked == Run(c2, st).tracked
    ensures forall i :: 0 <= i < |c1| ==> Run(c1, st).after[i].value == Run(c2, st).after[i].value
    decreases st
  {
    match st
    case Skip =>
    case Do(_) =>
    case Write(_, e) => ValueSameValues(c1, c2, e);
    case If(c, a, b) =>
      ValueSameValues(c1, c2, c);
      RunSameValues(c1, c2, a);
      RunSameValues(c1, c2, b);
    case Then(a, b) =>
      RunSameValues(c1, c2, a);
      var t1 := Run(c1, a);
      var t2 := Run(c2, a);
      UnobservedShape(c1, t1.after, b);
      UnobservedShape(c2, t2.after, b);
      RunSameValues(t1.after, t2.after, b);
  }

  /**
   * A re-run of an effect whose writes reach no subscriber (reactive.rs:303-336;
   * the tests at 484-552): the record ends up depending on exactly the
   * signals the body read this time, each once, and `execute` is subscribed
   * to a signal exactly when the body read it, or when it was subscribed
   * before without the record depending on it.  No other subscription or
   * record changes, and the values are those the body's writes leave.
   */
  lemma {:induction false} EffectRebuildsDependencies(w: World, run: RecordId, body: Stmt, fuel: nat)
    requires Valid(w) && run < |w.records| && StmtIn(body, |w.cells|) && Unobserved(w.cells, body)
    ensures var r := RunEffect(w, run, body, fuel);
            var t := Run(w.cells, body);
            var h := w.records[run].execute;
            && r.Done?
            && r.world.records == w.records[run := Running(h, PushAll([], t.tracked))]
            && (forall s :: 0 <= s < |w.cells| ==>
                  (h in r.world.cells[s].subscribers <==>
                     s in t.tracked || (h in w.cells[s].subscribers && s !in w.records[run].dependencies)))
            && (forall s, x :: 0 <= s < |w.cells| && x != h ==>
                  (x in r.world.cells[s].subscribers <==> x in w.cells[s].subscribers))
            && (forall s :: 0 <= s < |w.cells| ==> r.world.cells[s].value == t.after[s].value)
  {
    var h := w.records[run].execute;
    var t := Run(w.cells, body);
    var w3 := RerunBeforeAttach(w, run, body, fuel);
    var w1 := Cleanup(w, run);
    var w4 := Attach(w3, h);
    UpdateTwice(w.records, run, Running(h, []), Running(h, PushAll([], t.tracked)));
    assert w3.contexts[|w3.contexts| - 1] == run;
    var deps := w3.records[run].dependencies;
    PushAllMembers([], t.tracked);
    assert forall s :: s in deps <==> s in t.tracked;
    forall s | 0 <= s < |w.cells|
      ensures h in w4.cells[s].subscribers <==> s in t.tracked || (h in w.cells[s].subscribers && s !in w.records[run].dependencies)
      ensures forall x :: x != h ==> (x in w4.cells[s].subscribers <==> x in w.cells[s].subscribers)
      ensures w4.cells[s].value == t.after[s].value
    {
      assert w3.cells[s].subscribers == w1.cells[s].subscribers;
    }
  }

  /**
   * The world a re-run reaches just before its subscription step: cleaned
   * up, with the record on top of the stack depending on the body's reads
   * and the cells holding what the body wrote.
   */
  lemma {:induction false} RerunBeforeAttach(w: World, run: RecordId, body: Stmt, fuel: nat) returns (w3: World)
    requires Valid(w) && run < |w.records| && StmtIn(body, |w.cells|) && Unobserved(w.cells, body)
    ensures Valid(w3) && w3.contexts == w.contexts + [run] && w3.callbacks == w.callbacks
    ensures SameShape(Cleanup(w, run).cells, w3.cells)
    ensures forall i :: 0 <= i < |w.cells| ==> w3.cells[i].value == Run(w.cells, body).after[i].value
    ensures w3.records == Cleanup(w, run).records[run := Running(w.records[run].execute, PushAll([], Run(w.cells, body).tracked))]
    ensures RunEffect(w, run, body, fuel) == Done(Attach(w3, w.records[run].execute))
  {
    var w1 := Cleanup(w, run);
    var w2 := w1.(contexts := w1.contexts + [run]);
    CleanupUnobserved(w, run, body);
    RunSameValues(w2.cells, w.cells, body);
    var seen := Run(w.cells, body).tracked;
    ExecRun(w2, body, fuel);
    TrackAllInContext(w2, seen, run);
    w3 := AfterRun(w2, body);
  }

  /**
   * The subscriber lists a re-run leaves (reactive.rs:303-336): cleaning up
   * removes `execute` from each signal the record depended on, and the
   * subscription step appends it, unless present, to each signal the body
   * read.  Every other entry keeps its place.
   */
  lemma {:induction false} RerunSubscriberLists(w: World, run: RecordId, body: Stmt, fuel: nat)
    requires Valid(w) && run < |w.records| && StmtIn(body, |w.cells|) && Unobserved(w.cells, body)
    ensures var r := RunEffect(w, run, body, fuel);
            var h := w.records[run].execute;
            && r.Done? && |r.world.cells| == |w.cells|
            && forall s :: 0 <= s < |w.cells| ==>
                 var kept := if s in w.records[run].dependencies then Remove(w.cells[s].subscribers, h) else w.cells[s].subscribers;
                 r.world.cells[s].subscribers == if s in Run(w.cells, body).tracked then PushAbsent(kept, h) else kept
  {
    var w3 := RerunBeforeAttach(w, run, body, fuel);
    AttachedLists(Cleanup(w, run), w3, run, w.records[run].execute, Run(w.cells, body).tracked);
  }

  /** The subscription step of a re-run, on the lists cleanup left. */
  lemma {:induction false} AttachedLists(w1: World, w3: World, run: RecordId, h: CallbackId, tracked: seq<SignalId>)
    requires Valid(w3) && w3.contexts != [] && w3.contexts[|w3.contexts| - 1] == run && run < |w3.records| && h < |w3.callbacks|
    requires w3.records[run].dependencies == PushAll([], tracked) && SameShape(w1.cells, w3.cells)
    ensures var w' := Attach(w3, h);
            && |w'.cells| == |w1.cells|
            && forall s :: 0 <= s < |w1.cells| ==>
                 w'.cells[s].subscribers == if s in tracked then PushAbsent(w1.cells[s].subscribers, h) else w1.cells[s].subscribers
  {
    PushAllMembers([], tracked);
  }

  /**
   * The subscriber lists `create_effect` leaves (reactive.rs:295-345): the
   * new callback comes last in the list of each signal the body read, and
   * every other list is as it was.
   */
  lemma {:induction false} CreationSubscriberLists(w: World, body: Stmt, fuel: nat)
    requires Valid(w) && StmtIn(body, |w.cells|) && Unobserved(w.cells, body)
    ensures var r := CreateEffect(w, body, fuel + 1);
            && r.Done? && |r.world.cells| == |w.cells|
            && forall s :: 0 <= s < |w.cells| ==>
                 r.world.cells[s].subscribers ==
                   if s in Run(w.cells, body).tracked then w.cells[s].subscribers + [|w.callbacks|] else w.cells[s].subscribers
  {
    var w1 := EffectFirstRun(w, body, fuel);
    FirstRunLists(w, w1, body, fuel);
  }

  /** RerunSubscriberLists for the fresh record of EffectFirstRun, read in terms of the world before creation. */
  lemma {:induction false} FirstRunLists(w: World, w1: World, body: Stmt, fuel: nat)
    requires Valid(w) && StmtIn(body, |w.cells|) && Unobserved(w.cells, body)
    requires Valid(w1) && w1.cells == w.cells && |w1.records| == |w.records| + 1
    requires w1.records[|w.records|] == Running(|w.callbacks|, [])
    ensures var r := RunEffect(w1, |w.records|, body, fuel);
            && r.Done? && |r.world.cells| == |w.cells|
            && forall s :: 0 <= s < |w.cells| ==>
                 r.world.cells[s].subscribers ==
                   if s in Run(w.cells, body).tracked then w.cells[s].subscribers + [|w.callbacks|] else w.cells[s].subscribers
  {
    var h := |w.callbacks|;
    var run := |w.records|;
    RerunSubscriberLists(w1, run, body, fuel);
    var r := RunEffect(w1, run, body, fuel).world;
    var tracked := Run(w.cells, body).tracked;
    forall s | 0 <= s < |w.cells|
      ensures r.cells[s].subscribers == if s in tracked then w.cells[s].subscribers + [h] else w.cells[s].subscribers
    {
      NotAbove(w.cells[s].subscribers, h);
      assert r.cells[s].subscribers == if s in tracked then PushAbsent(w.cells[s].subscribers, h) else w.cells[s].subscribers;
    }
  }

  /** Cleaning up only removes subscribers, so a write that reached none still reaches none. */
  lemma {:induction false} CleanupUnobserved(w: World, run: RecordId, body: Stmt)
    requires Valid(w) && run < |w.records| && Unobserved(w.cells, body)
    ensures Unobserved(Cleanup(w, run).cells, body)
  {
    var w1 := Cleanup(w, run);
    forall s | s in Targets(body) ensures s < |w1.cells| && w1.cells[s].subscribers == [] && !w1.cells[s].borrowed {
      assert w.cells[s].subscribers == [];
    }
  }

  // ---------------------------------------------------------------------
  // Memos and selectors
  // ---------------------------------------------------------------------

  /** The signals a derivation reads with `get`, in order: its prelude's, then its result's. */
  function DerivationReads(cells: seq<Cell>, d: Derivation): (r: seq<SignalId>)
    requires DerivationIn(d, |cells|) && Unobserved(cells, d.prelude)
    ensures IdsBelow(r, |cells|)
  {
    var a := Run(cells, d.prelude).tracked;
    var b := Reads(d.result);
    assert IdsBelow(b, |cells|);
    a + b
  }

  /** The value a derivation yields: its result over the cells its prelude leaves. */
  function DerivedValue(cells: seq<Cell>, d: Derivation): int
    requires DerivationIn(d, |cells|) && Unobserved(cells, d.prelude)
  {
    Value(Run(cells, d.prelude).after, d.result)
  }

  /** The world after a derivation as Run describes it. */
  function AfterDerive(w: World, d: Derivation): (w': World)
    requires Valid(w) && DerivationIn(d, |w.cells|) && Unobserved(w.cells, d.prelude)
    ensures Valid(w') && Steady(w, w') && w'.cells == Run(w.cells, d.prelude).after
    ensures w'.records == TrackAll(w, DerivationReads(w.cells, d)).records
  {
    var t := Run(w.cells, d.prelude);
    TrackAllCells(TrackAll(w, DerivationReads(w.cells, d)), t.after, []);
    TrackAll(w, DerivationReads(w.cells, d)).(cells := t.after)
  }

  /**
   * Running a derivation whose prelude's writes reach no subscriber
   * registers its reads, stores its writes, and yields its result over
   * the cells the prelude leaves.
   */
  lemma {:induction false} DeriveUnobserved(w: World, d: Derivation, fuel: nat)
    requires Valid(w) && DerivationIn(d, |w.cells|) && Unobserved(w.cells, d.prelude)
    ensures Derive(w, d, fuel).Derived?
    ensures Derive(w, d, fuel).world == AfterDerive(w, d)
    ensures Derive(w, d, fuel).value == DerivedValue(w.cells, d)
  {
    var t := Run(w.cells, d.prelude);
    ExecRun(w, d.prelude, fuel);
    var w1 := AfterRun(w, d.prelude);
    EvaluateTracks(w1, d.result);
    TrackAllCells(TrackAll(w, t.tracked), t.after, Reads(d.result));
    TrackAllAppend(w, t.tracked, Reads(d.result));
  }

  /**
   * A selector's update (reactive.rs:393-398) whose comparator calls the new
   * value the same as the stored one does not `set` the memo: no subscriber
   * runs, and the world changes only by the derivation's own reads and
   * writes.  The stored value is read after the derivation has run.
   */
  lemma {:induction false} SelectorSilentWhenSame(w: World, m: SignalId, d: Derivation, same: (int, int) -> bool, fuel: nat)
    requires Valid(w) && m < |w.cells| && DerivationIn(d, |w.cells|) && Unobserved(w.cells, d.prelude)
    requires same(Run(w.cells, d.prelude).after[m].value, DerivedValue(w.cells, d))
    ensures RunUpdate(w, m, d, same, fuel) == Done(AfterDerive(w, d))
  {
    DeriveUnobserved(w, d, fuel);
  }

  /** Otherwise the update `set`s the memo to the new value, after the derivation. */
  lemma {:induction false} SelectorSetsWhenChanged(w: World, m: SignalId, d: Derivation, same: (int, int) -> bool, fuel: nat)
    requires Valid(w) && m < |w.cells| && DerivationIn(d, |w.cells|) && Unobserved(w.cells, d.prelude)
    requires !same(Run(w.cells, d.prelude).after[m].value, DerivedValue(w.cells, d))
    ensures RunUpdate(w, m, d, same, fuel) == Set(AfterDerive(w, d), m, DerivedValue(w.cells, d), fuel)
  {
    DeriveUnobserved(w, d, fuel);
  }

  /**
   * The update of a memo (comparator `|_, _| false`, reactive.rs:353) always
   * `set`s it, even to the value it already holds.
   */
  lemma {:induction false} MemoAlwaysSets(w: World, m: SignalId, d: Derivation, fuel: nat)
    requires Valid(w) && m < |w.cells| && DerivationIn(d, |w.cells|) && Unobserved(w.cells, d.prelude)
    ensures RunUpdate(w, m, d, (a, b) => false, fuel) == Set(AfterDerive(w, d), m, DerivedValue(w.cells, d), fuel)
  {
    SelectorSetsWhenChanged(w, m, d, (a, b) => false, fuel);
  }

  /**
   * The selector's comparator (`PartialEq::eq`, reactive.rs:366) is silent
   * exactly when the derivation yields the stored value again.
   */
  lemma {:induction false} SelectorSilentIffEqual(w: World, m: SignalId, d: Derivation, fuel: nat)
    requires Valid(w) && m < |w.cells| && DerivationIn(d, |w.cells|) && Unobserved(w.cells, d.prelude)
    ensures DerivedValue(w.cells, d) == Run(w.cells, d.prelude).after[m].value ==>
              RunUpdate(w, m, d, (a, b) => a == b, fuel) == Done(AfterDerive(w, d))
    ensures DerivedValue(w.cells, d) != Run(w.cells, d.prelude).after[m].value ==>
              RunUpdate(w, m, d, (a, b) => a == b, fuel) == Set(AfterDerive(w, d), m, DerivedValue(w.cells, d), fuel)
  {
    var same := (a: int, b: int) => a == b;
    if DerivedValue(w.cells, d) == Run(w.cells, d.prelude).after[m].value {
      SelectorSilentWhenSame(w, m, d, same, fuel);
    } else {
      SelectorSetsWhenChanged(w, m, d, same, fuel);
    }
  }

  // ---------------------------------------------------------------------
  // Setting a signal
  // ---------------------------------------------------------------------

  /** A callback that never calls `set`: the placeholder, or an effect whose body only reads. */
  predicate Quiet(c: Callback)
  {
    c.Noop? || (c.Execute? && WriteFree(c.body))
  }

  /**
   * Calling quiet subscribers from position `i` of a snapshot
   * (reactive.rs:136-138) finishes, given one level of stack for the
   * calls, and leaves every value as it was.
   */
  lemma {:induction false} NotifyQuiet(w: World, subs: seq<CallbackId>, i: nat, fuel: nat)
    requires Valid(w) && i <= |subs| && IdsBelow(subs, |w.callbacks|) && fuel >= 1
    requires forall k :: i <= k < |subs| ==> Quiet(w.callbacks[subs[k]])
    ensures Notify(w, subs, i, fuel).Done?
    ensures forall c :: 0 <= c < |w.cells| ==> Notify(w, subs, i, fuel).world.cells[c].value == w.cells[c].value
    decreases |subs| - i
  {
    if i < |subs| {
      QuietCall(w, subs[i], fuel);
      NotifyQuiet(Call(w, subs[i], fuel).world, subs, i + 1, fuel);
    }
  }

  /** Calling a quiet callback finishes and leaves every value as it was. */
  lemma {:induction false} QuietCall(w: World, cb: CallbackId, fuel: nat)
    requires Valid(w) && cb < |w.callbacks| && fuel >= 1 && Quiet(w.callbacks[cb])
    ensures Call(w, cb, fuel).Done?
    ensures forall c :: 0 <= c < |w.cells| ==> Call(w, cb, fuel).world.cells[c].value == w.cells[c].value
  {
    if w.callbacks[cb].Execute? {
      QuietEffectCall(w, cb, fuel);
    } else {
      NoopCall(w, cb, fuel);
    }
  }

  /** Calling the placeholder callback changes nothing. */
  lemma {:induction false} NoopCall(w: World, cb: CallbackId, fuel: nat)
    requires Valid(w) && cb < |w.callbacks| && fuel >= 1 && w.callbacks[cb].Noop?
    ensures Call(w, cb, fuel) == Done(w)
  {
  }

  /** Calling an effect whose body only reads finishes and changes no value. */
  lemma {:induction false} QuietEffectCall(w: World, cb: CallbackId, fuel: nat)
    requires Valid(w) && cb < |w.callbacks| && fuel >= 1
    requires w.callbacks[cb].Execute? && WriteFree(w.callbacks[cb].body)
    ensures Call(w, cb, fuel).Done?
    ensures forall c :: 0 <= c < |w.cells| ==> Call(w, cb, fuel).world.cells[c].value == w.cells[c].value
  {
    CallEffect(w, cb, fuel);
    RerunKeepsValues(w, w.callbacks[cb].running, w.callbacks[cb].body, fuel - 1);
  }

  /** Calling an effect's callback re-runs the effect one level deeper on the stack. */
  lemma {:induction false} CallEffect(w: World, cb: CallbackId, fuel: nat)
    requires Valid(w) && cb < |w.callbacks| && fuel >= 1 && w.callbacks[cb].Execute?
    ensures Call(w, cb, fuel) == RunEffect(w, w.callbacks[cb].running, w.callbacks[cb].body, fuel - 1)
  {
  }

  /** Calling a memo's update callback runs the update one level deeper on the stack. */
  lemma {:induction false} CallUpdate(w: World, cb: CallbackId, fuel: nat)
    requires Valid(w) && cb < |w.callbacks| && fuel >= 1 && w.callbacks[cb].Update?
    ensures var c := w.callbacks[cb];
            Call(w, cb, fuel) == RunUpdate(w, c.memo, c.derived, c.same, fuel - 1)
  {
  }

  /** The part of EffectRebuildsDependencies about values: a re-run that only reads finishes and changes no value. */
  lemma {:induction false} RerunKeepsValues(w: World, run: RecordId, body: Stmt, fuel: nat)
    requires Valid(w) && run < |w.records| && StmtIn(body, |w.cells|) && WriteFree(body)
    ensures RunEffect(w, run, body, fuel).Done?
    ensures forall c :: 0 <= c < |w.cells| ==> RunEffect(w, run, body, fuel).world.cells[c].value == w.cells[c].value
  {
    EffectRebuildsDependencies(w, run, body, fuel);
  }

  /**
   * After `set(v)` (reactive.rs:126-139) the signal holds `v` for `get` and
   * `get_untracked`, when no subscriber of it calls `set` in turn; no other
   * value changes.
   */
  lemma {:induction false} SetThenGet(w: World, s: SignalId, v: int, fuel: nat)
    requires Valid(w) && Unborrowed(w) && s < |w.cells| && fuel >= 1
    requires forall k :: 0 <= k < |w.cells[s].subscribers| ==> Quiet(w.callbacks[w.cells[s].subscribers[k]])
    ensures Set(w, s, v, fuel).Done?
    ensures GetUntracked(Set(w, s, v, fuel).world, s) == v
    ensures Get(Set(w, s, v, fuel).world, s).1 == v
    ensures forall c :: 0 <= c < |w.cells| && c != s ==> Set(w, s, v, fuel).world.cells[c].value == w.cells[c].value
  {
    var w1 := UpdateValue(w, s, v);
    NotifyQuiet(w1, w1.cells[s].subscribers, 0, fuel);
  }

  /** With no subscriber, `set` only stores the value. */
  lemma {:induction false} SetUnobserved(w: World, s: SignalId, v: int, fuel: nat)
    requires Valid(w) && s < |w.cells| && !w.cells[s].borrowed && w.cells[s].subscribers == []
    ensures Set(w, s, v, fuel) == Done(UpdateValue(w, s, v))
  {
  }

  /** A cell that is borrowed (inside its own getter) makes `set` panic (reactive.rs:127-131). */
  lemma {:induction false} SetBorrowedPanics(w: World, s: SignalId, v: int, fuel: nat)
    requires Valid(w) && s < |w.cells| && w.cells[s].borrowed
    ensures Set(w, s, v, fuel) == Panic(CyclicDependency)
  {
  }

  // ---------------------------------------------------------------------
  // Creation
  // ---------------------------------------------------------------------

  /**
   * `create_effect` (reactive.rs:295-345) on a body whose writes reach no
   * subscriber, with one level of stack for the first run: the body runs
   * once, the new record depends on exactly what it read, each once, and
   * the new `execute` callback is subscribed to exactly those signals.  No
   * other subscription changes, and the values are those the body's writes
   * leave.
   */
  lemma {:induction false} EffectCreation(w: World, body: Stmt, fuel: nat)
    requires Valid(w) && StmtIn(body, |w.cells|) && Unobserved(w.cells, body)
    ensures var r := CreateEffect(w, body, fuel + 1);
            var t := Run(w.cells, body);
            var h := |w.callbacks|;
            && r.Done?
            && r.world.records == w.records + [Running(h, PushAll([], t.tracked))]
            && (forall s :: 0 <= s < |w.cells| ==> (h in r.world.cells[s].subscribers <==> s in t.tracked))
            && (forall s, x :: 0 <= s < |w.cells| && x != h ==>
                  (x in r.world.cells[s].subscribers <==> x in w.cells[s].subscribers))
            && (forall s :: 0 <= s < |w.cells| ==> r.world.cells[s].value == t.after[s].value)
  {
    var w1 := EffectFirstRun(w, body, fuel);
    FirstRunRebuilds(w, w1, body, fuel);
  }

  /** EffectRebuildsDependencies for the fresh record of EffectFirstRun, read in terms of the world before creation. */
  lemma {:induction false} FirstRunRebuilds(w: World, w1: World, body: Stmt, fuel: nat)
    requires Valid(w) && StmtIn(body, |w.cells|) && Unobserved(w.cells, body)
    requires Valid(w1) && w1.cells == w.cells && |w1.callbacks| == |w.callbacks| + 1
    requires w1.records == w.records + [Running(|w.callbacks|, [])]
    ensures var r := RunEffect(w1, |w.records|, body, fuel);
            var t := Run(w.cells, body);
            var h := |w.callbacks|;
            && r.Done?
            && r.world.records == w.records + [Running(h, PushAll([], t.tracked))]
            && (forall s :: 0 <= s < |w.cells| ==> (h in r.world.cells[s].subscribers <==> s in t.tracked))
            && (forall s, x :: 0 <= s < |w.cells| && x != h ==>
                  (x in r.world.cells[s].subscribers <==> x in w.cells[s].subscribers))
            && (forall s :: 0 <= s < |w.cells| ==> r.world.cells[s].value == t.after[s].value)
  {
    var h := |w.callbacks|;
    var run := |w.records|;
    var t := Run(w.cells, body);
    assert w1.records[run] == Running(h, []);
    EffectRebuildsDependencies(w1, run, body, fuel);
    var r := RunEffect(w1, run, body, fuel).world;
    AppendThenUpdate(w.records, Running(h, []), Running(h, PushAll([], t.tracked)));
    forall s | 0 <= s < |w.cells|
      ensures h in r.cells[s].subscribers <==> s in t.tracked
    {
      NotAbove(w.cells[s].subscribers, |w.callbacks|);
    }
  }

  /**
   * Creating an effect installs its record and callback and re-runs it once
   * through the callback: the creation is the re-run of the fresh record.
   */
  lemma {:induction false} EffectFirstRun(w: World, body: Stmt, fuel: nat) returns (w1: World)
    requires Valid(w) && StmtIn(body, |w.cells|)
    ensures w1 == Install(w, body) && Valid(w1) && w1.cells == w.cells
    ensures w1.records == w.records + [Running(|w.callbacks|, [])]
    ensures w1.records[|w.records|] == Running(|w.callbacks|, [])
    ensures CreateEffect(w, body, fuel + 1) == RunEffect(w1, |w.records|, body, fuel)
  {
    w1 := Install(w, body);
    assert w1.callbacks[|w.callbacks|] == Execute(|w.records|, body);
    CallEffect(w1, |w.callbacks|, fuel + 1);
  }

  /** Replacing the element just appended is appending the replacement. */
  lemma {:induction false} AppendThenUpdate<T>(s: seq<T>, a: T, b: T)
    ensures (s + [a])[|s| := b] == s + [b]
  {
  }

  /** A list of identities below `n` does not hold `n` or anything above. */
  lemma {:induction false} NotAbove(l: seq<nat>, n: nat)
    requires IdsBelow(l, n)
    ensures forall x :: x in l ==> x < n
  {
    forall x | x in l ensures x < n {
      var k :| 0 <= k < |l| && l[k] == x;
    }
  }

  /**
   * The first run of a selector's derivation (reactive.rs:386-402 inside
   * reactive.rs:258-268) when its prelude's writes reach no subscriber: the
   * derivation's reads go to the fresh record, the memo holds the derived
   * value, and the update callback exists.
   */
  lemma {:induction false} SelectorFirstRun(w: World, d: Derivation, same: (int, int) -> bool, fuel: nat) returns (w2: World)
    requires Valid(w) && DerivationIn(d, |w.cells|) && Unobserved(w.cells, d.prelude)
    ensures SelectorInitial(Enter(w), d, same, fuel) == Done(w2)
    ensures Valid(w2) && w2.contexts == w.contexts + [|w.records|]
    ensures w2.callbacks == w.callbacks + [Noop, Update(|w.cells|, d, same)]
    ensures w2.records == w.records + [Running(|w.callbacks|, PushAll([], DerivationReads(w.cells, d)))]
    ensures |w2.cells| == |w.cells| + 1 && w2.cells[|w.cells|] == Cell(DerivedValue(w.cells, d), [], false)
    ensures forall i :: 0 <= i < |w.cells| ==> w2.cells[i] == Run(w.cells, d.prelude).after[i]
  {
    var w1 := Enter(w);
    var seen := DerivationReads(w.cells, d);
    DeriveUnobserved(w1, d, fuel);
    TrackAllInContext(w1, seen, |w.records|);
    AppendThenUpdate(w.records, Running(|w.callbacks|, []), Running(|w.callbacks|, PushAll([], seen)));
    w2 := SelectorInitial(w1, d, same, fuel).world;
  }

  /**
   * `create_selector_with` (reactive.rs:377-403) on a derivation whose
   * prelude's writes reach no subscriber: the memo is a new signal holding
   * the derived value, with no subscriber; the update callback is
   * subscribed to exactly the signals the derivation read, and never to
   * the memo itself; the placeholder record keeps those signals as its
   * dependencies.  No other subscription changes, and the values are those
   * the prelude's writes leave.
   */
  lemma {:induction false} SelectorCreation(w: World, d: Derivation, same: (int, int) -> bool, fuel: nat)
    requires Valid(w) && DerivationIn(d, |w.cells|) && Unobserved(w.cells, d.prelude)
    ensures var r := CreateSelectorWith(w, d, same, fuel);
            var seen := DerivationReads(w.cells, d);
            var m := |w.cells|;
            var u := |w.callbacks| + 1;
            && r.Done?
            && r.world.cells[m] == Cell(DerivedValue(w.cells, d), [], false)
            && r.world.records == w.records + [Running(|w.callbacks|, PushAll([], seen))]
            && (forall s :: 0 <= s < m ==> (u in r.world.cells[s].subscribers <==> s in seen))
            && (forall s, x :: 0 <= s < m && x != u ==>
                  (x in r.world.cells[s].subscribers <==> x in w.cells[s].subscribers))
            && (forall s :: 0 <= s < m ==> r.world.cells[s].value == Run(w.cells, d.prelude).after[s].value)
  {
    var seen := DerivationReads(w.cells, d);
    var u := |w.callbacks| + 1;
    var w2 := SelectorFirstRun(w, d, same, fuel);
    SelectorAttach(w, d, same, fuel, w2);
    var w4 := Attach(w2, u);
    var run := |w.records|;
    assert w2.contexts[|w2.contexts| - 1] == run;
    assert w2.records[run].dependencies == PushAll([], seen);
    PushAllMembers([], seen);
    NotAbove(seen, |w.cells|);
    var after := Run(w.cells, d.prelude).after;
    forall s | 0 <= s < |w.cells|
      ensures u in w4.cells[s].subscribers <==> s in seen
      ensures forall x :: x != u ==> (x in w4.cells[s].subscribers <==> x in w.cells[s].subscribers)
      ensures w4.cells[s].value == after[s].value
    {
      NotAbove(w.cells[s].subscribers, |w.callbacks|);
      assert w2.cells[s] == after[s];
      assert after[s].subscribers == w.cells[s].subscribers;
    }
  }

  /**
   * The subscriber lists `create_selector_with` leaves (reactive.rs:377-403):
   * the update callback comes last in the list of each signal the
   * derivation read, and every other list is as it was.
   */
  lemma {:induction false} SelectorSubscriberLists(w: World, d: Derivation, same: (int, int) -> bool, fuel: nat)
    requires Valid(w) && DerivationIn(d, |w.cells|) && Unobserved(w.cells, d.prelude)
    ensures var r := CreateSelectorWith(w, d, same, fuel);
            && r.Done? && |r.world.cells| == |w.cells| + 1
            && (forall s :: 0 <= s < |w.cells| ==>
                 r.world.cells[s].subscribers ==
                   if s in DerivationReads(w.cells, d) then w.cells[s].subscribers + [|w.callbacks| + 1] else w.cells[s].subscribers)
            && (forall s :: 0 <= s < |w.cells| ==> r.world.cells[s].borrowed == w.cells[s].borrowed)
            && !r.world.cells[|w.cells|].borrowed
  {
    var seen := DerivationReads(w.cells, d);
    var u := |w.callbacks| + 1;
    var w2 := SelectorFirstRun(w, d, same, fuel);
    SelectorAttach(w, d, same, fuel, w2);
    var w4 := Attach(w2, u);
    var run := |w.records|;
    assert w2.contexts[|w2.contexts| - 1] == run;
    assert w2.records[run].dependencies == PushAll([], seen);
    PushAllMembers([], seen);
    var after := Run(w.cells, d.prelude).after;
    forall s | 0 <= s < |w.cells|
      ensures w4.cells[s].subscribers == if s in seen then w.cells[s].subscribers + [u] else w.cells[s].subscribers
      ensures w4.cells[s].borrowed == w.cells[s].borrowed
    {
      NotAbove(w.cells[s].subscribers, |w.callbacks|);
      assert w2.cells[s] == after[s];
      assert after[s].subscribers == w.cells[s].subscribers;
    }
  }

  /** After its first run, `create_effect_initial` attaches the returned callback and pops (reactive.rs:270-288). */
  lemma {:induction false} SelectorAttach(w: World, d: Derivation, same: (int, int) -> bool, fuel: nat, w2: World)
    requires Valid(w) && DerivationIn(d, |w.cells|)
    requires SelectorInitial(Enter(w), d, same, fuel) == Done(w2)
    ensures Valid(w2) && w2.contexts != [] && |w.callbacks| + 1 < |w2.callbacks|
    ensures CreateSelectorWith(w, d, same, fuel) == Done(Attach(w2, |w.callbacks| + 1))
  {
  }
}
