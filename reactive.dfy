/**
 * The reactive engine of maple-core/src/reactive.rs as functions over one
 * value, World, holding every piece of state the source keeps behind
 * `Rc<RefCell<…>>` pointers and in the thread-local context stack:
 *  - `cells`: the `SignalInner` of every signal, indexed by signal identity;
 *  - `records`: the `Running` record of every effect (the shared
 *    `Rc<RefCell<Option<Running>>>`), indexed by record identity;
 *  - `callbacks`: every `Callback` created, indexed by callback identity;
 *  - `contexts`: the `CONTEXTS` stack of record identities, innermost last.
 * Closures cannot be stored in Dafny values, so effect bodies and memo
 * derivations are small scripts (Expr, Stmt, Derivation) that the
 * functions interpret.  Running user code nests: `set` calls subscribers,
 * whose bodies may call `set` again.  `fuel` bounds the depth of that
 * nesting (one unit per callback call); running out of it stands for the
 * call stack overflowing.
 */
module Reactive {
  import opened Subscribers

  type SignalId = nat
  type RecordId = nat
  type CallbackId = nat

  /** An expression of an effect body or a derivation. */
  datatype Expr =
    | Lit(n: int)
    | Read(signal: SignalId)           // `*signal.get()`
    | ReadUntracked(signal: SignalId)  // `*signal.get_untracked()`
    | Plus(left: Expr, right: Expr)
    | Times(left: Expr, right: Expr)

  /** A statement of an effect body or a derivation; a nonzero condition counts as true. */
  datatype Stmt =
    | Skip
    | Do(e: Expr)                       // evaluate and discard, as in `state.get();`
    | Write(signal: SignalId, e: Expr)  // `signal.set(e)`
    | If(cond: Expr, thn: Stmt, els: Stmt)
    | Then(first: Stmt, second: Stmt)

  /** The closure given to a memo or selector: statements, then the value it returns. */
  datatype Derivation = Derivation(prelude: Stmt, result: Expr)

  /** `SignalInner` (reactive.rs:170-173) and whether its `RefCell` is borrowed. */
  datatype Cell = Cell(value: int, subscribers: seq<CallbackId>, borrowed: bool)

  /** `Running` (reactive.rs:8-11). */
  datatype Running = Running(execute: CallbackId, dependencies: seq<SignalId>)

  /**
   * The closures wrapped in a `Callback`: the placeholder of
   * `create_effect_initial` (reactive.rs:259), the `execute` closure of
   * `create_effect` (reactive.rs:301-337) and the subscribed closure of a
   * memo or selector (reactive.rs:270-272 around 389-399).
   */
  datatype Callback =
    | Noop
    | Execute(running: RecordId, body: Stmt)
    | Update(memo: SignalId, derived: Derivation, same: (int, int) -> bool)

  datatype World = World(cells: seq<Cell>, records: seq<Running>, callbacks: seq<Callback>, contexts: seq<RecordId>)

  /** Why a run panics: the message of reactive.rs:130, or a stack overflow. */
  datatype Failure = CyclicDependency | Exhausted

  datatype Outcome = Done(world: World) | Panic(failure: Failure)

  /** What running a derivation gives: the world after it and its value, or a panic. */
  datatype Derived = Derived(world: World, value: int) | Failed(failure: Failure)
  {
    function Ran(): Outcome
    {
      if Derived? then Done(world) else Panic(failure)
    }
  }

  // ---------------------------------------------------------------------
  // Scripts and well-formed worlds
  // ---------------------------------------------------------------------

  /** Every signal `e` names is below `n`. */
  predicate ExprIn(e: Expr, n: nat)
  {
    match e
    case Lit(_) => true
    case Read(s) => s < n
    case ReadUntracked(s) => s < n
    case Plus(a, b) => ExprIn(a, n) && ExprIn(b, n)
    case Times(a, b) => ExprIn(a, n) && ExprIn(b, n)
  }

  /** Every signal `st` names is below `n`. */
  predicate StmtIn(st: Stmt, n: nat)
  {
    match st
    case Skip => true
    case Do(e) => ExprIn(e, n)
    case Write(s, e) => s < n && ExprIn(e, n)
    case If(c, a, b) => ExprIn(c, n) && StmtIn(a, n) && StmtIn(b, n)
    case Then(a, b) => StmtIn(a, n) && StmtIn(b, n)
  }

  predicate DerivationIn(d: Derivation, n: nat)
  {
    StmtIn(d.prelude, n) && ExprIn(d.result, n)
  }

  lemma {:induction false} ExprInGrows(e: Expr, n: nat, m: nat)
    requires ExprIn(e, n) && n <= m
    ensures ExprIn(e, m)
  {
    match e
    case Lit(_) =>
    case Read(_) =>
    case ReadUntracked(_) =>
    case Plus(a, b) => ExprInGrows(a, n, m); ExprInGrows(b, n, m);
    case Times(a, b) => ExprInGrows(a, n, m); ExprInGrows(b, n, m);
  }

  lemma {:induction false} StmtInGrows(st: Stmt, n: nat, m: nat)
    requires StmtIn(st, n) && n <= m
    ensures StmtIn(st, m)
  {
    match st
    case Skip =>
    case Do(e) => ExprInGrows(e, n, m);
    case Write(_, e) => ExprInGrows(e, n, m);
    case If(c, a, b) => ExprInGrows(c, n, m); StmtInGrows(a, n, m); StmtInGrows(b, n, m);
    case Then(a, b) => StmtInGrows(a, n, m); StmtInGrows(b, n, m);
  }

  function StmtSize(st: Stmt): nat
  {
    match st
    case If(_, a, b) => StmtSize(a) + StmtSize(b) + 1
    case Then(a, b) => StmtSize(a) + StmtSize(b) + 1
    case _ => 1
  }

  predicate IdsBelow(l: seq<nat>, n: nat)
  {
    forall k :: 0 <= k < |l| ==> l[k] < n
  }

  /** Removing an entry keeps the identities of a list in range. */
  lemma {:induction false} RemoveBelow(l: seq<nat>, x: nat, n: nat)
    requires IdsBelow(l, n)
    ensures IdsBelow(Remove(l, x), n)
  {
    var r := Remove(l, x);
    forall k | 0 <= k < |r| ensures r[k] < n {
      assert r[k] in r;
      var j :| 0 <= j < |l| && l[j] == r[k];
    }
  }

  predicate CallbackIn(c: Callback, cells: nat, records: nat)
  {
    match c
    case Noop => true
    case Execute(run, body) => run < records && StmtIn(body, cells)
    case Update(m, d, _) => m < cells && DerivationIn(d, cells)
  }

  /** Every identity stored in the world names an existing entry. */
  predicate Valid(w: World)
  {
    && (forall i :: 0 <= i < |w.cells| ==> IdsBelow(w.cells[i].subscribers, |w.callbacks|))
    && (forall i :: 0 <= i < |w.records| ==>
          w.records[i].execute < |w.callbacks| && IdsBelow(w.records[i].dependencies, |w.cells|))
    && (forall i :: 0 <= i < |w.callbacks| ==> CallbackIn(w.callbacks[i], |w.cells|, |w.records|))
    && IdsBelow(w.contexts, |w.records|)
  }

  /** No signal's `RefCell` is borrowed. */
  predicate Unborrowed(w: World)
  {
    forall i :: 0 <= i < |w.cells| ==> !w.cells[i].borrowed
  }

  /**
   * What running user code leaves alone: the callbacks, the context stack,
   * the number of cells and records, and every borrow flag.
   */
  ghost predicate Steady(w: World, w': World)
  {
    && |w'.cells| == |w.cells| && |w'.records| == |w.records|
    && w'.callbacks == w.callbacks && w'.contexts == w.contexts
    && (forall i :: 0 <= i < |w.cells| ==> w'.cells[i].borrowed == w.cells[i].borrowed)
  }

  /**
   * The contract of every function that runs user code: a finished run
   * leaves a valid world with the same context stack (the `debug_assert_eq!`
   * of reactive.rs:330-334), and the cyclic-dependency panic needs a
   * borrowed cell.
   */
  ghost predicate Keeps(w: World, r: Outcome)
  {
    && (r.Done? ==> Valid(r.world) && Steady(w, r.world))
    && (r.Panic? && r.failure == CyclicDependency ==> !Unborrowed(w))
  }

  lemma {:induction false} KeepsChain(w: World, w1: World, r: Outcome)
    requires Keeps(w, Done(w1)) && Keeps(w1, r)
    ensures Keeps(w, r)
  {
    if r.Panic? && r.failure == CyclicDependency {
      var i :| 0 <= i < |w1.cells| && w1.cells[i].borrowed;
      assert w.cells[i].borrowed;
    }
  }

  // ---------------------------------------------------------------------
  // Signal cells
  // ---------------------------------------------------------------------

  /** A world with no signal, no effect and an empty context stack. */
  function Empty(): (w: World)
    ensures Valid(w) && Unborrowed(w) && w.contexts == []
  {
    World([], [], [], [])
  }

  /** Callbacks that name existing entries still do once more entries exist. */
  lemma {:induction false} CallbacksGrow(cbs: seq<Callback>, cells: nat, records: nat, cells': nat, records': nat)
    requires cells <= cells' && records <= records'
    requires forall i :: 0 <= i < |cbs| ==> CallbackIn(cbs[i], cells, records)
    ensures forall i :: 0 <= i < |cbs| ==> CallbackIn(cbs[i], cells', records')
  {
    forall i | 0 <= i < |cbs|
      ensures CallbackIn(cbs[i], cells', records')
    {
      match cbs[i]
      case Noop =>
      case Execute(_, body) => StmtInGrows(body, cells, cells');
      case Update(_, d, _) =>
        StmtInGrows(d.prelude, cells, cells');
        ExprInGrows(d.result, cells, cells');
    }
  }

  /** `Signal::new` (reactive.rs:117-121): a fresh cell holding `v`, with no subscriber. */
  function NewSignal(w: World, v: int): (w': World)
    requires Valid(w)
    ensures Valid(w') && |w'.cells| == |w.cells| + 1
    ensures w'.cells[|w.cells|] == Cell(v, [], false)
    ensures forall i :: 0 <= i < |w.cells| ==> w'.cells[i] == w.cells[i]
    ensures w'.records == w.records && w'.callbacks == w.callbacks && w'.contexts == w.contexts
    ensures Unborrowed(w) ==> Unborrowed(w')
  {
    CallbacksGrow(w.callbacks, |w.cells|, |w.records|, |w.cells| + 1, |w.records|);
    w.(cells := w.cells + [Cell(v, [], false)])
  }

  /** `get_untracked` (reactive.rs:87-89): the stored value, nothing else. */
  function GetUntracked(w: World, s: SignalId): int
    requires s < |w.cells|
  {
    w.cells[s].value
  }

  /**
   * The registration half of `get` (reactive.rs:31-61): inside an effect,
   * the signal joins the innermost record's dependencies unless it is
   * already there; outside any effect, nothing changes.
   */
  function Track(w: World, s: SignalId): (w': World)
    requires Valid(w) && s < |w.cells|
    ensures Valid(w') && Steady(w, w') && w'.cells == w.cells
    ensures w.contexts == [] ==> w'.records == w.records
    ensures w.contexts != [] ==>
              var top := w.contexts[|w.contexts| - 1];
              w'.records == w.records[top := Running(w.records[top].execute, PushAbsent(w.records[top].dependencies, s))]
  {
    if w.contexts == [] then w
    else
      var top := w.contexts[|w.contexts| - 1];
      var rec := w.records[top];
      w.(records := w.records[top := rec.(dependencies := PushAbsent(rec.dependencies, s))])
  }

  /** `get` (reactive.rs:29-64): registration, then the stored value. */
  function Get(w: World, s: SignalId): (r: (World, int))
    requires Valid(w) && s < |w.cells|
    ensures r.1 == GetUntracked(w, s) && r.0.cells == w.cells
  {
    (Track(w, s), GetUntracked(w, s))
  }

  /** `SignalInner::update` (reactive.rs:217-219): replaces the value and touches nothing else. */
  function UpdateValue(w: World, s: SignalId, v: int): (w': World)
    requires Valid(w) && s < |w.cells|
    ensures Valid(w') && Steady(w, w') && w'.records == w.records
    ensures GetUntracked(w', s) == v && w'.cells[s].subscribers == w.cells[s].subscribers
    ensures forall i :: 0 <= i < |w.cells| && i != s ==> w'.cells[i] == w.cells[i]
  {
    w.(cells := w.cells[s := w.cells[s].(value := v)])
  }

  /** `SignalInner::subscribe` (reactive.rs:184-197) on cell `s`. */
  function Subscribe(w: World, s: SignalId, h: CallbackId): (w': World)
    requires Valid(w) && s < |w.cells| && h < |w.callbacks|
    ensures Valid(w') && Steady(w, w') && w'.records == w.records
    ensures w'.cells == w.cells[s := w.cells[s].(subscribers := PushAbsent(w.cells[s].subscribers, h))]
  {
    w.(cells := w.cells[s := w.cells[s].(subscribers := PushAbsent(w.cells[s].subscribers, h))])
  }

  /**
   * `SignalInner::unsubscribe` (reactive.rs:199-213) on cell `s`, as its doc
   * comment describes it: `h` is removed and every other subscriber stays.
   * The filter in the source keeps only `h` instead (Subscribers.KeepOnly).
   */
  function Unsubscribe(w: World, s: SignalId, h: CallbackId): (w': World)
    requires Valid(w) && s < |w.cells|
    ensures Valid(w') && Steady(w, w') && w'.records == w.records
    ensures w'.cells == w.cells[s := w.cells[s].(subscribers := Remove(w.cells[s].subscribers, h))]
  {
    RemoveBelow(w.cells[s].subscribers, h, |w.callbacks|);
    w.(cells := w.cells[s := w.cells[s].(subscribers := Remove(w.cells[s].subscribers, h))])
  }

  /** Whether `x` is among the first `n` entries of `l`. */
  predicate Among(l: seq<nat>, n: nat, x: nat)
    requires n <= |l|
    decreases n
  {
    n > 0 && (l[n - 1] == x || Among(l, n - 1, x))
  }

  lemma {:induction false} AmongIn(l: seq<nat>, n: nat, x: nat)
    requires n <= |l|
    ensures Among(l, n, x) <==> exists k :: 0 <= k < n && l[k] == x
    decreases n
  {
    if n > 0 {
      AmongIn(l, n - 1, x);
    }
  }

  /** Among the whole list means in the list. */
  lemma {:induction false} AmongAll(l: seq<nat>, x: nat)
    ensures Among(l, |l|, x) <==> x in l
  {
    AmongIn(l, |l|, x);
  }

  /**
   * Subscribes `h` to the first `n` signals of `deps`, in order
   * (reactive.rs:275-285, 315-326): each of those cells gains `h` once,
   * every other cell stays as it was.
   */
  function SubscribeUpTo(w: World, deps: seq<SignalId>, n: nat, h: CallbackId): (w': World)
    requires Valid(w) && n <= |deps| && IdsBelow(deps, |w.cells|) && h < |w.callbacks|
    ensures Valid(w') && Steady(w, w') && w'.records == w.records
    ensures forall i :: 0 <= i < |w.cells| ==>
              w'.cells[i] == if Among(deps, n, i) then w.cells[i].(subscribers := PushAbsent(w.cells[i].subscribers, h)) else w.cells[i]
    decreases n
  {
    if n == 0 then w
    else Subscribe(SubscribeUpTo(w, deps, n - 1, h), deps[n - 1], h)
  }

  /**
   * Unsubscribes `h` from the first `n` signals of `deps`, in order
   * (reactive.rs:241-247): each of those cells loses `h`, every other
   * cell stays as it was.
   */
  function UnsubscribeUpTo(w: World, deps: seq<SignalId>, n: nat, h: CallbackId): (w': World)
    requires Valid(w) && n <= |deps| && IdsBelow(deps, |w.cells|)
    ensures Valid(w') && Steady(w, w') && w'.records == w.records
    ensures forall i :: 0 <= i < |w.cells| ==>
              w'.cells[i] == if Among(deps, n, i) then w.cells[i].(subscribers := Remove(w.cells[i].subscribers, h)) else w.cells[i]
    decreases n
  {
    if n == 0 then w
    else
      var w1 := UnsubscribeUpTo(w, deps, n - 1, h);
      var d := deps[n - 1];
      assert Among(deps, n - 1, d) ==> Remove(w1.cells[d].subscribers, h) == w1.cells[d].subscribers;
      Unsubscribe(w1, d, h)
  }

  /**
   * `cleanup_running` (reactive.rs:238-250): the record's `execute`
   * callback leaves every signal the record depends on, then the
   * dependency list is cleared.
   */
  function Cleanup(w: World, run: RecordId): (w': World)
    requires Valid(w) && run < |w.records|
    ensures Valid(w') && Steady(w, w')
    ensures w'.records == w.records[run := Running(w.records[run].execute, [])]
    ensures forall i :: 0 <= i < |w.cells| ==>
              w'.cells[i] == if i in w.records[run].dependencies
                             then w.cells[i].(subscribers := Remove(w.cells[i].subscribers, w.records[run].execute))
                             else w.cells[i]
  {
    var rec := w.records[run];
    var w1 := UnsubscribeUpTo(w, rec.dependencies, |rec.dependencies|, rec.execute);
    forall i | 0 <= i < |w.cells| ensures Among(rec.dependencies, |rec.dependencies|, i) <==> i in rec.dependencies {
      AmongAll(rec.dependencies, i);
    }
    w1.(records := w1.records[run := rec.(dependencies := [])])
  }

  /**
   * The end of a run (reactive.rs:274-288, 314-328): `h` is subscribed to
   * every dependency of the innermost record, then that record is popped.
   */
  function Attach(w: World, h: CallbackId): (w': World)
    requires Valid(w) && w.contexts != [] && h < |w.callbacks|
    ensures Valid(w') && w'.contexts == w.contexts[..|w.contexts| - 1]
    ensures w'.records == w.records && w'.callbacks == w.callbacks && |w'.cells| == |w.cells|
    ensures forall i :: 0 <= i < |w.cells| ==>
              w'.cells[i] == if i in w.records[w.contexts[|w.contexts| - 1]].dependencies
                             then w.cells[i].(subscribers := PushAbsent(w.cells[i].subscribers, h))
                             else w.cells[i]
  {
    var deps := w.records[w.contexts[|w.contexts| - 1]].dependencies;
    var w1 := SubscribeUpTo(w, deps, |deps|, h);
    forall i | 0 <= i < |w.cells| ensures Among(deps, |deps|, i) <==> i in deps {
      AmongAll(deps, i);
    }
    w1.(contexts := w1.contexts[..|w1.contexts| - 1])
  }

  // ---------------------------------------------------------------------
  // Running scripts
  // ---------------------------------------------------------------------

  /** Evaluates `e` left to right; `Read` registers its signal as `get` does. */
  function Evaluate(w: World, e: Expr): (r: (World, int))
    requires Valid(w) && ExprIn(e, |w.cells|)
    ensures Valid(r.0) && Steady(w, r.0) && r.0.cells == w.cells
    ensures w.contexts == [] ==> r.0.records == w.records
    decreases e
  {
    match e
    case Lit(n) => (w, n)
    case Read(s) => Get(w, s)
    case ReadUntracked(s) => (w, GetUntracked(w, s))
    case Plus(a, b) =>
      var p := Evaluate(w, a);
      var q := Evaluate(p.0, b);
      (q.0, p.1 + q.1)
    case Times(a, b) =>
      var p := Evaluate(w, a);
      var q := Evaluate(p.0, b);
      (q.0, p.1 * q.1)
  }

  /** Runs statement `st`. */
  function Exec(w: World, st: Stmt, fuel: nat): (r: Outcome)
    requires Valid(w) && StmtIn(st, |w.cells|)
    ensures Keeps(w, r)
    decreases fuel, 2, StmtSize(st)
  {
    match st
    case Skip => Done(w)
    case Do(e) => Done(Evaluate(w, e).0)
    case Write(s, e) =>
      var p := Evaluate(w, e);
      var r := Set(p.0, s, p.1, fuel);
      KeepsChain(w, p.0, r);
      r
    case If(c, a, b) =>
      var p := Evaluate(w, c);
      var r := if p.1 != 0 then Exec(p.0, a, fuel) else Exec(p.0, b, fuel);
      KeepsChain(w, p.0, r);
      r
    case Then(a, b) =>
      match Exec(w, a, fuel)
      case Panic(f) => Panic(f)
      case Done(w1) =>
        var r := Exec(w1, b, fuel);
        KeepsChain(w, w1, r);
        r
  }

  /**
   * `Signal::set` (reactive.rs:126-139): panics when the cell is borrowed;
   * otherwise stores the value first, then calls the subscribers in the
   * order of the list as it stood after the update.
   */
  function Set(w: World, s: SignalId, v: int, fuel: nat): (r: Outcome)
    requires Valid(w) && s < |w.cells|
    ensures Keeps(w, r)
    ensures w.cells[s].borrowed ==> r.Panic? && r.failure == CyclicDependency
    decreases fuel, 1, 0
  {
    if w.cells[s].borrowed then Panic(CyclicDependency)
    else
      var w1 := UpdateValue(w, s, v);
      var r := Notify(w1, w1.cells[s].subscribers, 0, fuel);
      KeepsChain(w, w1, r);
      r
  }

  /** The loop of reactive.rs:136-138 from position `i` of the snapshot `subs`. */
  function Notify(w: World, subs: seq<CallbackId>, i: nat, fuel: nat): (r: Outcome)
    requires Valid(w) && i <= |subs| && IdsBelow(subs, |w.callbacks|)
    ensures Keeps(w, r)
    decreases fuel, 0, |subs| - i
  {
    if i == |subs| then Done(w)
    else
      match Call(w, subs[i], fuel)
      case Panic(f) => Panic(f)
      case Done(w1) =>
        var r := Notify(w1, subs, i + 1, fuel);
        KeepsChain(w, w1, r);
        r
  }

  /** Calls callback `cb` (`subscriber.0()`), one level deeper on the stack. */
  function Call(w: World, cb: CallbackId, fuel: nat): (r: Outcome)
    requires Valid(w) && cb < |w.callbacks|
    ensures Keeps(w, r)
    decreases fuel, 0, 0
  {
    if fuel == 0 then Panic(Exhausted)
    else
      match w.callbacks[cb]
      case Noop => Done(w)
      case Execute(run, body) => RunEffect(w, run, body, fuel - 1)
      case Update(m, d, same) => RunUpdate(w, m, d, same, fuel - 1)
  }

  /**
   * The `execute` closure of `create_effect` (reactive.rs:303-336): clean
   * up, push the record, run the body, subscribe `execute` to what the
   * innermost record now depends on, pop.
   */
  function RunEffect(w: World, run: RecordId, body: Stmt, fuel: nat): (r: Outcome)
    requires Valid(w) && run < |w.records| && StmtIn(body, |w.cells|)
    ensures Keeps(w, r)
    decreases fuel, 3, 0
  {
    var w1 := Cleanup(w, run);
    var w2 := w1.(contexts := w1.contexts + [run]);
    match Exec(w2, body, fuel)
    case Panic(f) =>
      assert Unborrowed(w) ==> Unborrowed(w2);
      Panic(f)
    case Done(w3) =>
      Done(Attach(w3, w3.records[run].execute))
  }

  /** `derived()` (reactive.rs:387, 394): the closure's statements, then its value. */
  function Derive(w: World, d: Derivation, fuel: nat): (r: Derived)
    requires Valid(w) && DerivationIn(d, |w.cells|)
    ensures Keeps(w, r.Ran())
    decreases fuel, 2, StmtSize(d.prelude) + 1
  {
    match Exec(w, d.prelude, fuel)
    case Panic(f) => Failed(f)
    case Done(w1) =>
      var p := Evaluate(w1, d.result);
      KeepsChain(w, w1, Done(p.0));
      Derived(p.0, p.1)
  }

  /**
   * The closure a memo or selector subscribes (reactive.rs:393-398): run
   * the derivation where the caller runs it (no context of its own, no
   * change to the subscriptions), then `set` the memo unless the
   * comparator calls the stored and the new value the same.
   */
  function RunUpdate(w: World, m: SignalId, d: Derivation, same: (int, int) -> bool, fuel: nat): (r: Outcome)
    requires Valid(w) && m < |w.cells| && DerivationIn(d, |w.cells|)
    ensures Keeps(w, r)
    decreases fuel, 3, 0
  {
    match Derive(w, d, fuel)
    case Failed(f) => Panic(f)
    case Derived(w1, v) =>
      var r := if same(GetUntracked(w1, m), v) then Done(w1) else Set(w1, m, v, fuel);
      KeepsChain(w, w1, r);
      r
  }

  // ---------------------------------------------------------------------
  // Creating effects, memos and selectors
  // ---------------------------------------------------------------------

  /** The effect `create_effect` sets up before its first run: a record and its `execute` callback. */
  function Install(w: World, body: Stmt): (w': World)
    requires Valid(w) && StmtIn(body, |w.cells|)
    ensures Valid(w') && w'.cells == w.cells && w'.contexts == w.contexts
    ensures w'.records == w.records + [Running(|w.callbacks|, [])]
    ensures w'.callbacks == w.callbacks + [Execute(|w.records|, body)]
  {
    CallbacksGrow(w.callbacks, |w.cells|, |w.records|, |w.cells|, |w.records| + 1);
    w.(records := w.records + [Running(|w.callbacks|, [])],
       callbacks := w.callbacks + [Execute(|w.records|, body)])
  }

  /**
   * `create_effect` (reactive.rs:295-345): installs the effect, then calls
   * its `execute` callback once, so the body runs at creation.
   */
  function CreateEffect(w: World, body: Stmt, fuel: nat): (r: Outcome)
    requires Valid(w) && StmtIn(body, |w.cells|)
    ensures r.Done? ==> Valid(r.world) && r.world.contexts == w.contexts
    ensures r.Done? ==> |r.world.cells| == |w.cells| && |r.world.records| == |w.records| + 1
    ensures r.Done? ==> r.world.callbacks == w.callbacks + [Execute(|w.records|, body)]
    ensures r.Done? ==> (Unborrowed(w) ==> Unborrowed(r.world))
    ensures Unborrowed(w) ==> !(r.Panic? && r.failure == CyclicDependency)
  {
    var w1 := Install(w, body);
    Call(w1, |w.callbacks|, fuel)
  }

  /**
   * The start of `create_effect_initial` (reactive.rs:258-265): a record
   * with a placeholder `execute`, pushed on the context stack.
   */
  function Enter(w: World): (w': World)
    requires Valid(w)
    ensures Valid(w') && w'.cells == w.cells
    ensures w'.records == w.records + [Running(|w.callbacks|, [])]
    ensures w'.callbacks == w.callbacks + [Noop]
    ensures w'.contexts == w.contexts + [|w.records|]
  {
    CallbacksGrow(w.callbacks, |w.cells|, |w.records|, |w.cells|, |w.records| + 1);
    w.(records := w.records + [Running(|w.callbacks|, [])],
       callbacks := w.callbacks + [Noop],
       contexts := w.contexts + [|w.records|])
  }

  /**
   * The closure `create_selector_with` hands to `create_effect_initial`
   * (reactive.rs:386-402), its only caller: derive the first value, store
   * it in a new signal (the memo), and create the update callback.
   */
  function SelectorInitial(w: World, d: Derivation, same: (int, int) -> bool, fuel: nat): (r: Outcome)
    requires Valid(w) && DerivationIn(d, |w.cells|)
    ensures r.Done? ==> Valid(r.world) && r.world.contexts == w.contexts
    ensures r.Done? ==> |r.world.cells| == |w.cells| + 1 && |r.world.records| == |w.records|
    ensures r.Done? ==> r.world.callbacks == w.callbacks + [Update(|w.cells|, d, same)]
    ensures r.Done? ==> var e := Derive(w, d, fuel);
              && e.Derived?
              && r.world.cells[|w.cells|] == Cell(e.value, [], false)
              && r.world.records == e.world.records
              && (forall i :: 0 <= i < |w.cells| ==> r.world.cells[i] == e.world.cells[i])
    ensures r.Done? ==> (Unborrowed(w) ==> Unborrowed(r.world))
    ensures Unborrowed(w) ==> !(r.Panic? && r.failure == CyclicDependency)
  {
    match Derive(w, d, fuel)
    case Failed(f) => Panic(f)
    case Derived(w1, v) =>
      var w2 := NewSignal(w1, v);
      StmtInGrows(d.prelude, |w.cells|, |w2.cells|);
      ExprInGrows(d.result, |w.cells|, |w2.cells|);
      Done(w2.(callbacks := w2.callbacks + [Update(|w1.cells|, d, same)]))
  }

  /**
   * `create_effect_initial` (reactive.rs:256-292) around the selector's
   * closure: enter a fresh context, run the closure, subscribe the
   * callback it returned to every signal the context recorded, pop the
   * context.  The memo is the signal created at position |w.cells|.
   */
  function CreateEffectInitial(w: World, d: Derivation, same: (int, int) -> bool, fuel: nat): (r: Outcome)
    requires Valid(w) && DerivationIn(d, |w.cells|)
    ensures r.Done? ==> Valid(r.world) && r.world.contexts == w.contexts
    ensures r.Done? ==> |r.world.cells| == |w.cells| + 1 && |r.world.records| == |w.records| + 1
    ensures r.Done? ==> r.world.callbacks == w.callbacks + [Noop, Update(|w.cells|, d, same)]
    ensures r.Done? ==> (Unborrowed(w) ==> Unborrowed(r.world))
    ensures Unborrowed(w) ==> !(r.Panic? && r.failure == CyclicDependency)
  {
    var w1 := Enter(w);
    match SelectorInitial(w1, d, same, fuel)
    case Panic(f) => Panic(f)
    case Done(w2) =>
      assert w2.callbacks == w.callbacks + [Noop, Update(|w.cells|, d, same)];
      Done(Attach(w2, |w1.callbacks|))
  }

  /** `create_selector_with` (reactive.rs:377-403). */
  function CreateSelectorWith(w: World, d: Derivation, same: (int, int) -> bool, fuel: nat): (r: Outcome)
    requires Valid(w) && DerivationIn(d, |w.cells|)
    ensures r.Done? ==> Valid(r.world) && r.world.contexts == w.contexts && |r.world.cells| == |w.cells| + 1
    ensures r.Done? ==> r.world.callbacks == w.callbacks + [Noop, Update(|w.cells|, d, same)]
  {
    CreateEffectInitial(w, d, same, fuel)
  }

  /** `create_memo` (reactive.rs:348-354): a selector whose comparator never calls two values the same. */
  function CreateMemo(w: World, d: Derivation, fuel: nat): (r: Outcome)
    requires Valid(w) && DerivationIn(d, |w.cells|)
    ensures r.Done? ==> Valid(r.world) && r.world.contexts == w.contexts && |r.world.cells| == |w.cells| + 1
    ensures r.Done? ==> |r.world.callbacks| == |w.callbacks| + 2
    ensures r.Done? ==> var cb := r.world.callbacks[|w.callbacks| + 1];
              cb.Update? && cb.memo == |w.cells| && cb.derived == d && forall a, b :: !cb.same(a, b)
  {
    CreateSelectorWith(w, d, (a, b) => false, fuel)
  }

  /** `create_selector` (reactive.rs:361-367): a selector comparing with `==`. */
  function CreateSelector(w: World, d: Derivation, fuel: nat): (r: Outcome)
    requires Valid(w) && DerivationIn(d, |w.cells|)
    ensures r.Done? ==> Valid(r.world) && r.world.contexts == w.contexts && |r.world.cells| == |w.cells| + 1
    ensures r.Done? ==> |r.world.callbacks| == |w.callbacks| + 2
    ensures r.Done? ==> var cb := r.world.callbacks[|w.callbacks| + 1];
              cb.Update? && cb.memo == |w.cells| && cb.derived == d && forall a, b :: cb.same(a, b) <==> a == b
  {
    CreateSelectorWith(w, d, (a, b) => a == b, fuel)
  }
}
