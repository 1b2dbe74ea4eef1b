/**
 * The reactive engine of maple-core/src/reactive.rs as the source runs it:
 * one object holding the signal cells, the effect records, the callbacks
 * and the context stack, whose methods update them in place.  Every method
 * is proved to leave exactly the state (and to report exactly the panic)
 * that the corresponding function of module Reactive describes, so the
 * laws of module ReactiveLaws hold of it.
 */
module Runtime {
  import opened Subscribers
  import opened Reactive

  /** How a call into the engine ends: normally, or with a panic. */
  datatype Status = Finished | Panicked(failure: Failure)

  /** `status` and the state `w` after a call are those the outcome `r` describes. */
  ghost predicate Ends(status: Status, r: Outcome, w: World)
  {
    if r.Done? then status == Finished && w == r.world else status == Panicked(r.failure)
  }

  /**
   * The identity search `iter().find(..).is_none()` of `get`
   * (reactive.rs:35-49) and `subscribe` (reactive.rs:186-193), negated.
   */
  method Contains(l: seq<nat>, x: nat) returns (found: bool)
    ensures found <==> x in l
  {
    var i := 0;
    while i < |l|
      invariant 0 <= i <= |l|
      invariant forall k :: 0 <= k < i ==> l[k] != x
    {
      if l[i] == x {
        return true;
      }
      i := i + 1;
    }
    return false;
  }

  /**
   * The filter of `unsubscribe` (reactive.rs:201-212) with the predicate
   * its doc comment describes: every entry other than `x`, in order.
   */
  method Without(l: seq<nat>, x: nat) returns (r: seq<nat>)
    ensures r == Remove(l, x)
  {
    r := [];
    var i := 0;
    while i < |l|
      invariant 0 <= i <= |l|
      invariant r == RemoveUpTo(l, i, x)
    {
      if l[i] != x {
        r := r + [l[i]];
      }
      i := i + 1;
    }
  }

  class Engine {
    var cells: seq<Cell>
    var records: seq<Running>
    var callbacks: seq<Callback>
    var contexts: seq<RecordId>

    /** The whole state as a value of module Reactive. */
    function State(): World
      reads this
    {
      World(cells, records, callbacks, contexts)
    }

    predicate Valid()
      reads this
    {
      Reactive.Valid(State())
    }

    /** No signal, no effect, an empty context stack. */
    constructor ()
      ensures State() == Empty() && Valid()
    {
      cells, records, callbacks, contexts := [], [], [], [];
    }

    /** `Signal::new` (reactive.rs:117-121): the identity of the new signal. */
    method NewSignal(v: int) returns (s: SignalId)
      requires Valid()
      modifies this
      ensures State() == Reactive.NewSignal(old(State()), v) && Valid()
      ensures s == |old(cells)|
    {
      s := |cells|;
      cells := cells + [Cell(v, [], false)];
    }

    /** `get_untracked` (reactive.rs:87-89). */
    method GetUntracked(s: SignalId) returns (v: int)
      requires Valid() && s < |cells|
      ensures v == Reactive.GetUntracked(State(), s)
    {
      v := cells[s].value;
    }

    /** `get` (reactive.rs:29-64). */
    method Get(s: SignalId) returns (v: int)
      requires Valid() && s < |cells|
      modifies this
      ensures State() == Track(old(State()), s) && Valid()
      ensures v == Reactive.GetUntracked(old(State()), s)
    {
      if contexts != [] {
        var top := contexts[|contexts| - 1];
        var rec := records[top];
        var found := Contains(rec.dependencies, s);
        if !found {
          records := records[top := Running(rec.execute, rec.dependencies + [s])];
        }
      }
      v := cells[s].value;
    }

    /** `SignalInner::update` (reactive.rs:217-219). */
    method Update(s: SignalId, v: int)
      requires Valid() && s < |cells|
      modifies this
      ensures State() == UpdateValue(old(State()), s, v) && Valid()
    {
      cells := cells[s := cells[s].(value := v)];
    }

    /** `SignalInner::subscribe` (reactive.rs:184-197). */
    method Subscribe(s: SignalId, h: CallbackId)
      requires Valid() && s < |cells| && h < |callbacks|
      modifies this
      ensures State() == Reactive.Subscribe(old(State()), s, h) && Valid()
    {
      var subs := cells[s].subscribers;
      var found := Contains(subs, h);
      if !found {
        cells := cells[s := cells[s].(subscribers := subs + [h])];
      }
    }

    /** `SignalInner::unsubscribe` (reactive.rs:199-213), as documented (see Without). */
    method Unsubscribe(s: SignalId, h: CallbackId)
      requires Valid() && s < |cells|
      modifies this
      ensures State() == Reactive.Unsubscribe(old(State()), s, h) && Valid()
    {
      var kept := Without(cells[s].subscribers, h);
      cells := cells[s := cells[s].(subscribers := kept)];
    }

    /** `cleanup_running` (reactive.rs:238-250). */
    method CleanupRunning(run: RecordId)
      requires Valid() && run < |records|
      modifies this
      ensures State() == Cleanup(old(State()), run) && Valid()
    {
      var execute := records[run].execute;
      var deps := records[run].dependencies;
      var i := 0;
      while i < |deps|
        invariant 0 <= i <= |deps|
        invariant Valid() && State() == UnsubscribeUpTo(old(State()), deps, i, execute)
      {
        Unsubscribe(deps[i], execute);
        i := i + 1;
      }
      records := records[run := Running(execute, [])];
    }

    /**
     * The attach loop and the pop of reactive.rs:274-288 and 314-328:
     * subscribes `h` to every dependency of the innermost record, then pops
     * that record.
     */
    method AttachTop(h: CallbackId)
      requires Valid() && contexts != [] && h < |callbacks|
      modifies this
      ensures State() == Attach(old(State()), h) && Valid()
    {
      var deps := records[contexts[|contexts| - 1]].dependencies;
      var i := 0;
      while i < |deps|
        invariant 0 <= i <= |deps|
        invariant Valid() && State() == SubscribeUpTo(old(State()), deps, i, h)
      {
        Subscribe(deps[i], h);
        i := i + 1;
      }
      contexts := contexts[..|contexts| - 1];
    }

    /** Evaluates `e` left to right, registering each `Read` as `get` does. */
    method Evaluate(e: Expr) returns (v: int)
      requires Valid() && ExprIn(e, |cells|)
      modifies this
      ensures State() == Reactive.Evaluate(old(State()), e).0 && Valid()
      ensures v == Reactive.Evaluate(old(State()), e).1
      decreases e
    {
      match e
      case Lit(n) =>
        v := n;
      case Read(s) =>
        v := Get(s);
      case ReadUntracked(s) =>
        v := GetUntracked(s);
      case Plus(a, b) =>
        var x := Evaluate(a);
        var y := Evaluate(b);
        v := x + y;
      case Times(a, b) =>
        var x := Evaluate(a);
        var y := Evaluate(b);
        v := x * y;
    }

    /** Runs statement `st`. */
    method Exec(st: Stmt, fuel: nat) returns (status: Status)
      requires Valid() && StmtIn(st, |cells|)
      modifies this
      ensures Ends(status, Reactive.Exec(old(State()), st, fuel), State())
      decreases fuel, 2, StmtSize(st)
    {
      match st
      case Skip =>
        status := Finished;
      case Do(e) =>
        var _ := Evaluate(e);
        status := Finished;
      case Write(s, e) =>
        var v := Evaluate(e);
        status := Set(s, v, fuel);
      case If(c, a, b) =>
        var v := Evaluate(c);
        if v != 0 {
          status := Exec(a, fuel);
        } else {
          status := Exec(b, fuel);
        }
      case Then(a, b) =>
        status := Exec(a, fuel);
        if status == Finished {
          status := Exec(b, fuel);
        }
    }

    /**
     * `Signal::set` (reactive.rs:126-139): the cyclic-dependency panic on a
     * borrowed cell; otherwise the update, then every subscriber of the
     * snapshot taken after it, in order.
     */
    method Set(s: SignalId, v: int, fuel: nat) returns (status: Status)
      requires Valid() && s < |cells|
      modifies this
      ensures Ends(status, Reactive.Set(old(State()), s, v, fuel), State())
      decreases fuel, 1, 0
    {
      if cells[s].borrowed {
        return Panicked(CyclicDependency);
      }
      Update(s, v);
      var subscribers := cells[s].subscribers;
      ghost var w1 := State();
      var i := 0;
      while i < |subscribers|
        invariant 0 <= i <= |subscribers|
        invariant Valid() && IdsBelow(subscribers, |callbacks|)
        invariant Reactive.Notify(w1, subscribers, 0, fuel) == Reactive.Notify(State(), subscribers, i, fuel)
      {
        status := Call(subscribers[i], fuel);
        if status != Finished {
          return;
        }
        i := i + 1;
      }
      status := Finished;
    }

    /** Calls callback `cb`, one level deeper on the stack. */
    method Call(cb: CallbackId, fuel: nat) returns (status: Status)
      requires Valid() && cb < |callbacks|
      modifies this
      ensures Ends(status, Reactive.Call(old(State()), cb, fuel), State())
      decreases fuel, 0, 0
    {
      if fuel == 0 {
        return Panicked(Exhausted);
      }
      match callbacks[cb]
      case Noop =>
        status := Finished;
      case Execute(run, body) =>
        status := RunEffect(run, body, fuel - 1);
      case Update(m, d, same) =>
        status := RunUpdate(m, d, same, fuel - 1);
    }

    /** The `execute` closure of `create_effect` (reactive.rs:303-336). */
    method RunEffect(run: RecordId, body: Stmt, fuel: nat) returns (status: Status)
      requires Valid() && run < |records| && StmtIn(body, |cells|)
      modifies this
      ensures Ends(status, Reactive.RunEffect(old(State()), run, body, fuel), State())
      decreases fuel, 3, 0
    {
      CleanupRunning(run);
      contexts := contexts + [run];
      status := Exec(body, fuel);
      if status != Finished {
        return;
      }
      AttachTop(records[run].execute);
    }

    /** `derived()`: the derivation's statements, then its value. */
    method Derive(d: Derivation, fuel: nat) returns (status: Status, v: int)
      requires Valid() && DerivationIn(d, |cells|)
      modifies this
      ensures var r := Reactive.Derive(old(State()), d, fuel);
              Ends(status, r.Ran(), State()) && (r.Derived? ==> v == r.value)
      decreases fuel, 2, StmtSize(d.prelude) + 1
    {
      v := 0;
      status := Exec(d.prelude, fuel);
      if status != Finished {
        return;
      }
      v := Evaluate(d.result);
    }

    /** The closure a memo or selector subscribes (reactive.rs:393-398). */
    method RunUpdate(m: SignalId, d: Derivation, same: (int, int) -> bool, fuel: nat) returns (status: Status)
      requires Valid() && m < |cells| && DerivationIn(d, |cells|)
      modifies this
      ensures Ends(status, Reactive.RunUpdate(old(State()), m, d, same, fuel), State())
      decreases fuel, 3, 0
    {
      var v;
      status, v := Derive(d, fuel);
      if status != Finished {
        return;
      }
      var stored := GetUntracked(m);
      if !same(stored, v) {
        status := Set(m, v, fuel);
      }
    }

    /** `create_effect` (reactive.rs:295-345). */
    method CreateEffect(body: Stmt, fuel: nat) returns (status: Status)
      requires Valid() && StmtIn(body, |cells|)
      modifies this
      ensures Ends(status, Reactive.CreateEffect(old(State()), body, fuel), State())
    {
      var execute := |callbacks|;
      records := records + [Running(execute, [])];
      callbacks := callbacks + [Execute(|records| - 1, body)];
      status := Call(execute, fuel);
    }

    /**
     * The closure `create_selector_with` hands to `create_effect_initial`
     * (reactive.rs:386-402): derive the first value, store it in a new
     * signal, create the update callback.
     */
    method SelectorInitial(d: Derivation, same: (int, int) -> bool, fuel: nat) returns (status: Status, memo: SignalId)
      requires Valid() && DerivationIn(d, |cells|)
      modifies this
      ensures Ends(status, Reactive.SelectorInitial(old(State()), d, same, fuel), State())
      ensures memo == |old(cells)|
    {
      memo := |cells|;
      var v;
      status, v := Derive(d, fuel);
      if status != Finished {
        return;
      }
      var _ := NewSignal(v);
      StmtInGrows(d.prelude, memo, |cells|);
      ExprInGrows(d.result, memo, |cells|);
      callbacks := callbacks + [Callback.Update(memo, d, same)];
    }

    /**
     * `create_selector_with` (reactive.rs:377-403) through
     * `create_effect_initial` (reactive.rs:256-292): push a record with a
     * placeholder callback, run the closure, attach the callback it
     * returned, pop.  Returns the memo's identity.
     */
    method CreateSelectorWith(d: Derivation, same: (int, int) -> bool, fuel: nat) returns (status: Status, memo: SignalId)
      requires Valid() && DerivationIn(d, |cells|)
      modifies this
      ensures Ends(status, Reactive.CreateSelectorWith(old(State()), d, same, fuel), State())
      ensures memo == |old(cells)|
    {
      CallbacksGrow(callbacks, |cells|, |records|, |cells|, |records| + 1);
      records, callbacks, contexts := records + [Running(|callbacks|, [])], callbacks + [Noop], contexts + [|records|];
      var effect := |callbacks|;
      status, memo := SelectorInitial(d, same, fuel);
      if status != Finished {
        return;
      }
      AttachTop(effect);
    }

    /** `create_memo` (reactive.rs:348-354). */
    method CreateMemo(d: Derivation, fuel: nat) returns (status: Status, memo: SignalId)
      requires Valid() && DerivationIn(d, |cells|)
      modifies this
      ensures Ends(status, Reactive.CreateMemo(old(State()), d, fuel), State())
      ensures memo == |old(cells)|
    {
      status, memo := CreateSelectorWith(d, (a, b) => false, fuel);
    }

    /** `create_selector` (reactive.rs:361-367). */
    method CreateSelector(d: Derivation, fuel: nat) returns (status: Status, memo: SignalId)
      requires Valid() && DerivationIn(d, |cells|)
      modifies this
      ensures Ends(status, Reactive.CreateSelector(old(State()), d, fuel), State())
      ensures memo == |old(cells)|
    {
      status, memo := CreateSelectorWith(d, (a, b) => a == b, fuel);
    }
  }
}
