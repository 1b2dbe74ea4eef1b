/**
 * The keyed and indexed mappers on the inputs of the source's own tests
 * (maple-core/src/reactive/iter.rs:214-326), stated on the reference
 * definitions and carried through the classes.
 */
module ListScenarios {
  import opened Options
  import opened KeyedSpec
  import opened KeyedList
  import IndexedList

  /** The test's counting mapper: the k-th call (from 0) returns k + 1, whatever the item. */
  function Counter(x: int, k: nat): int { k + 1 }

  /** The test's pure mapper `|x| *x * 2`. */
  function Double(x: int, k: nat): int { x * 2 }

  /** First call: every item is new and is mapped fresh, in order. */
  lemma KeyedCounterStep1()
    ensures Reconcile(Baseline([], [], [], 0), Counter, [1, 2, 3]) == Slots([1, 2, 3], [Some(0), Some(1), Some(2)], 3)
  {
  }

  /** Shrinking to [1, 2] keeps both outputs and maps nothing. */
  lemma KeyedCounterStep2()
    ensures Reconcile(Baseline([1, 2, 3], [1, 2, 3], [Some(0), Some(1), Some(2)], 3), Counter, [1, 2]) == Slots([1, 2], [Some(0), Some(1)], 3)
  {
  }

  /** Appending 4 maps only the new item, as the fourth call. */
  lemma KeyedCounterStep3()
    ensures Reconcile(Baseline([1, 2], [1, 2], [Some(0), Some(1)], 3), Counter, [1, 2, 4]) == Slots([1, 2, 4], [Some(0), Some(1), Some(3)], 4)
  {
  }

  /** Inserting 3 before 4 maps only 3; the output for 4 moves one place right with its scope. */
  lemma KeyedCounterStep4()
    ensures Reconcile(Baseline([1, 2, 4], [1, 2, 4], [Some(0), Some(1), Some(3)], 4), Counter, [1, 2, 3, 4])
            == Slots([1, 2, 5, 4], [Some(0), Some(1), Some(4), Some(3)], 5)
  {
  }

  /** keyed_use_previous_computation (iter.rs:238-259). */
  method KeyedCounterScenario() returns (outs: seq<seq<int>>)
    ensures outs == [[1, 2, 3], [1, 2], [1, 2, 4], [1, 2, 5, 4]]
  {
    var m := new KeyedMapper(Counter);
    KeyedCounterStep1();
    var a := m.Update([1, 2, 3]);
    KeyedCounterStep2();
    var b := m.Update([1, 2]);
    KeyedCounterStep3();
    var c := m.Update([1, 2, 4]);
    KeyedCounterStep4();
    var d := m.Update([1, 2, 3, 4]);
    outs := [a, b, c, d];
  }

  /** `mapped` is `items` doubled, position by position. */
  ghost predicate Doubled(items: seq<int>, mapped: seq<int>)
  {
    |mapped| == |items| && forall i :: 0 <= i < |items| ==> mapped[i] == items[i] * 2
  }

  /** Reconciling a doubled baseline with the doubling mapper yields `expected`, computed elementwise. */
  lemma KeyedDoubleStep(prev: Baseline<int, int>, newItems: seq<int>, expected: seq<int>)
    requires Aligned(prev) && Doubled(prev.items, prev.mapped) && Doubled(newItems, expected)
    ensures Reconcile(prev, Double, newItems).mapped == expected
  {
    PureMapElementwise(prev, Double, x => x * 2, newItems);
  }

  /** keyed (iter.rs:214-225). */
  method KeyedDoubleScenario() returns (outs: seq<seq<int>>)
    ensures outs == [[2, 4, 6], [2, 4, 6, 8], [4, 4, 6, 8]]
  {
    assert Doubled([1, 2, 3], [2, 4, 6]) && Doubled([1, 2, 3, 4], [2, 4, 6, 8]) && Doubled([2, 2, 3, 4], [4, 4, 6, 8]);
    var m := new KeyedMapper(Double);
    KeyedDoubleStep(m.State(), [1, 2, 3], [2, 4, 6]);
    var a := m.Update([1, 2, 3]);
    KeyedDoubleStep(m.State(), [1, 2, 3, 4], [2, 4, 6, 8]);
    var b := m.Update([1, 2, 3, 4]);
    KeyedDoubleStep(m.State(), [2, 2, 3, 4], [4, 4, 6, 8]);
    var c := m.Update([2, 2, 3, 4]);
    outs := [a, b, c];
  }

  /** keyed_clear (iter.rs:228-235): clearing the list clears the output. */
  method KeyedClearScenario() returns (out: seq<int>)
    ensures out == []
  {
    var m := new KeyedMapper(Double);
    var a := m.Update([1, 2, 3]);
    out := m.Update([]);
  }

  /** First indexed call: every position is new. */
  lemma IndexedCounterStep1()
    ensures IndexedList.Indexed(IndexedList.Snapshot([], [], [], 0), Counter, [1, 2, 3]) == IndexedList.Outcome([1, 2, 3], [0, 1, 2], 3)
  {
  }

  /** Shrinking to [1, 2] keeps the first two positions. */
  lemma IndexedCounterStep2()
    ensures IndexedList.Indexed(IndexedList.Snapshot([1, 2, 3], [1, 2, 3], [0, 1, 2], 3), Counter, [1, 2]) == IndexedList.Outcome([1, 2], [0, 1], 3)
  {
  }

  /** Appending 4 maps only position 2. */
  lemma IndexedCounterStep3()
    ensures IndexedList.Indexed(IndexedList.Snapshot([1, 2], [1, 2], [0, 1], 3), Counter, [1, 2, 4]) == IndexedList.Outcome([1, 2, 4], [0, 1, 3], 4)
  {
  }

  /** Changing position 1 from 2 to 3 remaps only that position, even though 4 stays put. */
  lemma IndexedCounterStep4()
    ensures IndexedList.Indexed(IndexedList.Snapshot([1, 2, 4], [1, 2, 4], [0, 1, 3], 4), Counter, [1, 3, 4]) == IndexedList.Outcome([1, 5, 4], [0, 4, 3], 5)
  {
  }

  /** indexed_use_previous_computation (iter.rs:305-326). */
  method IndexedCounterScenario() returns (outs: seq<seq<int>>)
    ensures outs == [[1, 2, 3], [1, 2], [1, 2, 4], [1, 5, 4]]
  {
    var m := new IndexedList.IndexedMapper(Counter);
    IndexedCounterStep1();
    var a := m.Update([1, 2, 3]);
    IndexedCounterStep2();
    var b := m.Update([1, 2]);
    IndexedCounterStep3();
    var c := m.Update([1, 2, 4]);
    IndexedCounterStep4();
    var d := m.Update([1, 3, 4]);
    outs := [a, b, c, d];
  }

  /** Updating a doubled snapshot with the doubling mapper yields `expected`, computed elementwise. */
  lemma IndexedDoubleStep(prev: IndexedList.Snapshot<int, int>, newItems: seq<int>, expected: seq<int>)
    requires IndexedList.Aligned(prev) && Doubled(prev.items, prev.mapped) && Doubled(newItems, expected)
    ensures IndexedList.Indexed(prev, Double, newItems).mapped == expected
  {
    IndexedList.IndexedPure(prev, Double, x => x * 2, newItems);
  }

  /** indexed (iter.rs:261-272). */
  method IndexedDoubleScenario() returns (outs: seq<seq<int>>)
    ensures outs == [[2, 4, 6], [2, 4, 6, 8], [4, 4, 6, 8]]
  {
    assert Doubled([1, 2, 3], [2, 4, 6]) && Doubled([1, 2, 3, 4], [2, 4, 6, 8]) && Doubled([2, 2, 3, 4], [4, 4, 6, 8]);
    var m := new IndexedList.IndexedMapper(Double);
    IndexedDoubleStep(m.State(), [1, 2, 3], [2, 4, 6]);
    var a := m.Update([1, 2, 3]);
    IndexedDoubleStep(m.State(), [1, 2, 3, 4], [2, 4, 6, 8]);
    var b := m.Update([1, 2, 3, 4]);
    IndexedDoubleStep(m.State(), [2, 2, 3, 4], [4, 4, 6, 8]);
    var c := m.Update([2, 2, 3, 4]);
    outs := [a, b, c];
  }

  /** indexed_clear (iter.rs:275-282): clearing the list clears the output and the kept items. */
  method IndexedClearScenario() returns (out: seq<int>, kept: seq<int>)
    ensures out == [] && kept == []
  {
    var m := new IndexedList.IndexedMapper(Double);
    var a := m.Update([1, 2, 3]);
    out := m.Update([]);
    kept := m.items;
  }
}
