# maple reactive core in Dafny

This project models the reactive core of `maple-core`. It has two parts.

The first part is the engine of `maple-core/src/reactive.rs`:
- A **signal** is a cell holding a value and an ordered list of subscriber callbacks. The list holds each callback at most once, compared by identity.
- `get` registers the signal with the innermost running effect, the top of the thread-local `CONTEXTS` stack. `get_untracked` only reads.
- `set` stores the new value. It then takes a snapshot of the subscriber list and calls each subscriber in order.
- `create_effect` runs its body once at creation. Every re-run clears the old dependencies, pushes the effect's record, runs the body, subscribes the effect to every signal the body read, and pops the record.
- `create_memo`, `create_selector` and `create_selector_with` build a memo signal through `create_effect_initial`. Its update callback derives a new value and calls `set` unless the comparator calls the old and the new value the same.

The second part is the list mappers of `maple-core/src/reactive/iter.rs`:
- `map_keyed` reconciles a new list against the previous one. It skips the common prefix and suffix, indexes the new middle range with chains of duplicates, moves reused outputs and scopes into temporary arrays, and fills every other position with a fresh output in a fresh scope.
- `map_indexed` compares position by position.

## Layout

- `subscribers.dfy` (module `Subscribers`): identity lists. It covers add-if-absent (`subscribe`, dependency registration), the documented `unsubscribe` (`Remove`), and the filter as written (`KeepOnly`).
- `reactive.dfy` (module `Reactive`): the engine as functions over one value, `World`, with these fields:
  - `cells`: the signal cells;
  - `records`: the `Running` records;
  - `callbacks`: the callbacks;
  - `contexts`: the context stack.

  Closures cannot be stored in Dafny values, so effect bodies and memo derivations are small scripts (`Expr`, `Stmt`, `Derivation`) that the engine interprets. Nested calls are bounded by `fuel`, one unit per callback call. Running out of fuel (`Exhausted`) stands for the call stack overflowing.
- `runtime.dfy` (module `Runtime`): the same engine as a class, `Engine`, whose fields are updated in place by methods with loops. Every method is proved to leave the state that the matching `Reactive` function computes.
- `reactive_laws.dfy` (module `ReactiveLaws`): what the engine promises. The laws cover:
  - a re-run rebuilding an effect's dependencies, for bodies whose writes go to signals nobody subscribes to;
  - creation running the body once;
  - `set` followed by `get`;
  - memos always setting, and selectors setting only on change;
  - untracked reads leaving the world alone;
  - repeated reads registering once.
- `occurrences.dfy`, `keyed_spec.dfy` (modules `Occurrences`, `KeyedSpec`): a reference definition of what `map_keyed` should produce.
  - Each new position reuses the old slot that has the same value and the same rank among equal values in the middle range, or gets a fresh one.
  - It comes with the properties of that reference.
- `keyed_list.dfy` (module `KeyedList`): the phases of `map_keyed` as methods over arrays and sequences, and the class `KeyedMapper` holding `items`, `mapped` and `scopes`. The update is proved equal to the reference.
- `indexed_list.dfy` (module `IndexedList`): `map_indexed`, its reference, its properties and the class `IndexedMapper`.
- `keyed_findings.dfy` (module `KeyedFindings`): the parts of `map_keyed` as written that differ from the intended algorithm, each with an input that shows it.
- `list_scenarios.dfy` (module `ListScenarios`): the tests of `iter.rs` as lemmas and methods.
- `effect_scenarios.dfy` (module `EffectScenarios`): the effect tests of `reactive.rs` as lemmas over any world in which their signals are distinct. It covers the effect that reads a signal twice and the effect that switches branches. Each step of a test is its own lemma, and one lemma per test chains them from creation through every `set`.
- `memo_scenarios.dfy` (module `MemoScenarios`): the memo and selector tests of `reactive.rs` in the same way: `memo`, `memo_only_run_once`, `dependency_on_memo`, `untracked_memo` and `selector`.
- `options.dfy` (module `Options`): `Option`.

A mapping function `map_fn` is modelled as a function of the item and the number of scopes created so far. A fresh scope is the token equal to that number. This models the tests' counting mapper (`counter + 1`) as well as pure mappers.

## Model

| member | source | states |
|---|---|---|
| Subscribers.PushAbsent | maple-core/src/reactive.rs:184-197 | the handler is in the result; the members are the old ones plus the handler; the old list is a prefix; the list grows by one exactly when the handler was absent; a list without duplicates stays without |
| Subscribers.PushAbsentIdempotent | maple-core/src/reactive.rs:183-197 | subscribing a handler that is already present changes nothing |
| Subscribers.Remove | maple-core/src/reactive.rs:199-213 | the documented unsubscribe: y remains iff it was there and is not the handler; an absent handler leaves the list as it is; no duplicates are introduced; the list never grows |
| Subscribers.RemoveAppend | maple-core/src/reactive.rs:199-213 | removal is a filter: it distributes over appending one entry |
| Subscribers.RemoveUndoesPush | maple-core/src/reactive.rs:183-213 | unsubscribing a handler just subscribed restores the list |
| Subscribers.KeepOnlyUpTo | maple-core/src/reactive.rs:201-212 | the filter as written over the first n entries: an entry remains iff it is the handler and the handler was among them; in a list without repeats exactly [handler] remains |
| Subscribers.KeepOnly | maple-core/src/reactive.rs:201-212 | the filter as written: an entry remains iff it is the handler and the handler was subscribed; a subscriber list (no repeats) holding the handler becomes exactly [handler] |
| Subscribers.UnsubscribeKeepsOnlyHandler | maple-core/src/reactive.rs:199-213 | with h and k subscribed, the filter as written leaves [h] and the documented removal leaves [k] |
| Reactive.Empty | maple-core/src/reactive.rs:13-19 | the initial world is valid, has no borrowed cell and an empty context stack |
| Reactive.NewSignal | maple-core/src/reactive.rs:117-121 | appends a cell holding v with no subscribers; every other part of the world is unchanged |
| Reactive.Track | maple-core/src/reactive.rs:31-61 | outside an effect nothing changes; inside one, only the innermost record changes, gaining the signal unless already present |
| Reactive.GetUntracked | maple-core/src/reactive.rs:87-89 | the stored value, read without registering; its properties are stated by `Get`, `UpdateValue` and `ReactiveLaws.UntrackedLeavesWorld` |
| Reactive.Get | maple-core/src/reactive.rs:29-64 | returns the stored value and leaves every cell unchanged |
| Reactive.UpdateValue | maple-core/src/reactive.rs:217-219 | the cell holds v afterwards; its subscribers and every other cell are unchanged |
| Reactive.Subscribe | maple-core/src/reactive.rs:184-197 | cell s's subscriber list becomes PushAbsent of it; nothing else changes |
| Reactive.Unsubscribe | maple-core/src/reactive.rs:199-213 | cell s's subscriber list becomes Remove of it; nothing else changes |
| Reactive.SubscribeUpTo | maple-core/src/reactive.rs:274-285 | each cell among the first n dependencies gains the handler once; every other cell is unchanged |
| Reactive.UnsubscribeUpTo | maple-core/src/reactive.rs:241-247 | each cell among the first n dependencies loses the handler; every other cell is unchanged |
| Reactive.Cleanup | maple-core/src/reactive.rs:238-250 | the record's execute callback leaves exactly the cells the record depended on, and the record's dependency list becomes empty |
| Reactive.Attach | maple-core/src/reactive.rs:314-328 | the handler joins exactly the cells the innermost record depends on, then that record is popped; records and callbacks are unchanged |
| Reactive.Evaluate | maple-core/src/reactive.rs:29-64 | reading keeps the world valid, changes no cell and no context, and touches no record outside an effect |
| Reactive.Exec | maple-core/src/reactive.rs:312 | a finished body leaves a valid world with the same context stack, callbacks and borrow flags; a cyclic-dependency panic needs a borrowed cell |
| Reactive.Set | maple-core/src/reactive.rs:126-139 | panics with the cyclic-dependency failure whenever the cell is borrowed; a finished call keeps the world valid and the context stack balanced |
| Reactive.Notify | maple-core/src/reactive.rs:133-138 | calling the snapshot's subscribers keeps the world valid and the context stack balanced |
| Reactive.Call | maple-core/src/reactive.rs:136-138 | a callback call keeps the world valid and the context stack balanced |
| Reactive.RunEffect | maple-core/src/reactive.rs:303-336 | a re-run leaves the context stack as it found it (the debug assertion at lines 330-334) and the world valid |
| Reactive.Derive | maple-core/src/reactive.rs:394 | deriving keeps the world valid and the context stack balanced |
| Reactive.RunUpdate | maple-core/src/reactive.rs:393-398 | the memo update keeps the world valid and the context stack balanced |
| Reactive.Install | maple-core/src/reactive.rs:299-342 | appends the effect's record with no dependencies and its execute callback; cells and contexts are unchanged |
| Reactive.CreateEffect | maple-core/src/reactive.rs:295-345 | a finished creation adds one record and one callback, keeps the context stack, and never raises the cyclic-dependency panic on an unborrowed world |
| Reactive.Enter | maple-core/src/reactive.rs:257-265 | pushes a fresh record with a placeholder callback on the context stack |
| Reactive.SelectorInitial | maple-core/src/reactive.rs:386-401 | the memo is a new cell holding the derived value with no subscribers, and the update callback is appended |
| Reactive.CreateEffectInitial | maple-core/src/reactive.rs:256-292 | adds the memo cell, one record and two callbacks, and restores the context stack |
| Reactive.CreateSelectorWith | maple-core/src/reactive.rs:377-403 | adds one memo cell and the update callback for the given comparator, and restores the context stack |
| Reactive.CreateMemo | maple-core/src/reactive.rs:348-354 | the update callback's comparator never calls two values the same |
| Reactive.CreateSelector | maple-core/src/reactive.rs:361-367 | the update callback's comparator calls two values the same exactly when they are equal |
| ReactiveLaws.TrackTwice | maple-core/src/reactive.rs:31-61 | reading the same signal twice registers it once |
| ReactiveLaws.EvaluateTracks | maple-core/src/reactive.rs:29-64 | evaluating an expression registers exactly its tracked reads, in order, and yields the value computed from the cells |
| ReactiveLaws.UntrackedLeavesWorld | maple-core/src/reactive.rs:87-89 | an expression with only untracked reads leaves the whole world, context stack and records included, unchanged |
| ReactiveLaws.PushAllMembers | maple-core/src/reactive.rs:35-59 | a record's dependencies after a run hold the old ones and every signal read, each once |
| ReactiveLaws.TrackAllInContext | maple-core/src/reactive.rs:31-61 | a sequence of reads inside an effect changes only the innermost record, whose dependencies gain the reads each once |
| ReactiveLaws.Run | maple-core/src/reactive.rs:126-139 | a body whose writes reach no subscriber changes only the values of the signals it writes; subscriptions and borrow flags stay as they were, and its tracked reads are signals that exist |
| ReactiveLaws.UnobservedShape | maple-core/src/reactive.rs:133-138 | whether a write reaches a subscriber depends only on the subscriber lists and borrow flags, not on the values |
| ReactiveLaws.AfterRun | maple-core/src/reactive.rs:312 | the world after such a body stays valid, keeps its stack and callbacks, holds the cells Run leaves and the records its reads produce |
| ReactiveLaws.ExecRun | maple-core/src/reactive.rs:312 | running a body whose writes reach no subscriber finishes, registers its tracked reads in order, and stores its writes in place |
| ReactiveLaws.RunSameValues | maple-core/src/reactive.rs:312 | what such a body reads and writes depends only on the values of the cells |
| ReactiveLaws.EffectRebuildsDependencies | maple-core/src/reactive.rs:303-336 | a re-run whose writes reach no subscriber finishes; the record's dependencies are exactly this run's reads, each once; the effect stays subscribed to a cell iff this run read it or it was subscribed before without the record depending on it; other subscriptions are unchanged and the values are those the body's writes leave |
| ReactiveLaws.RerunBeforeAttach | maple-core/src/reactive.rs:305-313 | just before the subscription step the record is cleaned, on top of the stack, and holds this run's reads; the cells hold the body's writes and the subscriptions left by the cleanup |
| ReactiveLaws.CleanupUnobserved | maple-core/src/reactive.rs:238-250 | cleaning up only removes subscribers, so a write that reached none before still reaches none |
| ReactiveLaws.AfterDerive | maple-core/src/reactive.rs:394 | the world after a derivation stays valid, holds the prelude's writes and the records its reads produce |
| ReactiveLaws.DeriveUnobserved | maple-core/src/reactive.rs:394 | a derivation whose prelude's writes reach no subscriber registers its reads, stores those writes, and yields its result computed over the cells the prelude leaves |
| ReactiveLaws.SelectorSilentWhenSame | maple-core/src/reactive.rs:393-398 | when the comparator calls the derived value the same as the stored one (read after the derivation ran), the update does not call set: the world changes only by the derivation's reads and writes |
| ReactiveLaws.SelectorSetsWhenChanged | maple-core/src/reactive.rs:393-398 | otherwise the update is a set of the memo to the derived value, on the world the derivation leaves |
| ReactiveLaws.MemoAlwaysSets | maple-core/src/reactive.rs:353 | a memo's update always sets the memo, equal value or not |
| ReactiveLaws.SelectorSilentIffEqual | maple-core/src/reactive.rs:366 | a selector's update is silent when the derived value equals the stored one (read after the derivation ran) and sets the memo otherwise |
| ReactiveLaws.NotifyQuiet | maple-core/src/reactive.rs:133-138 | notifying subscribers that never write finishes and changes no value |
| ReactiveLaws.QuietCall | maple-core/src/reactive.rs:137 | calling a placeholder or a write-free effect finishes and changes no value |
| ReactiveLaws.NoopCall | maple-core/src/reactive.rs:259 | the placeholder callback changes nothing |
| ReactiveLaws.QuietEffectCall | maple-core/src/reactive.rs:303-336 | calling a write-free effect finishes and changes no value |
| ReactiveLaws.CallEffect | maple-core/src/reactive.rs:301-337 | calling an effect's callback is re-running the effect one level deeper |
| ReactiveLaws.RerunKeepsValues | maple-core/src/reactive.rs:303-336 | a write-free re-run finishes and changes no value |
| ReactiveLaws.SetThenGet | maple-core/src/reactive.rs:126-139 | on an unborrowed world whose subscribers never write, set finishes, get and get_untracked then return the new value, and no other value changes |
| ReactiveLaws.SetUnobserved | maple-core/src/reactive.rs:126-139 | a set on a cell without subscribers only stores the value |
| ReactiveLaws.SetBorrowedPanics | maple-core/src/reactive.rs:127-131 | a set on a borrowed cell raises the cyclic-dependency panic |
| ReactiveLaws.EffectCreation | maple-core/src/reactive.rs:295-345 | creating an effect whose writes reach no subscriber runs its body once: the new record depends on exactly the body's reads, the new callback is subscribed to exactly those cells, no other subscription changes, and the values are those the body's writes leave |
| ReactiveLaws.FirstRunRebuilds | maple-core/src/reactive.rs:301-337 | the first call of the fresh callback is a re-run of a record with no dependencies and no subscriptions, so it subscribes exactly to what the body read |
| ReactiveLaws.EffectFirstRun | maple-core/src/reactive.rs:339-344 | creation installs a record with no dependencies and calls the new callback |
| ReactiveLaws.SelectorFirstRun | maple-core/src/reactive.rs:386-401 | the first run inside the fresh context records the derivation's reads, the old cells hold the prelude's writes, and the memo holds the derived value |
| ReactiveLaws.SelectorCreation | maple-core/src/reactive.rs:377-403 | creating a selector or memo stores the derived value in a new cell with no subscribers; the update callback is subscribed to exactly the cells the derivation read; no other subscription changes, and the values are those the prelude's writes leave |
| ReactiveLaws.SelectorAttach | maple-core/src/reactive.rs:270-288 | after the first run, the update callback is subscribed to the recorded reads and the context is popped |
| ReactiveLaws.ThenStep | maple-core/src/reactive.rs:312 | if the first statement of a sequence runs as Run describes, so does the whole sequence |
| ReactiveLaws.CallUpdate | maple-core/src/reactive.rs:389-399 | calling a memo's update callback runs the update (derive, compare, set) one level deeper |
| ReactiveLaws.RerunSubscriberLists | maple-core/src/reactive.rs:303-336 | after a re-run, each signal's list is its old list with the effect removed if the record depended on it, then with the effect appended unless present if the body read it; every other entry keeps its place |
| ReactiveLaws.AttachedLists | maple-core/src/reactive.rs:322-332 | the subscription step appends the effect, unless present, to the list of exactly the signals the body read |
| ReactiveLaws.CreationSubscriberLists | maple-core/src/reactive.rs:295-345 | after `create_effect`, the new callback is last in the list of each signal the body read, and every other list is unchanged |
| ReactiveLaws.FirstRunLists | maple-core/src/reactive.rs:339-344 | the first run of a fresh record leaves the lists CreationSubscriberLists states |
| ReactiveLaws.SelectorSubscriberLists | maple-core/src/reactive.rs:377-403 | after `create_selector_with`, the update callback is last in the list of each signal the derivation read with `get`, every other list is unchanged, and no cell is left borrowed |
| EffectScenarios.CountingRun | maple-core/src/reactive.rs:493 | the counter write of the test effects stores the counter plus one, changes no other cell, and registers no read |
| EffectScenarios.ReadTwiceRun | maple-core/src/reactive.rs:492-498 | the body of the subscribe-once test reads `state` twice and only bumps the counter |
| EffectScenarios.BranchRun | maple-core/src/reactive.rs:525-533 | the body of the recreate-dependencies test reads the condition, then `state1` when it holds and `state2` otherwise, and only bumps the counter |
| EffectScenarios.PushDistinct | maple-core/src/reactive.rs:35-59 | registering two different signals keeps both, in order |
| EffectScenarios.PushTwice | maple-core/src/reactive.rs:35-59 | registering the same signal twice keeps one entry |
| EffectScenarios.SetReruns | maple-core/src/reactive.rs:126-139 | a set of a signal whose only subscriber is an effect stores the value and re-runs that effect, with nothing before or after |
| EffectScenarios.ReadTwiceCreation | maple-core/src/reactive.rs:485-501 | creating the subscribe-once effect bumps the counter once, records `state` as its only dependency, subscribes it to `state`, and leaves the counter without subscribers |
| EffectScenarios.ReadTwiceRerun | maple-core/src/reactive.rs:503-504 | each later run bumps the counter once more and keeps `state` as the only dependency, still subscribed |
| EffectScenarios.BranchCreation | maple-core/src/reactive.rs:508-536 | creating the recreate-dependencies effect while the condition holds bumps the counter and subscribes it to the condition and `state1`, not to `state2` |
| EffectScenarios.SetRerunsWith | maple-core/src/reactive.rs:126-139 | a set of a signal whose only subscriber is an effect stores the value and re-runs the effect once on the new values: the record depends on what the body read, and the named signals hold what the body left |
| EffectScenarios.Rerun | maple-core/src/reactive.rs:303-336 | a re-run whose writes reach no subscriber finishes; the record depends on what the body read, without repeats, and every value is what the body leaves |
| EffectScenarios.BranchCreationLists | maple-core/src/reactive.rs:508-536 | creating the recreate-dependencies effect while the condition holds puts its callback last in the lists of the condition and `state1`; the list of `state2` is unchanged and the counter has no subscriber |
| EffectScenarios.BranchBodyLike | maple-core/src/reactive.rs:525-533 | on any cells where the test's signals are distinct, the body bumps the counter, changes no other value, and reads the condition and then the branch signal the condition selects |
| EffectScenarios.RemoveOnly | maple-core/src/reactive.rs:199-213 | unsubscribing the only subscriber leaves an empty list |
| EffectScenarios.RerunSoleSubscriber | maple-core/src/reactive.rs:303-336 | a signal whose only possible subscriber is the effect, present exactly when the effect depended on it, has after a re-run the effect as only subscriber if the body read it and no subscriber otherwise |
| EffectScenarios.SoleRerun | maple-core/src/reactive.rs:303-336 | the same for four signals at once, with the record's new dependencies and every value the body leaves |
| EffectScenarios.RerunReadingTwo | maple-core/src/reactive.rs:303-336 | for a body that reads two distinct signals, the record depends on exactly those two, and each of four such signals has the effect as only subscriber exactly when it is one of them |
| EffectScenarios.BranchWorldAgain | maple-core/src/reactive.rs:508-551 | a valid world that kept the callbacks and records, in which the effect depends on the condition and one branch signal and is the only subscriber of exactly those, is again a world of the test |
| EffectScenarios.BranchSole | maple-core/src/reactive.rs:508-551 | in a world of the test, the effect is the only possible subscriber of the condition, both branch signals and the counter |
| EffectScenarios.BranchRerunStep | maple-core/src/reactive.rs:303-336 | a re-run of the test's effect bumps the counter and keeps the condition; the effect then depends on the condition and the branch signal it selects, is their only subscriber, and the other branch signal has no subscriber |
| EffectScenarios.BranchUpdate | maple-core/src/reactive.rs:126-139 | storing a value in a signal other than the counter keeps a world of the test |
| EffectScenarios.BranchNext | maple-core/src/reactive.rs:525-533 | the next run from a world of the test reads the condition and the branch signal it selects |
| EffectScenarios.BranchSetRuns | maple-core/src/reactive.rs:538-551 | a set of the condition or of the branch signal last read re-runs the effect exactly once with the new value in place: the counter goes up by one and the effect now follows the branch the condition selects |
| EffectScenarios.BranchSetIdle | maple-core/src/reactive.rs:541-548 | a set of the branch signal not last read has no subscriber to call: only that value changes, and the counter and the condition keep theirs |
| EffectScenarios.RecreateDependencies | maple-core/src/reactive.rs:507-552 | the whole test on fresh signals: creation and the five sets finish, and the counter is 1, 2, 2, 3, 3, 4 above its start after each step, as the test asserts |
| EffectScenarios.SubscribeOnce | maple-core/src/reactive.rs:484-505 | the whole test on fresh signals: creation bumps the counter once, and one set of `state` stores the value and bumps the counter exactly once more, though the body reads `state` twice |
| EffectScenarios.ReadTwiceSet | maple-core/src/reactive.rs:503-504 | while the effect is the only subscriber of `state`, a set stores the value and bumps the counter by one |
| MemoScenarios.SetRunsUpdate | maple-core/src/reactive.rs:126-139 | a set of a signal whose only subscriber is a memo's update callback stores the value and runs the update one level deeper |
| MemoScenarios.TrackAllAtTop | maple-core/src/reactive.rs:31-61 | outside every effect, reads register nothing |
| MemoScenarios.DeriveAtTop | maple-core/src/reactive.rs:391 | outside every effect, a derivation changes only the values its prelude writes |
| MemoScenarios.MemoWorldShape | maple-core/src/reactive.rs:348-354 | a memo whose update is the only subscriber of its source stays so when only values change |
| MemoScenarios.MemoUpdate | maple-core/src/reactive.rs:389-399 | with a comparator that never calls two values the same, the update derives on the current values and sets the memo to the result, which calls nobody |
| MemoScenarios.MemoSet | maple-core/src/reactive.rs:348-354 | a set of the memo's source: the memo holds the derivation's value on the new values, every other signal what the prelude leaves, and the memo setup holds again |
| MemoScenarios.DoubledRun | maple-core/src/reactive.rs:558-561 | the derivation `*state.get() * 2` reads `state` once and yields twice its value |
| MemoScenarios.CountedDoubleRun | maple-core/src/reactive.rs:577-585 | the counting derivation reads `state` once, yields twice its value, and bumps the counter only |
| MemoScenarios.UntrackedDoubleRun | maple-core/src/reactive.rs:615-618 | the derivation `*state.get_untracked() * 2` reads nothing with `get` and yields twice `state` |
| MemoScenarios.SelectorCreatedLists | maple-core/src/reactive.rs:377-403 | creating a selector on a derivation that reads only `s` makes its update callback the only subscriber of `s`, leaves every other list and every borrow flag as it was, and appends a Noop and the update callback |
| MemoScenarios.SelectorListsAfter | maple-core/src/reactive.rs:377-403 | the same on the cell lists alone |
| MemoScenarios.SelectorCreated | maple-core/src/reactive.rs:377-403 | such a creation stores the derived value in the new cell, every other signal holds what the prelude left, and the result is a memo setup for `s` |
| MemoScenarios.MemoCreated | maple-core/src/reactive.rs:348-354 | `create_memo` under the same conditions, with a comparator that never calls two values the same |
| MemoScenarios.MemoFollows | maple-core/src/reactive.rs:554-569 | the whole `memo` test: the memo starts at twice `state` and is twice each new value after each set |
| MemoScenarios.MemoRunsOnce | maple-core/src/reactive.rs:571-592 | the whole `memo_only_run_once` test: the derivation runs once at creation and once per set, and reading the memo runs nothing |
| MemoScenarios.UntrackedMemo | maple-core/src/reactive.rs:611-624 | the whole `untracked_memo` test: a set of `state` stores the value and leaves the memo at twice the old value |
| MemoScenarios.WatchRun | maple-core/src/reactive.rs:639-643 | the selector test's effect body bumps the counter and reads the selector once |
| MemoScenarios.SelectorMade | maple-core/src/reactive.rs:630-633 | creating the selector on a fresh `state` beside an unwatched counter: it holds twice `state`, its update is the only subscriber of `state`, and nobody watches the selector or the counter |
| MemoScenarios.WatchCreated | maple-core/src/reactive.rs:636-644 | creating the watching effect bumps the counter once and makes the effect the only subscriber of the selector |
| MemoScenarios.SelectorSetSame | maple-core/src/reactive.rs:647-649 | a set whose doubled value equals what the selector holds only stores the value: the effect does not run |
| MemoScenarios.SelectorSetChanged | maple-core/src/reactive.rs:651-653 | a set whose doubled value differs stores the value and then sets the selector to twice it |
| MemoScenarios.WatchRerun | maple-core/src/reactive.rs:126-139 | a set of the selector re-runs the watching effect once: the counter goes up by one and no other value changes |
| MemoScenarios.SelectorSets | maple-core/src/reactive.rs:647-653 | setting `state` to the value it holds leaves the world exactly as it was; any other value moves the selector to twice it and bumps the counter once |
| MemoScenarios.SelectorScenario | maple-core/src/reactive.rs:626-655 | the whole `selector` test: the selector starts at twice `state`, the effect ran once; the equal set runs nothing; a different set moves the selector and runs the effect once more |
| MemoScenarios.ChainFromMemos | maple-core/src/reactive.rs:598-603 | two memos created one after the other, the second on the first, form a chain in which each update is the only subscriber of its source |
| MemoScenarios.MemoChainSet | maple-core/src/reactive.rs:607-608 | a set of `state` in such a chain leaves `state` at v, the first memo at 2v and the second at 4v |
| MemoScenarios.MemoChainStep | maple-core/src/reactive.rs:607 | a set of `state` in the chain stores the value and then sets the first memo to twice it, one level deeper |
| MemoScenarios.DoubledMemo | maple-core/src/reactive.rs:598-601 | creating a memo of twice a fresh `state` yields the memo setup, holding twice `state`, with every other list unchanged |
| MemoScenarios.MemoOfMemo | maple-core/src/reactive.rs:603 | creating the memo of the memo yields the chain, and it holds four times `state` |
| MemoScenarios.MemoChainMade | maple-core/src/reactive.rs:598-603 | the two creations of `dependency_on_memo` finish and yield the chain, with the second memo at four times `state` |
| MemoScenarios.DependencyOnMemo | maple-core/src/reactive.rs:594-609 | the whole `dependency_on_memo` test: the memo of the memo starts at four times `state` and is four times the new value after a set |
| Runtime.Contains | maple-core/src/reactive.rs:186-193 | the identity search finds x iff x is in the list |
| Runtime.Without | maple-core/src/reactive.rs:199-213 | the loop builds the documented removal |
| Runtime.Engine.constructor | maple-core/src/reactive.rs:13-19 | the engine starts as the empty world |
| Runtime.Engine.NewSignal | maple-core/src/reactive.rs:117-121 | the state becomes NewSignal of the old state and the new signal's identity is returned |
| Runtime.Engine.GetUntracked | maple-core/src/reactive.rs:87-89 | returns the stored value and changes nothing |
| Runtime.Engine.Get | maple-core/src/reactive.rs:29-64 | the state becomes Track of the old state and the old stored value is returned |
| Runtime.Engine.Update | maple-core/src/reactive.rs:217-219 | the state becomes UpdateValue of the old state |
| Runtime.Engine.Subscribe | maple-core/src/reactive.rs:184-197 | the state becomes Subscribe of the old state |
| Runtime.Engine.Unsubscribe | maple-core/src/reactive.rs:199-213 | the state becomes the documented Unsubscribe of the old state |
| Runtime.Engine.CleanupRunning | maple-core/src/reactive.rs:238-250 | the state becomes Cleanup of the old state |
| Runtime.Engine.AttachTop | maple-core/src/reactive.rs:314-328 | the state becomes Attach of the old state |
| Runtime.Engine.Evaluate | maple-core/src/reactive.rs:29-64 | the state and the value are those Evaluate computes |
| Runtime.Engine.Exec | maple-core/src/reactive.rs:312 | finishes or panics as Exec does, leaving the state Exec computes |
| Runtime.Engine.Set | maple-core/src/reactive.rs:126-139 | finishes or panics as Set does, leaving the state Set computes |
| Runtime.Engine.Call | maple-core/src/reactive.rs:136-138 | finishes or panics as Call does, leaving the state Call computes |
| Runtime.Engine.RunEffect | maple-core/src/reactive.rs:303-336 | finishes or panics as RunEffect does, leaving the state RunEffect computes |
| Runtime.Engine.Derive | maple-core/src/reactive.rs:394 | finishes or panics as Derive does and returns the derived value |
| Runtime.Engine.RunUpdate | maple-core/src/reactive.rs:393-398 | finishes or panics as RunUpdate does, leaving the state RunUpdate computes |
| Runtime.Engine.CreateEffect | maple-core/src/reactive.rs:295-345 | finishes or panics as CreateEffect does, leaving the state CreateEffect computes |
| Runtime.Engine.SelectorInitial | maple-core/src/reactive.rs:386-401 | finishes or panics as SelectorInitial does and returns the memo's identity |
| Runtime.Engine.CreateSelectorWith | maple-core/src/reactive.rs:377-403 | finishes or panics as CreateSelectorWith does and returns the memo's identity |
| Runtime.Engine.CreateMemo | maple-core/src/reactive.rs:348-354 | finishes or panics as CreateMemo does and returns the memo's identity |
| Runtime.Engine.CreateSelector | maple-core/src/reactive.rs:361-367 | finishes or panics as CreateSelector does and returns the memo's identity |
| Occurrences.CountIn | maple-core/src/reactive/iter.rs:75-97 | the number of occurrences of a value in a window is at most the window's length |
| Occurrences.CountSplit | maple-core/src/reactive/iter.rs:75-97 | counts add up over adjacent windows |
| Occurrences.RankIncreasing | maple-core/src/reactive/iter.rs:75-97 | an occurrence's rank is below the count of every longer prefix |
| Occurrences.NthIn | maple-core/src/reactive/iter.rs:75-97 | the found position holds the value inside the window, or -1 |
| Occurrences.NthInRank | maple-core/src/reactive/iter.rs:75-97 | the found occurrence has the asked rank; -1 means there are no more than that many |
| Occurrences.NthInUnique | maple-core/src/reactive/iter.rs:75-97 | the occurrence with a given rank is the one found |
| Occurrences.FirstOccurrence | maple-core/src/reactive/iter.rs:84 | the leftmost occurrence has rank 0 |
| Occurrences.NextOccurrence | maple-core/src/reactive/iter.rs:83 | the nearest later occurrence has the next rank |
| Occurrences.LastOccurrence | maple-core/src/reactive/iter.rs:83 | with no later occurrence there is no next rank |
| Occurrences.NoHigherRank | maple-core/src/reactive/iter.rs:96-97 | once the occurrences are used up every higher rank is missing |
| KeyedSpec.CommonPrefix | maple-core/src/reactive/iter.rs:49-58 | the prefix fits both lists and ends at a list's end or at the first difference |
| KeyedSpec.PrefixAgrees | maple-core/src/reactive/iter.rs:52 | inside the common prefix the lists agree |
| KeyedSpec.CommonSuffix | maple-core/src/reactive/iter.rs:60-73 | the suffix fits behind the prefix in both lists and ends at the prefix or at the first difference from the back |
| KeyedSpec.SuffixAgrees | maple-core/src/reactive/iter.rs:67 | inside the common suffix the lists agree |
| KeyedSpec.MiddleSource | maple-core/src/reactive/iter.rs:88-101 | a middle position reuses an old middle position holding the same value |
| KeyedSpec.MiddleInOrder | maple-core/src/reactive/iter.rs:75-97 | equal middle values reuse old slots in their order of appearance |
| KeyedSpec.MiddleSourceInverse | maple-core/src/reactive/iter.rs:88-101 | a new position reuses old position x exactly when it is the occurrence the matching loop hands to x |
| KeyedSpec.SourceOf | maple-core/src/reactive/iter.rs:40-126 | a reused old position exists and holds the same value |
| KeyedSpec.FreshOnlyWhenExhausted | maple-core/src/reactive/iter.rs:111-124 | a position is mapped fresh only in the middle and only when every old middle occurrence of its value is taken by an earlier new one |
| KeyedSpec.SourceRegions | maple-core/src/reactive/iter.rs:49-73 | the prefix reuses in place, the suffix reuses at the same distance from the end, the middle reuses from the old middle |
| KeyedSpec.ReconcileUpTo | maple-core/src/reactive/iter.rs:104-126 | the first n slots: n outputs, n scopes, the scope count never decreases |
| KeyedSpec.ReconcileInPrefix | maple-core/src/reactive/iter.rs:49-54 | up to the end of the common prefix every slot is reused in place and nothing is created |
| KeyedSpec.ReconcilePrefixStable | maple-core/src/reactive/iter.rs:106 | filling later positions never changes earlier ones |
| KeyedSpec.ReconcileAt | maple-core/src/reactive/iter.rs:106-126 | slot i holds the old output and scope it reuses, or a fresh output in a fresh scope numbered by the calls so far |
| KeyedSpec.SourceInMiddle | maple-core/src/reactive/iter.rs:88-101 | inside the middle the reference reuses what the rank matching names |
| KeyedSpec.SourcesInOrder | maple-core/src/reactive/iter.rs:75-97 | of two equal new items that both reuse, the earlier reuses the earlier old slot |
| KeyedSpec.SourcesInjective | maple-core/src/reactive/iter.rs:88-101 | no old slot is reused twice |
| KeyedSpec.NoOpReconcile | maple-core/src/reactive/iter.rs:49-54 | re-feeding the same items changes nothing and maps nothing |
| KeyedSpec.PureMapElementwise | maple-core/src/reactive/iter.rs:214-225 | with a pure mapper the result is the new items mapped element by element |
| KeyedSpec.FromEmpty | maple-core/src/reactive/iter.rs:30-39 | from an empty list every item is mapped fresh, in order, each in its own new scope |
| KeyedSpec.FreshTokensIncrease | maple-core/src/reactive/iter.rs:112-124 | fresh scopes are numbered in the order of their positions |
| KeyedSpec.ReconcileScopesDistinct | maple-core/src/reactive/iter.rs:104-126 | two slots never share a scope |
| KeyedSpec.ReconcileWellFormed | maple-core/src/reactive/iter.rs:129-137 | an update of a well-formed state is well formed: aligned lengths, live distinct scopes |
| KeyedSpec.ScopeDropped | maple-core/src/reactive/iter.rs:98-100 | the scope of an old slot nobody reuses is gone from the new state |
| KeyedSpec.ScopeKept | maple-core/src/reactive/iter.rs:94-95 | a reused slot's scope moves with its output |
| KeyedList.SkipPrefix | maple-core/src/reactive/iter.rs:49-58 | the loop stops exactly at the common prefix |
| KeyedList.IndexMiddle | maple-core/src/reactive/iter.rs:75-86 | the backward scan, run on every non-empty new middle, maps each value to its first middle occurrence and links each position to the next occurrence of its value |
| KeyedList.IndexToRanks | maple-core/src/reactive/iter.rs:75-86 | the nearest-occurrence links read as occurrence ranks |
| KeyedList.Put | maple-core/src/reactive/iter.rs:118-124 | writes in place below the length and appends at the length; nothing else changes |
| KeyedList.ClaimStep | maple-core/src/reactive/iter.rs:93-97 | matching one old position claims exactly the new position the reference names |
| KeyedList.SuffixGrow | maple-core/src/reactive/iter.rs:65-70 | one more agreeing pair stays inside the common suffix |
| KeyedList.SuffixExit | maple-core/src/reactive/iter.rs:65-68 | the suffix loop stops exactly at the common suffix |
| KeyedList.SuffixFilled | maple-core/src/reactive/iter.rs:71-72 | what the suffix loop moved is what the reference reuses there |
| KeyedList.SuffixSlot | maple-core/src/reactive/iter.rs:71-72 | inside the suffix the reference reuses the slot at the same distance from the end |
| KeyedList.NothingClaimed | maple-core/src/reactive/iter.rs:46-47 | before matching, no middle slot is claimed |
| KeyedList.PointersAdvance | maple-core/src/reactive/iter.rs:93-97 | a match advances its value's index entry to the next occurrence |
| KeyedList.PointersExhausted | maple-core/src/reactive/iter.rs:98-100 | an item without an unclaimed occurrence is claimed by nobody |
| KeyedList.ClaimsUnchanged | maple-core/src/reactive/iter.rs:98-100 | an unclaimed old item changes no middle slot |
| KeyedList.MiddleFilled | maple-core/src/reactive/iter.rs:88-102 | after matching, the middle slots hold what the reference reuses |
| KeyedList.SkipSuffix | maple-core/src/reactive/iter.rs:60-73 | the loop stops at the common suffix and moves each suffix pair's output and scope to the same distance from the end |
| KeyedList.MoveSlot | maple-core/src/reactive/iter.rs:71-72 | one suffix pair is moved |
| KeyedList.MatchOld | maple-core/src/reactive/iter.rs:88-102 | matching, run on every non-empty old middle, fills every middle slot the reference reuses and drops exactly the scopes of unclaimed old items |
| KeyedList.MatchStep | maple-core/src/reactive/iter.rs:92-100 | one old item either claims its next occurrence or loses its scope |
| KeyedList.ClaimSlot | maple-core/src/reactive/iter.rs:94-95 | the claimed slot takes the old output and scope |
| KeyedList.FillSlots | maple-core/src/reactive/iter.rs:104-126 | the outputs, scopes and scope count equal the reference reconciliation |
| KeyedList.FillStep | maple-core/src/reactive/iter.rs:106-126 | filling one position extends the reference by one slot |
| KeyedList.Diff | maple-core/src/reactive/iter.rs:40-127 | the general case yields the reference reconciliation |
| KeyedList.KeyedMapper.constructor | maple-core/src/reactive/iter.rs:18-21 | all three vectors start empty |
| KeyedList.KeyedMapper.Update | maple-core/src/reactive/iter.rs:23-141 | the vectors become the reference reconciliation of the old state, aligned and well formed, and the copy of mapped is returned |
| KeyedList.KeyedMapper.CreateAll | maple-core/src/reactive/iter.rs:30-39 | the fast path for an empty old list yields the reference reconciliation |
| KeyedFindings.SkipPrefixAsWritten | maple-core/src/reactive/iter.rs:49-58 | when the assertion holds, the loop stopped at the common prefix |
| KeyedFindings.PrefixCheckFailsOnPrefix | maple-core/src/reactive/iter.rs:55-58 | the assertion indexes past an end exactly when one list is a prefix of the other |
| KeyedFindings.PrefixCheckOutOfBounds | maple-core/src/reactive/iter.rs:220 | growing [1, 2, 3] to [1, 2, 3, 4] trips it |
| KeyedFindings.SkipSuffixAsWritten | maple-core/src/reactive/iter.rs:60-73 | the loop as written moves both ends by the same amount |
| KeyedFindings.SuffixAsWritten | maple-core/src/reactive/iter.rs:61-73 | the loop started as the source starts it |
| KeyedFindings.SuffixCopyMismatch | maple-core/src/reactive/iter.rs:69-72 | the copy after the decrement moves an output one pair too early |
| KeyedFindings.SuffixGuardShort | maple-core/src/reactive/iter.rs:65-66 | the strict guard skips no suffix where one item is shared |
| KeyedFindings.AsUsize | maple-core/src/reactive/iter.rs:96 | a negative isize wraps to a value of at least 2^63 |
| KeyedFindings.MatchAsWritten | maple-core/src/reactive/iter.rs:88-101 | the matching loop as written only re-points keys already in the index, and leaves the keys of items outside the scanned range as they were |
| KeyedFindings.SentinelIndexOutOfBounds | maple-core/src/reactive/iter.rs:83-97 | the -1 sentinel cast to usize indexes temp out of bounds |
| KeyedFindings.SentinelCorrected | maple-core/src/reactive/iter.rs:93-100 | the corrected matching leaves the second old 1 unclaimed |
| KeyedFindings.IndexGuardAsWritten | maple-core/src/reactive/iter.rs:79 | the scan's guard as written: it implies the intended guard (a non-empty new middle) and, for a non-empty new middle, fails exactly when it holds one item |
| KeyedFindings.MatchGuardAsWritten | maple-core/src/reactive/iter.rs:90 | the matching guard as written: it implies the intended guard (a non-empty old middle) and, for a non-empty old middle, fails exactly when it holds one item |
| KeyedFindings.ClaimAsWritten | maple-core/src/reactive/iter.rs:79-101 | the claim of an old middle item as written, with the other phases corrected: none when either guard fails, the intended claim otherwise |
| KeyedFindings.MatchGuardSkipsOne | maple-core/src/reactive/iter.rs:90 | [1, 2, 9] to [1, 5, 2, 6, 9]: the one-item old middle is not matched, so old 2 claims nothing where the intended matching gives it new position 2 |
| KeyedFindings.IndexGuardSkipsOne | maple-core/src/reactive/iter.rs:79 | [1, 7, 2, 5, 9] to [1, 2, 9]: the one-item new middle is not indexed, so old 2 claims nothing where the intended matching gives it new position 1 |
| KeyedFindings.PullGuardAsWritten | maple-core/src/reactive/iter.rs:107 | the guard as written: the position is below the length of `temp`, whatever its slot holds |
| KeyedFindings.PullGuardIgnoresSlot | maple-core/src/reactive/iter.rs:107 | the guard holds on an empty slot |
| KeyedFindings.PullEmptySlot | maple-core/src/reactive/iter.rs:107-109 | inserting 3 into [1, 2] sends an empty slot to the unwrap |
| KeyedFindings.AssignAsWritten | maple-core/src/reactive/iter.rs:109-110 | the index store succeeds exactly below the length |
| KeyedFindings.AssignPastEnd | maple-core/src/reactive/iter.rs:109-110 | with the suffix copy and the pull guard corrected, prepending 0 to [1, 2] stores past the end |
| IndexedList.IndexedUpTo | maple-core/src/reactive/iter.rs:166-184 | the first n positions: n outputs, n scopes, the scope count never decreases |
| IndexedList.ChangedBelow | maple-core/src/reactive/iter.rs:166-184 | at most n of the first n positions are remapped |
| IndexedList.IndexedPrefixStable | maple-core/src/reactive/iter.rs:166 | later positions never change earlier ones |
| IndexedList.IndexedAt | maple-core/src/reactive/iter.rs:166-184 | position i keeps its output and scope iff the old item there is equal; otherwise it gets a fresh output in a fresh scope |
| IndexedList.IndexedCallsPerChange | maple-core/src/reactive/iter.rs:169-183 | the mapper is called exactly once per changed or new position |
| IndexedList.IndexedTokensIncrease | maple-core/src/reactive/iter.rs:169-183 | fresh scopes are numbered in the order of their positions |
| IndexedList.IndexedWellFormed | maple-core/src/reactive/iter.rs:192-200 | an update of a well-formed snapshot is well formed |
| IndexedList.IndexedNoOp | maple-core/src/reactive/iter.rs:176 | re-feeding the same items changes nothing and maps nothing |
| IndexedList.IndexedPure | maple-core/src/reactive/iter.rs:261-272 | with a pure mapper the result is the new items mapped element by element |
| IndexedList.MapPositions | maple-core/src/reactive/iter.rs:166-184 | the loop yields the reference update on the first positions |
| IndexedList.PositionStep | maple-core/src/reactive/iter.rs:169-183 | each branch of the loop body extends the reference by one position |
| IndexedList.PopScopes | maple-core/src/reactive/iter.rs:186-190 | popping count times drops exactly the last count scopes |
| IndexedList.Truncate | maple-core/src/reactive/iter.rs:193-194 | keeps at most the first n elements |
| IndexedList.IndexedMapper.constructor | maple-core/src/reactive/iter.rs:152-155 | all three vectors start empty |
| IndexedList.IndexedMapper.Update | maple-core/src/reactive/iter.rs:157-205 | the vectors become the reference update of the old state, and the copy of mapped is returned |
| ListScenarios.KeyedCounterScenario | maple-core/src/reactive/iter.rs:238-259 | with the corrected phases (see Findings), the counting mapper yields [1,2,3], [1,2], [1,2,4], [1,2,5,4] |
| ListScenarios.KeyedCounterStep4 | maple-core/src/reactive/iter.rs:257-258 | with the corrected phases (see Findings), inserting 3 before 4 maps only 3; 4 keeps its output and scope |
| ListScenarios.KeyedDoubleScenario | maple-core/src/reactive/iter.rs:214-225 | with the corrected phases (see Findings), doubling yields [2,4,6], [2,4,6,8], [4,4,6,8] |
| ListScenarios.KeyedDoubleStep | maple-core/src/reactive/iter.rs:217-224 | with the corrected phases (see Findings), from a doubled state the update is the doubled new list |
| ListScenarios.KeyedClearScenario | maple-core/src/reactive/iter.rs:228-235 | with the corrected phases (see Findings), clearing the list clears the output |
| ListScenarios.IndexedCounterScenario | maple-core/src/reactive/iter.rs:305-326 | the counting mapper yields [1,2,3], [1,2], [1,2,4], [1,5,4] |
| ListScenarios.IndexedCounterStep4 | maple-core/src/reactive/iter.rs:324-325 | changing position 1 remaps only that position |
| ListScenarios.IndexedDoubleScenario | maple-core/src/reactive/iter.rs:261-272 | doubling yields [2,4,6], [2,4,6,8], [4,4,6,8] |
| ListScenarios.IndexedDoubleStep | maple-core/src/reactive/iter.rs:264-271 | from a doubled snapshot the update is the doubled new list |
| ListScenarios.IndexedClearScenario | maple-core/src/reactive/iter.rs:275-282 | clearing the list clears the output and the kept items |

## Left out

- Rust plumbing is left out: `Rc`/`RefCell` reference counting, the `thread_local!` wrapper and the `eprintln!` debug output (reactive.rs:206, 242-245, 324). Identities are integers into the world's arenas. Entries are never freed, so dropping the last handle to a signal or an effect is not modelled.
- Values are integers. Effect bodies and derivations are scripts over reads, untracked reads, arithmetic, conditionals and writes. A script cannot create signals, effects or memos, and cannot call `map_keyed`.
- Fuel stands for the depth of the call stack. A run that exhausts it ends with `Exhausted`, where the source would overflow its stack. The stack size itself is not modelled.
- The borrow flag of a cell is never set by the modelled operations. In the source a cell is borrowed only for the length of a single read, and user code cannot run during it. The cyclic-dependency panic of `set` is modelled and proved to need the flag. Cycle detection for effects is not claimed; the source's tests for it are ignored.
- Memo and selector updates run their derivation without a context of their own and do not rebuild their subscriptions, as the source does. Their reads register with whatever effect is running at the time.
- ReactiveLaws.EffectRebuildsDependencies: proved for bodies whose `set` calls target signals without subscribers; a write that reaches a subscriber is covered by the engine's own contracts only.
- ReactiveLaws.EffectCreation: proved for bodies whose `set` calls target signals without subscribers.
- ReactiveLaws.SelectorCreation: proved for derivations whose `set` calls target signals without subscribers.
- ReactiveLaws.SetThenGet: proved when every subscriber of the cell is a placeholder or an effect that never calls `set`; with writing subscribers a later write may overwrite the value.
- `create_root`, `untrack` and `ReactiveScope` are not part of this model. A scope is an opaque token, numbered by the count of scopes created; dropping a scope is dropping its token from `scopes`.
- The `Rc::new((*mapped).clone().into_inner())` result copy is modelled as returning the sequence itself.
- `map_keyed`'s `HashMap` is a Dafny `map`. Its hashing is not modelled.
- `ReactiveScope` is defined outside `reactive.rs` and `reactive/iter.rs`. The mappers only keep and drop scope handles, and that is what is modelled; what disposing a scope does is not part of this model.
- The doc comment at reactive.rs:199 says `unsubscribe` removes the handler; the filter at reactive.rs:201-212 keeps only the handler. The engine uses the documented removal (see Findings), and the filter as written is `Subscribers.KeepOnly`.

## Findings

| source | as written | input that shows it | evidently intended | confidence | as-written member | corrected member |
|---|---|---|---|---|---|---|
| maple-core/src/reactive.rs:201-212 | the filter keeps the subscribers identical to the handler and drops every other one | subscribers [h, k], unsubscribe h: [h] remains | remove h and keep k, as the doc comment at line 199 says | high (not executed) | Subscribers.UnsubscribeKeepsOnlyHandler | Subscribers.RemoveUndoesPush |
| maple-core/src/reactive/iter.rs:55-58 | the debug assertion reads `items[start]` and `new_items[start]` after the prefix loop | [1, 2, 3] to [1, 2, 3, 4]: start is 3, past the end of the old list | stop at the common prefix and check nothing past an end | high (not executed) | KeyedFindings.PrefixCheckOutOfBounds | KeyedList.SkipPrefix |
| maple-core/src/reactive/iter.rs:69-72 | `end` and `new_end` are decremented before the copy into `temp` | [1, 2, 3] to [0, 2, 3]: old 1's output lands at new position 0, and the last pair's slot stays empty | move each matched suffix pair to the same distance from the end | high (not executed) | KeyedFindings.SuffixCopyMismatch | KeyedList.SkipSuffix |
| maple-core/src/reactive/iter.rs:65-66 | the guards `start < end` and `start < new_end` compare inclusive last indices | [1, 2] to [2]: the shared last item is not skipped | skip the whole common suffix behind the prefix | high (not executed) | KeyedFindings.SuffixGuardShort | KeyedList.SkipSuffix |
| maple-core/src/reactive/iter.rs:79 | the guard `start < new_end` of the backward scan compares the inclusive last index of the new middle, so a one-item new middle is not indexed | [1, 7, 2, 5, 9] to [1, 2, 9], with the suffix copy (iter.rs:69-72) and the pull guard (iter.rs:107) corrected: old 2 claims nothing, its scope is dropped and new 2 is mapped fresh; as written the suffix copy and the pull guard go wrong first | index every non-empty middle | latent (not executed) | KeyedFindings.IndexGuardSkipsOne | KeyedList.IndexMiddle |
| maple-core/src/reactive/iter.rs:83-97 | the -1 sentinel is cast to `usize` and used as a position | [1, 1, 0] to [2, 1, 5]: the second old 1 indexes `temp` at 2^64 - 1 | treat -1 as "no further occurrence" and drop the item's scope | high (not executed) | KeyedFindings.SentinelIndexOutOfBounds | KeyedFindings.SentinelCorrected |
| maple-core/src/reactive/iter.rs:90 | the guard `start < end` of the matching loop compares the inclusive last index of the old middle, so a one-item old middle is not matched | [1, 2, 9] to [1, 5, 2, 6, 9], with the suffix copy (iter.rs:69-72) and the pull guard (iter.rs:107) corrected: old 2 claims nothing, its scope is lost and new 2 is mapped fresh; as written the suffix copy and the pull guard go wrong first | match every non-empty middle | latent (not executed) | KeyedFindings.MatchGuardSkipsOne | KeyedList.MatchOld |
| maple-core/src/reactive/iter.rs:107 | the guard `temp.get(i).is_some()` checks the bound, not the slot | [1, 2] to [1, 3, 2]: position 1 has an empty slot and is sent to the unwrap | pull from `temp` only when its slot is filled | high (not executed) | KeyedFindings.PullEmptySlot | KeyedList.FillSlots |
| maple-core/src/reactive/iter.rs:109-110 | the pull branch assigns `mapped[i]` and `scopes[i]` by index | [1, 2] to [0, 1, 2], with the suffix copy (iter.rs:69-72) and the pull guard (iter.rs:107) corrected: position 2 is past the end of `mapped`; as written the unwrap at iter.rs:109 panics at position 0 first | write in place or append, as the fresh branch at lines 118-124 does | latent (not executed) | KeyedFindings.AssignPastEnd | KeyedList.Put |
