# Element execution core: a Dafny model

This project models the execution core of the c2play media pipeline, the
header `Element.h`. Two components are modelled:

- `PinCollection`. It is an insertion-ordered sequence of pin handles of one
  direction. It supports append, clear, count, lookup by index, and a flush
  of every pin.
- `Element`. It has a lifecycle status (`ExecutionState`), a play/pause state
  (`MediaState`), a level-triggered wake flag (`canSleep`), its input and
  output pin collections, and a dedicated worker thread running
  `InternalWorkThread`.

Threads are abstracted away. The worker is a step machine with a program
counter (`ElementSpec.Pc`). It publishes Initializing, runs Initialize,
publishes Executing, and then loops: DoWork when playing, then a sleep that
can only complete once `canSleep` is false. External calls and worker steps
are separate transitions, and an interleaving is a sequence of them
(`ElementSpec.Run`). The hooks Initialize and DoWork, the flush of a pin, and
each status publication append an event to a trace. Properties such as
"DoWork only while Play and Executing" and "inputs flushed before outputs"
are stated over that trace.

Files:

- `types.dfy`: pin ids, directions, the two enumerations, trace events.
- `pins.dfy`: `FlushEvents`, the `Item` bounds check, and the `PinCollection` class.
- `element_spec.dfy`: the element as a value-level step machine. It holds the
  invariant of every reachable state and the lemmas about call sequences.
- `element.dfy`: the `Element` class. Each public method, and the worker
  step, has an `ensures` that ties its new state to the `ElementSpec` action
  it performs. Each of these methods also keeps `Valid()`, and `Valid()`
  includes `ElementSpec.Inv`, the invariant of every reachable state. So the
  lemmas about action sequences hold of any sequence of calls to these
  methods. `SetExecutionState`, `Initialize` and `DoWork` are private or
  protected in the C++ class. Their preconditions confine them to the step
  of `WorkerStep` or `Terminate` that calls them.

Two behaviours follow the code rather than the prose around it:

- `Terminate` publishes Terminating, flushes, then cancels and joins the
  worker. The only statement that resets the status to WaitingForExecute is
  in the worker after its loop (Element.h:191), and a cancelled worker never
  reaches it. So after `Terminate` the status stays Terminating for good, and
  every later `Execute` fails its guard. The loop exit at Element.h:191 shows
  that the worker was meant to publish WaitingForExecute when it stops. A
  cancelled worker never gets there, and in the model that branch is
  unreachable (`ElementSpec.Reachable`).
- `Item` guards with `index > Count`, so `index == Count` passes the guard
  and reads one past the end of the vector (see Findings).

## Model

| member | source | states |
|---|---|---|
| `Pins.FlushEvents` | Element.h:69-75 | flushing a sequence of pins yields exactly one flush event per pin, at the same position, so no pin is skipped and order is kept |
| `Pins.ItemGuardRejects` | Element.h:63-64 | Item's bounds check admits exactly the indices 0..Count inclusive |
| `Pins.ItemGuardAdmitsCount` | Element.h:63 | for every count the guard lets index == Count through |
| `Pins.PinCollection.constructor` | Element.h:51-53 | a new collection is empty |
| `Pins.PinCollection.Add` | Element.h:38-41 | the pin is appended at the end and earlier pins keep their indices |
| `Pins.PinCollection.Clear` | Element.h:43-46 | the collection becomes empty |
| `Pins.PinCollection.Count` | Element.h:56-59 | the number of pins currently held |
| `Pins.PinCollection.Item` | Element.h:61-67 | as written: throws iff index < 0 or index > Count; index == Count reads past the end; otherwise returns the pin at that index |
| `Pins.PinCollection.ItemChecked` | Element.h:61-67 | corrected: returns the pin at index iff 0 <= index < Count, otherwise fails with out-of-range |
| `Pins.PinCollection.Flush` | Element.h:69-75 | the loop flushes every pin once, in insertion order |
| `ElementSpec.Execute` | Element.h:260-268 | fails iff status != WaitingForExecute and then changes nothing; on success only the worker is started and the status is left as it was |
| `ElementSpec.Wake` | Element.h:270-285 | clears canSleep and changes nothing else |
| `ElementSpec.ChangeState` | Element.h:302-310 | stores the new state and wakes the worker; nothing else changes |
| `ElementSpec.SetState` | Element.h:316-325 | an unchanged value changes nothing; otherwise the state becomes the value and canSleep becomes false |
| `ElementSpec.Flush` | Element.h:150-156 | appends the input pins' flushes in order, then the output pins' flushes in order, and changes nothing else |
| `ElementSpec.Terminate` | Element.h:287-299 | fails iff status != Executing and then changes nothing; on success Terminating is published before any pin is flushed, the worker is halted and the status stays Terminating |
| `ElementSpec.WorkerStep` | Element.h:158-194 | a blocked worker stays put; a completed sleep resets canSleep; the loop exits only when the status is not Executing; DoWork runs only at its step and only in Play |
| `ElementSpec.WakesCoalesce` | Element.h:270-282 | k >= 1 consecutive wakes leave the same state as one |
| `ElementSpec.WakesGiveOneIteration` | Element.h:166-189 | a sleeping worker woken k >= 1 times runs one loop iteration (one DoWork in Play, none in Pause) and then cannot proceed until woken again |
| `ElementSpec.WorkerStepInv` | Element.h:162-189 | each worker step keeps the status in line with the program counter and the log of the form Initializing, Initialize, Executing, DoWork* |
| `ElementSpec.TerminateInv` | Element.h:287-296 | a Terminate from a reachable state leaves the log as the loop's log followed by Terminating, with the worker halted |
| `ElementSpec.StepInv` | Element.h:158-325 | every call and every worker step keeps the invariant |
| `ElementSpec.Reachable` | Element.h:158-325 | every state reached from construction by any interleaving satisfies the invariant, so the worker publishes Initializing then Executing in that order and never reaches the publication of WaitingForExecute |
| `ElementSpec.DoWorkOnlyWhilePlayingAndExecuting` | Element.h:166-171 | in a reachable state, a worker step that runs DoWork happens only when the state is Play and the status is Executing |
| `ElementSpec.ExecuteSucceedsOnlyBeforeInitializing` | Element.h:260-265 | in a reachable state Execute succeeds iff the worker has not yet published Initializing |
| `ElementSpec.SecondExecuteSlipsThrough` | Element.h:262-265 | two Execute calls before the worker's first step both pass the guard |
| `ElementSpec.ExecuteReachesExecuting` | Element.h:162-166 | after Execute, three worker steps publish Initializing, Initialize and Executing, so waiting for Executing can return |
| `ElementSpec.HaltedIsFinal` | Element.h:295-296 | a cancelled worker stays halted with status Terminating and its log unchanged, whatever is called |
| `ElementSpec.NothingAfterTerminate` | Element.h:287-296 | after a successful Terminate the worker takes no further step, the status stays Terminating and every later Execute fails |
| `ElementSpec.PausedDoesNoWork` | Element.h:168-171 | while paused, no sequence of calls and steps without a switch to Play, any number of wakes included, runs DoWork |
| `Elements.Element.constructor` | Element.h:107-122 | a new element is WaitingForExecute, paused, with canSleep set, no pins and a worker not started |
| `Elements.Element.SetExecutionState` | Element.h:125-132 | stores the status and records its publication; callable only at the worker's publish steps or from Terminate |
| `Elements.Element.Initialize` | Element.h:141-143 | the hook's only effect is its trace event; callable only at the worker's Initialize step |
| `Elements.Element.DoWork` | Element.h:145-148 | the hook's only effect is its trace event; callable only at the worker's DoWork step while playing |
| `Elements.Element.Flush` | Element.h:150-156 | performs ElementSpec.Flush: inputs, then outputs; keeps the reachable-state invariant |
| `Elements.Element.WorkerStep` | Element.h:158-194 | performs one ElementSpec.WorkerStep, reports whether the worker could run, and keeps the reachable-state invariant |
| `Elements.Element.AddInputPin` | Element.h:197-200 | appends to the inputs and leaves everything else; keeps the reachable-state invariant |
| `Elements.Element.ClearInputPins` | Element.h:201-204 | empties the inputs and leaves everything else; keeps the reachable-state invariant |
| `Elements.Element.AddOutputPin` | Element.h:206-209 | appends to the outputs and leaves everything else; keeps the reachable-state invariant |
| `Elements.Element.ClearOutputPins` | Element.h:210-213 | empties the outputs and leaves everything else; keeps the reachable-state invariant |
| `Elements.Element.Status` | Element.h:229-232 | the current status |
| `Elements.Element.State` | Element.h:312-315 | the current play/pause state |
| `Elements.Element.Execute` | Element.h:260-268 | performs ElementSpec.Execute and returns its reply; keeps the reachable-state invariant |
| `Elements.Element.Wake` | Element.h:270-285 | performs ElementSpec.Wake; keeps the reachable-state invariant |
| `Elements.Element.Terminate` | Element.h:287-299 | performs ElementSpec.Terminate and returns its reply; keeps the reachable-state invariant |
| `Elements.Element.ChangeState` | Element.h:302-310 | performs ElementSpec.ChangeState; keeps the reachable-state invariant |
| `Elements.Element.SetState` | Element.h:316-325 | performs ElementSpec.SetState; keeps the reachable-state invariant |
| `Elements.Element.WaitForExecutionState` | Element.h:327-338 | the wait can return exactly when the status equals the target |

## Left out

- Mutexes, condition variables and the `Thread` wrapper's Start, Cancel and Join are not modelled as such. These are concurrency primitives. Start enables worker steps; Cancel and Join disable them (`Halted`). A spurious wakeup re-tests `canSleep`, so it is the same as staying blocked.
- `Terminate` is one atomic transition. In the real code the worker could run between the publication of Terminating and the cancel. The behaviour of a cancel that arrives in the middle of DoWork is also not modelled.
- Real races are outside the sequential model. One race is shown: a second `Execute` before the worker's first step passes the guard (`ElementSpec.SecondExecuteSlipsThrough`). `Thread` is not part of this model, so a second Start of an already started thread is taken to have no effect.
- The failure branch of the broadcast in `Wake` is not modelled. It reports an error of a foreign primitive. Note that its throw also skips the unlock of the wake mutex.
- `WaitForExecutionState` is a guard predicate, not a blocking loop. A caller in a sequential model cannot wait for another thread. The predicate says when a wait may return; it does not promise that a given waiter does return.
- SetExecutionState signals the state condition variable instead of broadcasting it, so it wakes only one of several waiters. A waiter for a short-lived status can also miss it. Neither effect is modelled.
- A worker cancelled inside the sleep's condition wait re-acquires the wake mutex and never releases it. Every later `Wake` or `SetState` would then block. The model does not capture this.
- Elements.Element.SetExecutionState, Elements.Element.Initialize and Elements.Element.DoWork stand for non-public members. Their preconditions limit them to their program-counter step, but called alone they do not keep `Valid()`. Only `WorkerStep` and `Terminate` call them.
- `Log`, `Name`, `SetName`, `LogEnabled` and `SetLogEnabled` are left out. They are I/O with clock readings and floating point, or trivial accessors.
- `Inputs()` and `Outputs()` only return the collections. The model exposes them as the constant fields `inputs` and `outputs`.
- Pin internals, codecs and the connect/push protocol are left out. Their files are not part of this model; pins are opaque ids whose flush appends to the trace.
- `shared_ptr`, `weak_ptr` and `enable_shared_from_this` ownership is memory management and is left out.
- Subclass overrides of the virtual hooks are left out. The model uses the default `Initialize`, `DoWork`, `Flush` and `ChangeState`.
- Pins.PinCollection.Count: does not model the narrowing of the vector's size to a 32-bit `int` for more than 2^31-1 pins.

## Findings

| source | as written | input that shows it | evidently intended | confidence | as-written member | corrected member |
|---|---|---|---|---|---|---|
| Element.h:63 | the bounds check of `Item` rejects only a negative index or an index greater than the count | an empty collection and index 0 passes the check and reads past the end of the vector | reject every index that is not below the count | high; not executed | `Pins.PinCollection.Item` (with `Pins.ItemGuardAdmitsCount`) | `Pins.PinCollection.ItemChecked` |
