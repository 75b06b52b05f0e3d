/** Element: the object whose fields the external calls and its worker
    thread update in place. Every public method and WorkerStep is tied to
    the ElementSpec action it performs, and keeps Valid(), which includes
    the invariant ElementSpec.Inv of reachable states; so the lemmas proved
    there about any interleaving of calls and worker steps hold of this
    class. SetExecutionState, Initialize and DoWork are the non-public
    members that WorkerStep and Terminate call; their preconditions confine
    them to the step that calls them. */
module Elements {
  import opened Types
  import Pins
  import S = ElementSpec

  class Element {
    var status: ExecutionState
    var state: MediaState
    /** The level-triggered wake flag: false means a wake is pending. */
    var canSleep: bool
    /** Where the worker thread stands; Halted once cancelled and joined. */
    var pc: S.Pc
    /** What the hooks and the state publication have done, in order. */
    var trace: seq<Event>
    const inputs: Pins.PinCollection
    const outputs: Pins.PinCollection

    /** The two collections are distinct and of the right direction. */
    ghost predicate WellFormed()
    {
      inputs != outputs && inputs.direction == Input && outputs.direction == Output
    }

    /** The object invariant: well formed, and in a state that the step
        machine can reach from construction. */
    ghost predicate Valid()
      reads this, inputs, outputs
    {
      WellFormed() && S.Inv(Model())
    }

    /** The element's logical state. */
    function Model(): S.ElementState
      reads this, inputs, outputs
    {
      S.ElementState(status, state, canSleep, pc, inputs.pins, outputs.pins, trace)
    }

    constructor ()
      ensures Valid() && Model() == S.Init()
      ensures fresh(inputs) && fresh(outputs)
    {
      S.InitInv();
      status := WaitingForExecute;
      state := Pause;
      canSleep := true;
      pc := S.NotStarted;
      trace := [];
      inputs := new Pins.PinCollection(Input);
      outputs := new Pins.PinCollection(Output);
    }

    /** Stores the new status and signals the waiters. */
    method SetExecutionState(newStatus: ExecutionState)
      requires || (pc == S.PublishInitializing && newStatus == Initializing)
               || (pc == S.PublishExecuting && newStatus == Executing)
               || (status == Executing && newStatus == Terminating)
      modifies this
      ensures Model() == S.Publish(old(Model()), newStatus)
    {
      status := newStatus;
      trace := trace + [Published(newStatus)];
    }

    /** The Initialize hook: its only effect here is its trace event. */
    method Initialize()
      requires pc == S.CallInitialize
      modifies this
      ensures Model() == old(Model()).(trace := old(trace) + [Initialized])
    {
      trace := trace + [Initialized];
    }

    /** The DoWork hook: its only effect here is its trace event. */
    method DoWork()
      requires pc == S.MaybeWork && state == Play
      modifies this
      ensures Model() == old(Model()).(trace := old(trace) + [Worked])
    {
      trace := trace + [Worked];
    }

    /** Flushes the input pins, then the output pins. */
    method Flush()
      requires WellFormed()
      modifies this
      ensures WellFormed()
      ensures Model() == S.Flush(old(Model()))
      ensures S.Inv(old(Model())) ==> Valid()
    {
      ghost var m := Model();
      if S.Inv(m) {
        S.StepInv(m, S.CallFlush);
      }
      var flushedInputs := inputs.Flush();
      var flushedOutputs := outputs.Flush();
      trace := trace + flushedInputs + flushedOutputs;
    }

    /** One step of InternalWorkThread; `ran` is false when the worker is
        not started, has finished or been cancelled, or is asleep with no
        wake pending. */
    method WorkerStep() returns (ran: bool)
      requires Valid()
      modifies this
      ensures ran == S.WorkerRunnable(old(Model()))
      ensures Model() == S.WorkerStep(old(Model()))
      ensures Valid()
    {
      ghost var m := Model();
      S.WorkerStepInv(m);
      ran := true;
      match pc
      case NotStarted =>
        ran := false;
      case PublishInitializing =>
        SetExecutionState(Initializing);
        pc := S.CallInitialize;
      case CallInitialize =>
        Initialize();
        pc := S.PublishExecuting;
      case PublishExecuting =>
        SetExecutionState(Executing);
        pc := S.LoopTest;
      case LoopTest =>
        pc := if status == Executing then S.MaybeWork else S.PublishIdle;
      case MaybeWork =>
        if state == Play {
          DoWork();
        }
        pc := S.Sleep;
      case Sleep =>
        if canSleep {
          ran := false;
        } else {
          canSleep := true;
          pc := S.LoopTest;
        }
      case PublishIdle =>
        // The loop exit that publishes WaitingForExecute: Valid() rules it
        // out, because the status leaves Executing only through Terminate,
        // which cancels the worker first (ElementSpec.Reachable).
        assert false;
      case Exited =>
        ran := false;
      case Halted =>
        ran := false;
    }

    method AddInputPin(pin: PinId)
      requires Valid()
      modifies inputs
      ensures Model() == S.AddInputPin(old(Model()), pin)
      ensures Valid()
    {
      ghost var m := Model();
      S.StepInv(m, S.CallAddInputPin(pin));
      inputs.Add(pin);
    }

    method ClearInputPins()
      requires Valid()
      modifies inputs
      ensures Model() == S.ClearInputPins(old(Model()))
      ensures Valid()
    {
      ghost var m := Model();
      S.StepInv(m, S.CallClearInputPins);
      inputs.Clear();
    }

    method AddOutputPin(pin: PinId)
      requires Valid()
      modifies outputs
      ensures Model() == S.AddOutputPin(old(Model()), pin)
      ensures Valid()
    {
      ghost var m := Model();
      S.StepInv(m, S.CallAddOutputPin(pin));
      outputs.Add(pin);
    }

    method ClearOutputPins()
      requires Valid()
      modifies outputs
      ensures Model() == S.ClearOutputPins(old(Model()))
      ensures Valid()
    {
      ghost var m := Model();
      S.StepInv(m, S.CallClearOutputPins);
      outputs.Clear();
    }

    /** The last published status. */
    function Status(): (s: ExecutionState)
      reads this
      ensures s == Model().status
    {
      status
    }

    /** The current play/pause state. */
    function State(): (s: MediaState)
      reads this
      ensures s == Model().state
    {
      state
    }

    /** Fails unless WaitingForExecute; otherwise starts the worker. */
    method Execute() returns (reply: S.Reply)
      requires Valid()
      modifies this
      ensures S.Transition(reply, Model()) == S.Execute(old(Model()))
      ensures Valid()
    {
      ghost var m := Model();
      S.StepInv(m, S.CallExecute);
      if status != WaitingForExecute {
        return S.InvalidOperation;
      }
      if pc == S.NotStarted {
        pc := S.PublishInitializing;
      }
      reply := S.Done;
    }

    method Wake()
      requires Valid()
      modifies this
      ensures Model() == S.Wake(old(Model()))
      ensures Valid()
    {
      ghost var m := Model();
      S.StepInv(m, S.CallWake);
      canSleep := false;
    }

    /** Fails unless Executing; otherwise publishes Terminating, flushes,
        and cancels and joins the worker. */
    method Terminate() returns (reply: S.Reply)
      requires Valid()
      modifies this
      ensures S.Transition(reply, Model()) == S.Terminate(old(Model()))
      ensures Valid()
    {
      ghost var m := Model();
      S.StepInv(m, S.CallTerminate);
      if status != Executing {
        return S.InvalidOperation;
      }
      SetExecutionState(Terminating);
      Flush();
      pc := S.Halted;
      reply := S.Done;
    }

    /** The default ChangeState: store the new state and wake the worker. */
    method ChangeState(from: MediaState, to: MediaState)
      requires Valid()
      modifies this
      ensures Model() == S.ChangeState(old(Model()), from, to)
      ensures Valid()
    {
      ghost var m := Model();
      S.StepInv(m, S.CallChangeState(from, to));
      state := to;
      Wake();
    }

    method SetState(value: MediaState)
      requires Valid()
      modifies this
      ensures Model() == S.SetState(old(Model()), value)
      ensures Valid()
    {
      ghost var m := Model();
      S.StepInv(m, S.CallSetState(value));
      if state != value {
        ChangeState(state, value);
      }
    }

    /** WaitForExecutionState(target) returns exactly when the status is
        the target; until then the caller stays blocked. */
    predicate WaitForExecutionState(target: ExecutionState)
      reads this
      ensures WaitForExecutionState(target) <==> S.WaitForExecutionStateReturns(Model(), target)
    {
      status == target
    }
  }
}
