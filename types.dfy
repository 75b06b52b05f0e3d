/** Vocabulary shared by the pin collections and the element: opaque pin
    handles, the two lifecycle enumerations, and the events that the abstract
    hooks (Initialize, DoWork, a pin's Flush) and the state publication leave
    in an element's trace. */
module Types {

  /** A pin handle. Pin internals live outside Element.h, so only a pin's
      identity matters here. */
  type PinId = nat

  /** Which of the two collections a pin belongs to: InPinCollection holds
      input pins, OutPinCollection output pins. */
  datatype Direction = Input | Output

  /** The lifecycle of an element's worker, in declaration order. */
  datatype ExecutionState = WaitingForExecute | Initializing | Executing | Terminating

  /** The play/pause state that gates DoWork. */
  datatype MediaState = Play | Pause

  /** One observable effect, in the order it happened. */
  datatype Event =
    | Published(status: ExecutionState)          // SetExecutionState stored and signalled a new status
    | Initialized                                // the Initialize hook ran
    | Worked                                     // the DoWork hook ran
    | Flushed(direction: Direction, pin: PinId)  // Flush was called on one pin
}
