/** Failure-carrying results shared by the channel models.

    A Rust `panic!` on a misused channel unwinds only the current call; the
    channel object itself survives and is dropped later. So a failed call is
    modelled as a value that still carries the channel state after the call,
    together with the kind of misuse that was reported.
 */
module Outcomes {

  /** The result of a step in a run of calls: `None` when the step is not
      possible, either because it breaks an `unsafe` method's safety rule
      (undefined behaviour, not modelled further) or because the thread or
      handle taking it is not in a state where the program can make it. */
  datatype Option<+T> = None | Some(value: T)

  /** The two misuses the checked channel API reports by panicking. */
  datatype Misuse =
    | SecondSend   // `send` called after a message was already sent
    | NotReady     // `receive` called while no message is ready

  /** Result of one call: the state after the call and either the returned
      value or the misuse that made the call panic. */
  datatype Outcome<+S, +V> =
    | Ok(state: S, value: V)
    | Panic(state: S, misuse: Misuse)
}
