/** The payload slot of a one-shot channel: Rust's `MaybeUninit<T>`,
    made explicit as a tagged container.

    `write` stores a value without dropping whatever was there before, and
    `assume_init_read` copies the value out bit for bit, leaving the slot's
    contents in place. Whether the copy in the slot is still owned is NOT
    recorded by the slot; the channel's flags are what track it.
 */
module Slots {

  datatype Slot<+T> = Uninit | Init(value: T)

  /** `MaybeUninit::write`: overwrite the slot, never drop the old value. */
  function Write<T>(s: Slot<T>, m: T): Slot<T> {
    Init(m)
  }

  /** `MaybeUninit::assume_init_read`: undefined behaviour on an
      uninitialised slot, hence the precondition. The slot is not changed. */
  function AssumeInitRead<T>(s: Slot<T>): T
    requires s.Init?
  {
    s.value
  }
}
