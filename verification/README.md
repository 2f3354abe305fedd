# One-shot channels and a spin lock, modelled in Dafny

This project models the two synchronisation primitives of the
`atomics_and_locks_book` repository (Rust):

- the **one-shot channels** of `src/ch5.rs`:
  - the unified `OneshotChannel<T>`, with its checked `send`/`receive`, its unchecked
    `send_unchecked`/`receive_unchecked`, `is_message_ready` and its destructor;
  - the split `channel()` returning a `Sender<T>` and a `Receiver<T>` that share one
    `Channel<T>` record;
- the **spin lock** of `src/ch4.rs`: `SpinLockFlag`, `UnsafeSpinLock<T>` and
  `SpinLock<T>` with its `Guard`.

Every atomic operation is treated as one indivisible, sequentially consistent
step on plain state.

- **The channels** are immutable records with pure transition functions. A record holds:
  - an explicit `Uninit | Init(v)` slot in place of `MaybeUninit<T>`;
  - the channel's flags;
  - tallies that the program does not store but whose meaning its code fixes:
    `writes`, the payloads written into the slot, and `moves`, the payloads moved out to a caller;
  - in the unified channel, the facts its safety rules are about: `uncheckedSends` and
    `uncheckedReceives`, how often each unchecked method was called, and `polledReady`,
    whether `is_message_ready` has returned true.

  The destructor (`Drop`) returns how many payloads it drops.
  "Every payload is released exactly once" is then `moves + Drop == writes`.
- **A panicking misuse** (a second `send`, or a `receive` when nothing is ready) is an
  `Outcome.Panic` carrying the channel state after the call. This is because the panic
  unwinds only the call, and the channel is still dropped later.
- **The split channel's move-once handles** are `Live`/`Gone` markers. Using a `Gone`
  handle is a step that cannot be taken, which Rust rejects at compile time.
- **The spin lock** is an interleaving step relation over thread ids. A thread is
  `Idle`, `Spinning` in `lock`, or `Holding`, that is, owning the guard (or, for
  `UnsafeSpinLock`, the `&mut T`).
  - Each compare-exchange attempt is a step. Its spurious failure is a parameter, and a
    failed attempt changes nothing.
  - Dropping a guard stores `false`.
  - `UnsafeSpinLock::{new, lock}` take the same steps as `SpinLock::{new, lock}`.
  - `UnsafeSpinLock::unlock` called by the holder is the guard drop. Called by anyone
    else, it is `UnsafeUnlock`.
- **The `safe_spin_lock` test** becomes `PushScenario`. There, `n` threads each run
  `lock; push(own id); drop guard` under any schedule.

Files:
- `outcomes.dfy`: `Option`, `Misuse`, `Outcome`.
- `slots.dfy`: the `MaybeUninit` slot.
- `oneshot.dfy`: the unified channel.
- `split_oneshot.dfy`: the split channel.
- `spin_flag.dfy`: `SpinLockFlag`.
- `spin_lock.dfy`: the lock, guard and interleavings.
- `push_scenario.dfy`: the push test.

## Model

| member | source | states |
|---|---|---|
| Oneshot.New | src/ch5.rs:69-75 | a fresh channel has an empty slot, both flags clear and nothing written; it is balanced |
| Oneshot.Send | src/ch5.rs:84-99 | panics exactly when the in-use flag is already set, and then changes nothing; otherwise the slot holds the message and the channel is ready and in use |
| Oneshot.Receive | src/ch5.rs:104-116 | panics exactly when the message is not ready, and then changes nothing; otherwise returns the slot's payload and clears the ready flag, leaving the in-use flag unchanged |
| Oneshot.SendUnchecked | src/ch5.rs:119-128 | under its "call once" rule (no earlier send_unchecked), writes and publishes the message, counting one more write, but leaves the in-use flag as it was and drops no payload already in the slot |
| Oneshot.ReceiveUnchecked | src/ch5.rs:130-136 | under its documented rules (is_message_ready has returned true, called once), returns the slot's payload and leaves the ready flag as it was; nothing checks that the payload is still in the slot |
| Oneshot.SendUncheckedMarking | src/ch5.rs:119-128 | corrected send_unchecked: also sets the in-use flag; its rule is strengthened to "nothing was sent on the channel before" |
| Oneshot.ReceiveUncheckedClearing | src/ch5.rs:130-136 | corrected receive_unchecked: also clears the ready flag; its rule is strengthened to "the message is ready now" |
| Oneshot.IsMessageReady | src/ch5.rs:77-79 | is_message_ready is true exactly when receive would succeed |
| Oneshot.Drop | src/ch5.rs:139-145 | the destructor drops at most one payload, only from an initialised slot, and on a balanced channel exactly when the message was sent and never received |
| Oneshot.Step | src/ch5.rs:77-136 | every call keeps the slot/flag consistency (ready, or seen ready by a poll, only with an initialised slot); unchecked calls outside their rules are undefined behaviour |
| Oneshot.SendThenReceive | src/ch5.rs:147-165 | on a fresh channel, send succeeds and the following receive returns exactly the sent message, for any payload type |
| Oneshot.SendThenReceiveFrom | src/ch5.rs:84-116 | from any channel nothing was sent on yet, send then receive returns the message |
| Oneshot.PollPredictsReceive | src/ch5.rs:101-109 | is_message_ready answers true exactly when receive would not panic |
| Oneshot.NoSendAfterCycle | src/ch5.rs:85-89 | after a completed send/receive cycle a second send still panics and leaves the channel unchanged: the in-use flag is never cleared |
| Oneshot.SecondSendKeepsMessage | src/ch5.rs:81-89 | a second send panics and the stored message and ready flag are unchanged |
| Oneshot.ReceiveMisuse | src/ch5.rs:101-109 | receive before any send panics; after a successful receive a second receive panics |
| Oneshot.DropReleasesUnreceived | src/ch5.rs:139-145 | on a balanced channel the destructor drops the payload iff it was sent and not received, and drops nothing iff it was never sent or already received |
| Oneshot.StepKeepsBalanced | src/ch5.rs:84-136 | every checked call (and, corrected, every unchecked call within its rules) keeps "one payload at most, accounted for once" |
| Oneshot.RunKeepsBalanced | src/ch5.rs:84-136 | the same for whole sequences of calls |
| Oneshot.RunCheckedDefined | src/ch5.rs:84-116 | checked calls never reach undefined behaviour |
| Oneshot.CheckedReleasesExactlyOnce | src/ch5.rs:139-145 | any sequence of checked calls sends at most one message, which is released exactly once (moved to a receiver or dropped), or never if unsent |
| Oneshot.CorrectedReleasesExactlyOnce | src/ch5.rs:119-145 | with the corrected unchecked calls, every call sequence that respects their rules releases each payload exactly once; the send_unchecked rule is the strengthened "no send of either kind before" |
| Oneshot.UncheckedReceiveThenDropReleasesTwice | src/ch5.rs:130-145 | as written, send, a poll returning true, receive_unchecked and then drop release the one payload twice |
| Oneshot.UncheckedSendThenSendLeaks | src/ch5.rs:119-128 | as written, send_unchecked and then a checked send overwrite the slot: two payloads written, one released |
| Oneshot.SendThenUncheckedSendLeaks | src/ch5.rs:84-128 | as written, a checked send and then send_unchecked (called once, as its rule asks) overwrite the slot: two payloads written, one released; the strengthened rule rejects this order |
| Oneshot.UncheckedReceiveThenReceiveMovesTwice | src/ch5.rs:104-136 | as written, receive_unchecked leaves the message ready, so a later receive moves the one payload out a second time; with the corrected call it is released once |
| Oneshot.ReceiveThenUncheckedReceiveMovesTwice | src/ch5.rs:104-136 | as written, send, a poll returning true, receive and then receive_unchecked keep the documented rules yet move the one payload out twice; the strengthened rule rejects the last call |
| SplitOneshot.NewChannel | src/ch5.rs:167-180 | channel() gives two live handles on one record that is not ready and has an empty slot |
| SplitOneshot.SenderSend | src/ch5.rs:202-208 | a live sender is consumed, the slot holds the message and the ready flag is set |
| SplitOneshot.ReceiverIsMessageReady | src/ch5.rs:211-213 | Receiver::is_message_ready is true exactly when Receiver::receive would succeed |
| SplitOneshot.ReceiverReceive | src/ch5.rs:214-220 | the receiver is consumed even when it panics; it panics exactly when not ready, leaving the record unchanged, and otherwise returns the payload and clears the ready flag |
| SplitOneshot.ChannelDrop | src/ch5.rs:187-193 | the record's destructor drops at most one payload, only from an initialised slot, and on a balanced record exactly when it was sent and never received |
| SplitOneshot.Step | src/ch5.rs:202-220 | every handle operation keeps the slot/flag consistency |
| SplitOneshot.SendThenReceive | src/ch5.rs:223-241 | send then receive on the other handle: the poll reports ready and the receive yields exactly the sent value |
| SplitOneshot.PollPredictsReceive | src/ch5.rs:210-220 | Receiver::is_message_ready is true exactly when Receiver::receive would not panic |
| SplitOneshot.StepKeepsBalanced | src/ch5.rs:187-220 | every handle operation keeps "at most one payload, accounted for once" |
| SplitOneshot.RunKeepsBalanced | src/ch5.rs:187-220 | the same for whole programs over the two handles |
| SplitOneshot.ReleasedExactlyOnce | src/ch5.rs:187-193 | whatever is done with the handles, once both are gone the payload has been released exactly once, or never if unsent |
| SplitOneshot.HandlesAreSingleUse | src/ch5.rs:202-215 | after send the sender cannot send again; after receive the receiver can neither poll nor receive |
| SpinFlag.New | src/ch4.rs:32-36 | a new flag is unlocked |
| SpinFlag.CompareExchangeWeak | src/ch4.rs:39-44 | the attempt succeeds iff the flag was unlocked and there was no spurious failure; success leaves it locked, failure leaves it unchanged |
| SpinFlag.Unlock | src/ch4.rs:51-53 | unlock leaves the flag unlocked |
| SpinFlag.LockUnlockRoundTrip | src/ch4.rs:37-53 | unlock undoes a winning lock attempt on an unlocked flag, and after any unlock the next non-spurious attempt wins |
| SpinFlag.Lock | src/ch4.rs:37-50 | lock returns at the first winning attempt, which found the flag unlocked and locked it; all earlier attempts failed; if none wins it is still spinning |
| SpinLocks.Init | src/ch4.rs:97-102 | a new lock is unlocked, holds the initial value, and no thread is in it |
| SpinLocks.Step | src/ch4.rs:103-143 | one thread's step keeps the thread count; only the holder changes the value, by writing through its guard; the flag becomes locked only by a winning attempt, whose thread then holds; a guard drop unlocks and ends its thread's hold |
| SpinLocks.Deref | src/ch4.rs:127-143 | the value is reached only through a held guard; under the guard invariant the flag is locked and no other thread holds, so the access is exclusive; writing back what was read changes nothing |
| SpinLocks.UnsafeUnlock | src/ch4.rs:77-82 | UnsafeSpinLock::unlock stores unlocked whoever calls it, keeps the value, and does not end any other thread's access |
| SpinLocks.AcquireOnlyFromUnlocked | src/ch4.rs:103-106 | lock completes only by changing the flag from unlocked to locked; any other attempt leaves the whole state unchanged |
| SpinLocks.DropGuardOnce | src/ch4.rs:122-126 | dropping a guard unlocks and ends its critical section; the guard cannot be dropped again or written through |
| SpinLocks.OnlyHolderWrites | src/ch4.rs:127-143 | the protected value changes only by a write through the current guard |
| SpinLocks.StepKeepsInv | src/ch4.rs:103-126 | every step keeps "flag locked iff some thread holds, and at most one holds" |
| SpinLocks.RunKeepsInv | src/ch4.rs:103-126 | the same for every interleaving |
| SpinLocks.MutualExclusion | src/ch4.rs:109-120 | in every interleaving from a new lock, at most one guard is outstanding, and a guard exists only while the flag is locked |
| SpinLocks.UnlockedAllowsOnlyLocking | src/ch4.rs:127-143 | while the lock is free nobody can write the value or drop a guard |
| SpinLocks.LockingKeepsValue | src/ch4.rs:37-50 | lock calls and attempts never change the protected value |
| SpinLocks.HandOff | src/ch4.rs:127-143 | the thread that acquires the lock after a guard is dropped sees the value left by that guard |
| SpinLocks.NeverDropped | src/ch4.rs:170-191 | if a guard is never dropped its owner keeps the lock and no other thread's lock ever completes |
| SpinLocks.UnsafeUnlockByHolder | src/ch4.rs:77-82 | UnsafeSpinLock::unlock by the holder is exactly a guard drop |
| SpinLocks.UnsafeUnlockByOtherBreaksExclusion | src/ch4.rs:77-82 | unlock by any other thread lets a second thread acquire while the holder still holds, breaking mutual exclusion |
| PushScenario.Start | src/ch4.rs:147-149 | the test starts with an empty vector, a free lock satisfying the guard invariant, and one idle thread per id that has not pushed |
| PushScenario.NextKeepsGood | src/ch4.rs:151-163 | each thread step keeps the lock invariant and "the vector holds each pushed id once, nothing else" |
| PushScenario.RunKeepsGood | src/ch4.rs:151-163 | the same for every schedule |
| PushScenario.AllPushesKept | src/ch4.rs:147-168 | under any schedule, once all n threads have run lock-push-drop the vector has length n and holds each id 0..n exactly once |

## Left out

- Memory orderings (`Acquire`, `Release`, `Relaxed`) and happens-before: every atomic
  operation is one sequentially consistent step.
- `std::hint::spin_loop`, thread spawning, scoping, parking and sleeping, `print!`: they
  do not change the modelled state.
- `SimpleChannel` (src/ch5.rs:20-58): a wrapper over `Mutex`/`Condvar` with blocking
  waits and poisoning. Note that it pushes to the front and pops from the front, so it
  delivers newest first.
- src/ch3.rs: memory-ordering demonstrations only. src/lib.rs: re-exports only.
- `Arc` reference counts: the shared record is dropped once both handles are gone.
- `Sync`/`Send` markers and lifetimes, including "a guard cannot outlive its lock":
  these are type-level facts. Single use of the split handles is kept as the `Live`/`Gone`
  precondition.
- Liveness: that every spinning thread eventually acquires the lock. This needs a
  fairness assumption and is not stated; only safety is proved.
- SpinFlag.Lock: models a finite prefix of the spin loop's attempts, given as
  parameters. A lock that never succeeds is an unbounded run and is represented by
  "no attempt in the prefix won".
- SpinLocks.OnlyHolderWrites: a write through `deref_mut` is modelled as replacing the
  whole protected value. Partial writes through the `&mut T` amount to the same thing.
- Oneshot.CorrectedReleasesExactlyOnce: holds under stronger rules for both unchecked calls
  than the source documents.
  - `send_unchecked`: no send of either kind may come before it. Marking the in-use flag
    stops a checked `send` after `send_unchecked`, but nothing in `send_unchecked` can stop
    it from overwriting an earlier checked `send` (`Oneshot.SendThenUncheckedSendLeaks`).
  - `receive_unchecked`: the message must be ready at the call, not merely have been seen
    ready by `is_message_ready` earlier. A checked `receive` in between has already moved
    the payload out (`Oneshot.ReceiveThenUncheckedReceiveMovesTwice`).
- `is_message_ready` (both variants) returns only a boolean and takes the state by
  value, so "changes no state" holds by construction rather than by a stated contract.
- The `poison_spin_lock` test (src/ch4.rs:170-191) panics while holding a guard.
  - Under Rust's default unwinding, that panic runs the guard's destructor, so the lock
    is released.
  - The permanently locked case arises only when the guard is never dropped, for example
    when it is leaked with `mem::forget`. That case is what `SpinLocks.NeverDropped` states.
- The `safe_spin_lock` test spawns twenty threads (ids 0..20, half of them sleeping
  after their push). The scenario is stated for any `n`. Sleeping is not modelled.

## Findings

| source | as written | input that shows it | evidently intended | confidence | as-written member | corrected member |
|---|---|---|---|---|---|---|
| src/ch5.rs:133-145 | `receive_unchecked` moves the payload out but leaves `is_message_ready` set, so the destructor drops the already-moved payload | `send(String::from("x"))`, then `is_message_ready()` returns true, then `receive_unchecked()` (first call: both safety rules kept), then drop the channel; or `receive()` after `receive_unchecked()`, which moves it out twice (`Oneshot.UncheckedReceiveThenReceiveMovesTwice`) | `receive_unchecked` clears the ready flag after the move, so each payload is released once (`Oneshot.CorrectedReleasesExactlyOnce`) | not executed; high | Oneshot.UncheckedReceiveThenDropReleasesTwice | Oneshot.ReceiveUncheckedClearing |
| src/ch5.rs:130-136 | the rule "only call this method after `is_message_ready` returns true" does not exclude a checked `receive` after that poll; `receive_unchecked` then reads the slot `receive` already moved out of | `send(String::from("x"))`, `is_message_ready()` returns true, `receive()`, then `receive_unchecked()` (first call): `x` is moved out twice | the rule asks that the message is still ready at the call, so the slot still owns the payload (`Oneshot.CorrectedReleasesExactlyOnce`) | not executed; high | Oneshot.ReceiveThenUncheckedReceiveMovesTwice | Oneshot.ReceiveUncheckedClearing |
| src/ch5.rs:122-128 | `send_unchecked` does not set `is_message_in_use`, so a later checked `send` passes its check and overwrites the slot without dropping the first message | `send_unchecked(a)` on a fresh channel, then `send(b)`: `a` is leaked | `send_unchecked` also marks the slot in use, so the later `send` panics; and, since it cannot detect an earlier `send` (`Oneshot.SendThenUncheckedSendLeaks`), its rule reads "only on a channel nothing was sent on" (`Oneshot.CorrectedReleasesExactlyOnce`) | not executed; medium (a leak, not undefined behaviour) | Oneshot.UncheckedSendThenSendLeaks | Oneshot.SendUncheckedMarking |
