/** The split one-shot channel of src/ch5.rs: `channel()` returning a
    `Sender` and a `Receiver` that share one `Channel` record.

    The two handles are modelled by their liveness. Rust's move semantics
    make a consumed handle unusable; here each handle operation requires its
    handle to be `Live` and leaves it `Gone`. The shared record is destroyed
    once both handles are gone; reference counts are not modelled.
 */
module SplitOneshot {
  import opened Outcomes
  import opened Slots

  /** A handle is live until it is moved into `send`/`receive` or dropped. */
  datatype Handle = Live | Gone

  /** The shared `Channel` record, with the same payload tallies as the
      unified channel: `writes` into the slot and `moves` out of it. */
  datatype Shared<T> = Shared(slot: Slot<T>, ready: bool, writes: nat, moves: nat)

  /** The shared record together with the state of both handles. */
  datatype Pair<T> = Pair(chan: Shared<T>, sender: Handle, receiver: Handle)

  predicate Valid<T>(p: Pair<T>) {
    && (p.chan.slot.Init? <==> p.chan.writes > 0)
    && (p.chan.ready ==> p.chan.slot.Init?)
  }

  /** What ownership by handles guarantees: only a live sender can still
      write, so at most one payload is written, and until the receiver is gone
      nothing was moved out. The payload is accounted for once: moved out or
      still ready. */
  predicate Balanced<T>(p: Pair<T>) {
    && Valid(p)
    && p.chan.writes <= 1
    && (p.sender.Live? ==> p.chan.writes == 0)
    && (p.receiver.Live? ==> p.chan.moves == 0)
    && p.chan.moves + (if p.chan.ready then 1 else 0) == p.chan.writes
  }

  /** `channel()`: one fresh record, not ready, and two live handles on it. */
  function NewChannel<T>(): (p: Pair<T>)
    ensures p.sender == Live && p.receiver == Live
    ensures p.chan.slot == Uninit && !p.chan.ready
    ensures Balanced(p)
  {
    Pair(Shared(Uninit, false, 0, 0), Live, Live)
  }

  /** `Sender::send`: consumes the sender, writes the message and sets the
      ready flag. */
  function SenderSend<T>(p: Pair<T>, m: T): (r: Pair<T>)
    requires p.sender == Live
    ensures r.sender == Gone && r.receiver == p.receiver
    ensures r.chan.slot == Init(m) && r.chan.ready
    ensures r.chan.writes == p.chan.writes + 1 && r.chan.moves == p.chan.moves
  {
    p.(chan := p.chan.(slot := Write(p.chan.slot, m), ready := true, writes := p.chan.writes + 1),
       sender := Gone)
  }

  /** `Receiver::is_message_ready`: a read of the shared ready flag through a
      live receiver. It borrows the receiver and changes nothing; its answer is
      exactly whether `receive` would succeed. */
  function ReceiverIsMessageReady<T>(p: Pair<T>): (r: bool)
    requires p.receiver == Live
    ensures Valid(p) ==> (r <==> ReceiverReceive(p).Ok?)
  {
    p.chan.ready
  }

  /** `Receiver::receive`: the receiver is moved into the call, so it is gone
      afterwards even when the call panics. The swap of the ready flag to
      false decides: already false panics with nothing else changed;
      otherwise the payload is moved out. */
  function ReceiverReceive<T>(p: Pair<T>): (r: Outcome<Pair<T>, T>)
    requires p.receiver == Live && Valid(p)
    ensures r.state.receiver == Gone && r.state.sender == p.sender
    ensures r.Panic? <==> !p.chan.ready
    ensures r.Panic? ==> r.state.chan == p.chan && r.misuse == NotReady
    ensures r.Ok? ==> && p.chan.slot.Init? && r.value == p.chan.slot.value
                      && !r.state.chan.ready
                      && r.state.chan.moves == p.chan.moves + 1
                      && r.state.chan.writes == p.chan.writes
  {
    if !p.chan.ready then
      Panic(p.(receiver := Gone), NotReady)
    else
      Ok(p.(chan := p.chan.(ready := false, moves := p.chan.moves + 1), receiver := Gone),
         AssumeInitRead(p.chan.slot))
  }

  /** `Drop for Channel`: runs once both handles are gone, and drops the
      payload exactly when the ready flag is still set. It only ever drops an
      initialised slot, and on a balanced record exactly when the message was
      sent and never received. */
  function ChannelDrop<T>(p: Pair<T>): (r: nat)
    requires p.sender == Gone && p.receiver == Gone
    ensures r <= 1
    ensures Valid(p) && r == 1 ==> p.chan.slot.Init?
    ensures Balanced(p) ==> (r == 1 <==> p.chan.writes == 1 && p.chan.moves == 0)
  {
    if p.chan.ready then 1 else 0
  }

  // ---------------------------------------------------------------------
  // Runs of handle operations

  /** What a program may do with the handles; dropping a handle unused is
      its implicit destructor. */
  datatype Op<T> = OpSend(msg: T) | OpPoll | OpReceive | OpDropSender | OpDropReceiver

  /** One handle operation; `None` when the handle it needs is already gone,
      which Rust rejects at compile time (use of a moved value). */
  function Step<T>(p: Pair<T>, op: Op<T>): (r: Option<Pair<T>>)
    requires Valid(p)
    ensures r.Some? ==> Valid(r.value)
  {
    match op
    case OpSend(m) => if p.sender == Live then Some(SenderSend(p, m)) else None
    case OpPoll => if p.receiver == Live then Some(p) else None
    case OpReceive => if p.receiver == Live then Some(ReceiverReceive(p).state) else None
    case OpDropSender => if p.sender == Live then Some(p.(sender := Gone)) else None
    case OpDropReceiver => if p.receiver == Live then Some(p.(receiver := Gone)) else None
  }

  function Run<T>(p: Pair<T>, ops: seq<Op<T>>): Option<Pair<T>>
    requires Valid(p)
    decreases |ops|
  {
    if |ops| == 0 then Some(p)
    else
      match Step(p, ops[0])
      case None => None
      case Some(p') => Run(p', ops[1..])
  }

  // ---------------------------------------------------------------------
  // Properties

  /** Sending, then receiving through the other handle, yields exactly the
      sent value and consumes both handles. */
  lemma SendThenReceive<T>(m: T)
    ensures var p := SenderSend(NewChannel<T>(), m);
            && ReceiverIsMessageReady(p)
            && ReceiverReceive(p).Ok?
            && ReceiverReceive(p).value == m
            && ReceiverReceive(p).state.sender == Gone
            && ReceiverReceive(p).state.receiver == Gone
  {
  }

  /** The receiver's poll answers exactly whether its receive succeeds. */
  lemma PollPredictsReceive<T>(p: Pair<T>)
    requires p.receiver == Live && Valid(p)
    ensures ReceiverIsMessageReady(p) <==> ReceiverReceive(p).Ok?
  {
  }

  lemma {:induction false} StepKeepsBalanced<T>(p: Pair<T>, op: Op<T>)
    requires Balanced(p)
    ensures Step(p, op).Some? ==> Balanced(Step(p, op).value)
  {
    match op
    case OpSend(m) =>
    case OpPoll =>
    case OpReceive =>
    case OpDropSender =>
    case OpDropReceiver =>
  }

  lemma {:induction false} RunKeepsBalanced<T>(p: Pair<T>, ops: seq<Op<T>>)
    requires Balanced(p)
    ensures Run(p, ops).Some? ==> Balanced(Run(p, ops).value)
    decreases |ops|
  {
    if |ops| > 0 {
      StepKeepsBalanced(p, ops[0]);
      var next := Step(p, ops[0]);
      if next.Some? {
        RunKeepsBalanced(next.value, ops[1..]);
      }
    }
  }

  /** Whatever the program does with the two handles, at most one message is
      sent, and once both handles are gone and the record is dropped the
      message has been released exactly once (moved to the receiver or
      dropped by `Drop for Channel`), or never, if it was never sent. */
  lemma ReleasedExactlyOnce<T>(ops: seq<Op<T>>)
    ensures var r := Run(NewChannel<T>(), ops);
            r.Some? && r.value.sender == Gone && r.value.receiver == Gone ==>
              && r.value.chan.writes <= 1
              && r.value.chan.moves + ChannelDrop(r.value) == r.value.chan.writes
  {
    RunKeepsBalanced(NewChannel<T>(), ops);
  }

  /** A consumed handle cannot be used again: after a send, a second send is
      rejected, and after a receive, so are a poll and a second receive. */
  lemma HandlesAreSingleUse<T>(p: Pair<T>, a: T, b: T)
    requires Valid(p) && p.sender == Live && p.receiver == Live
    ensures Step(p, OpSend(a)).Some?
    ensures Step(Step(p, OpSend(a)).value, OpSend(b)).None?
    ensures Step(p, OpReceive).Some?
    ensures Step(Step(p, OpReceive).value, OpReceive).None?
    ensures Step(Step(p, OpReceive).value, OpPoll).None?
  {
  }
}
