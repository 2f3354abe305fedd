/** The unified one-shot channel `OneshotChannel<T>` of src/ch5.rs.

    Every atomic operation is one indivisible step on plain state, so the
    channel is a value and each method a pure transition. Besides the slot and
    the two flags of the source, the state keeps tallies that the program
    itself does not store but whose meaning is fixed by its code:
      - `writes`: how many times a payload was written into the slot;
      - `moves`:  how many times a payload was moved out of it to a caller;
      - `uncheckedSends`, `uncheckedReceives`: how many times the unchecked
        variants were called, which their "only call once" rules are about;
      - `polledReady`: whether some call of `is_message_ready` has returned
        true, which the safety rule of `receive_unchecked` is about.
    Together with the number of payload drops performed by the destructor
    (`Drop`), `writes` and `moves` say whether every written payload is
    released exactly once: `moves + Drop(c) == writes`.
 */
module Oneshot {
  import opened Outcomes
  import opened Slots

  datatype Channel<T> = Channel(
    slot: Slot<T>,
    inUse: bool,    // `is_message_in_use`
    ready: bool,    // `is_message_ready`
    writes: nat,
    moves: nat,
    uncheckedSends: nat,
    uncheckedReceives: nat,
    polledReady: bool
  )

  /** Facts every channel state satisfies, however its methods are called:
      the slot is initialised exactly once something was written, and the
      ready flag is only ever set, and so only ever seen set, after a write. */
  predicate Valid<T>(c: Channel<T>) {
    && (c.slot.Init? <==> c.writes > 0)
    && (c.ready ==> c.slot.Init?)
    && (c.polledReady ==> c.slot.Init?)
  }

  /** The state reached by the checked API: at most one payload was ever
      written, the in-use flag records exactly that, and the written payload
      is accounted for once, either moved to a caller or still owned by the
      slot (ready). */
  predicate Balanced<T>(c: Channel<T>) {
    && Valid(c)
    && c.writes <= 1
    && (c.inUse <==> c.writes == 1)
    && c.moves + (if c.ready then 1 else 0) == c.writes
  }

  /** `OneshotChannel::new`. */
  function New<T>(): (c: Channel<T>)
    ensures c.slot == Uninit && !c.inUse && !c.ready
    ensures c.writes == 0 && c.moves == 0
    ensures c.uncheckedSends == 0 && c.uncheckedReceives == 0 && !c.polledReady
    ensures Balanced(c)
  {
    Channel(Uninit, false, false, 0, 0, 0, 0, false)
  }

  /** `OneshotChannel::is_message_ready`: a read of the ready flag. It takes
      the channel and returns only a boolean, so it changes no state; its
      answer is exactly whether `receive` would succeed. */
  function IsMessageReady<T>(c: Channel<T>): (r: bool)
    ensures Valid(c) ==> (r <==> Receive(c).Ok?)
  {
    c.ready
  }

  /** `OneshotChannel::send`. The swap of the in-use flag comes first; when
      it was already set the call panics and nothing else is touched. */
  function Send<T>(c: Channel<T>, m: T): (r: Outcome<Channel<T>, ()>)
    ensures r.Panic? <==> c.inUse
    ensures r.Panic? ==> r.state == c && r.misuse == SecondSend
    ensures r.Ok? ==> && r.state.slot == Init(m) && r.state.ready && r.state.inUse
                      && r.state.writes == c.writes + 1 && r.state.moves == c.moves
                      && r.state.uncheckedSends == c.uncheckedSends
    ensures Valid(c) ==> Valid(r.state)
  {
    if c.inUse then
      Panic(c, SecondSend)
    else
      Ok(c.(slot := Write(c.slot, m), inUse := true, ready := true, writes := c.writes + 1), ())
  }

  /** `OneshotChannel::receive`. The swap of the ready flag to false comes
      first; when it was already false the call panics and nothing changes.
      Otherwise the payload is moved out of the slot. */
  function Receive<T>(c: Channel<T>): (r: Outcome<Channel<T>, T>)
    requires Valid(c)
    ensures r.Panic? <==> !c.ready
    ensures r.Panic? ==> r.state == c && r.misuse == NotReady
    ensures r.Ok? ==> && c.slot.Init? && r.value == c.slot.value
                      && !r.state.ready && r.state.inUse == c.inUse
                      && r.state.writes == c.writes && r.state.moves == c.moves + 1
                      && r.state.uncheckedSends == c.uncheckedSends
    ensures Valid(r.state)
  {
    if !c.ready then
      Panic(c, NotReady)
    else
      Ok(c.(ready := false, moves := c.moves + 1), AssumeInitRead(c.slot))
  }

  /** `OneshotChannel::send_unchecked`: writes and publishes, but does not
      touch the in-use flag, and does not drop a payload already in the slot.
      Its safety rule is "only call this method once". */
  function SendUnchecked<T>(c: Channel<T>, m: T): (r: Channel<T>)
    requires c.uncheckedSends == 0
    ensures r.slot == Init(m) && r.ready && r.writes == c.writes + 1
    ensures r.inUse == c.inUse && r.moves == c.moves && r.uncheckedSends == 1
  {
    c.(slot := Write(c.slot, m), ready := true, writes := c.writes + 1,
       uncheckedSends := c.uncheckedSends + 1)
  }

  /** `OneshotChannel::receive_unchecked`: moves the payload out, trusting
      the caller that `is_message_ready` has returned true and that this is
      the only call. Nothing checks that the payload is still in the slot, and
      the ready flag is not cleared. */
  function ReceiveUnchecked<T>(c: Channel<T>): (r: (Channel<T>, T))
    requires Valid(c) && c.polledReady && c.uncheckedReceives == 0
    ensures c.slot.Init? && r.1 == c.slot.value
    ensures r.0.ready == c.ready && r.0.moves == c.moves + 1 && r.0.writes == c.writes
    ensures r.0.inUse == c.inUse && r.0.uncheckedReceives == 1
  {
    (c.(moves := c.moves + 1, uncheckedReceives := c.uncheckedReceives + 1), AssumeInitRead(c.slot))
  }

  /** Corrected `send_unchecked`: also records that the slot is in use, so a
      later checked `send` panics instead of overwriting the payload. Its
      safety rule is strengthened to "only on a channel nothing was sent on":
      marking alone cannot stop it from overwriting an earlier `send`. */
  function SendUncheckedMarking<T>(c: Channel<T>, m: T): (r: Channel<T>)
    requires c.writes == 0
    ensures r.slot == Init(m) && r.ready && r.inUse && r.writes == 1 && r.moves == c.moves
  {
    c.(slot := Write(c.slot, m), inUse := true, ready := true, writes := c.writes + 1,
       uncheckedSends := c.uncheckedSends + 1)
  }

  /** Corrected `receive_unchecked`: clears the ready flag after the move, so
      the destructor no longer drops the moved payload. Its safety rule is
      strengthened to "the message is ready now": a poll that returned true
      does not stop a checked `receive` from moving the payload out first. */
  function ReceiveUncheckedClearing<T>(c: Channel<T>): (r: (Channel<T>, T))
    requires Valid(c) && c.ready && c.uncheckedReceives == 0
    ensures c.slot.Init? && r.1 == c.slot.value
    ensures !r.0.ready && r.0.moves == c.moves + 1 && r.0.writes == c.writes
  {
    (c.(ready := false, moves := c.moves + 1, uncheckedReceives := c.uncheckedReceives + 1),
     AssumeInitRead(c.slot))
  }

  /** `Drop for OneshotChannel`: the number of payload drops the destructor
      performs. It only ever drops an initialised slot, and on a balanced
      channel it drops exactly when the payload was sent and not received. */
  function Drop<T>(c: Channel<T>): (r: nat)
    ensures r <= 1
    ensures Valid(c) && r == 1 ==> c.slot.Init?
    ensures Balanced(c) ==> (r == 1 <==> c.writes == 1 && c.moves == 0)
  {
    if c.ready then 1 else 0
  }

  // ---------------------------------------------------------------------
  // Runs of calls

  /** One call on the channel. The `Unchecked` calls are only made when their
      safety rules hold; `OpPoll` is `is_message_ready`. */
  datatype Op<T> =
    | OpSend(msg: T)
    | OpReceive
    | OpSendUnchecked(msg: T)
    | OpReceiveUnchecked
    | OpPoll

  predicate Checked<T>(op: Op<T>) {
    op.OpSend? || op.OpReceive? || op.OpPoll?
  }

  /** Applies one call. A panicking checked call leaves the state its
      `Outcome` carries; an unchecked call whose safety rule fails is undefined
      behaviour and yields `None`. As written, the rules are the documented
      ones: each unchecked call is made at most once, and `receive_unchecked`
      only after `is_message_ready` returned true. With `corrected`, the
      unchecked calls are `SendUncheckedMarking` and `ReceiveUncheckedClearing`,
      `send_unchecked` is only made on a channel nothing was sent on, and
      `receive_unchecked` only while the message is still ready. A poll
      records whether it returned true. */
  function Step<T>(c: Channel<T>, op: Op<T>, corrected: bool): (r: Option<Channel<T>>)
    requires Valid(c)
    ensures r.Some? ==> Valid(r.value)
  {
    match op
    case OpSend(m) => Some(Send(c, m).state)
    case OpReceive => Some(Receive(c).state)
    case OpSendUnchecked(m) =>
      if corrected then
        if c.writes == 0 then Some(SendUncheckedMarking(c, m)) else None
      else
        if c.uncheckedSends == 0 then Some(SendUnchecked(c, m)) else None
    case OpReceiveUnchecked =>
      if !(c.polledReady && c.uncheckedReceives == 0) then None
      else if corrected then
        if c.ready then Some(ReceiveUncheckedClearing(c).0) else None
      else Some(ReceiveUnchecked(c).0)
    case OpPoll => Some(c.(polledReady := c.polledReady || IsMessageReady(c)))
  }

  /** Applies a sequence of calls, stopping at undefined behaviour. */
  function Run<T>(c: Channel<T>, ops: seq<Op<T>>, corrected: bool): Option<Channel<T>>
    requires Valid(c)
    decreases |ops|
  {
    if |ops| == 0 then Some(c)
    else
      match Step(c, ops[0], corrected)
      case None => None
      case Some(c') => Run(c', ops[1..], corrected)
  }

  // ---------------------------------------------------------------------
  // Properties of single calls

  /** A fresh channel: a send stores the message and a following receive
      returns exactly that message, for any payload type. */
  lemma SendThenReceive<T>(m: T)
    ensures var s := Send(New<T>(), m);
            && s.Ok?
            && Receive(s.state) == Ok(s.state.(ready := false, moves := 1), m)
  {
  }

  /** The round trip holds from every channel no send was made on yet. */
  lemma SendThenReceiveFrom<T>(c: Channel<T>, m: T)
    requires Balanced(c) && c.writes == 0
    ensures Send(c, m).Ok?
    ensures Receive(Send(c, m).state).Ok?
    ensures Receive(Send(c, m).state).value == m
  {
  }

  /** `is_message_ready` answers exactly whether `receive` would succeed. */
  lemma PollPredictsReceive<T>(c: Channel<T>)
    requires Valid(c)
    ensures IsMessageReady(c) <==> Receive(c).Ok?
  {
  }

  /** The in-use flag is never cleared: after one send/receive cycle a
      second send still panics, and leaves the channel as it was. */
  lemma NoSendAfterCycle<T>(a: T, b: T)
    ensures var s1 := Send(New<T>(), a).state;
            var s2 := Receive(s1).state;
            Send(s2, b) == Panic(s2, SecondSend)
  {
  }

  /** A second send panics and leaves the stored message and ready flag as
      they were. */
  lemma SecondSendKeepsMessage<T>(c: Channel<T>, a: T, b: T)
    requires Valid(c) && !c.inUse
    ensures var s1 := Send(c, a).state;
            && Send(s1, b).Panic?
            && Send(s1, b).state.slot == Init(a)
            && Send(s1, b).state.ready
  {
  }

  /** Receive before any send panics, and a second receive after a
      successful one panics because the first cleared the ready flag. */
  lemma ReceiveMisuse<T>(c: Channel<T>)
    requires Valid(c)
    ensures Receive(New<T>()) == Panic(New<T>(), NotReady)
    ensures Receive(c).Ok? ==> Receive(Receive(c).state).misuse == NotReady
  {
  }

  /** The destructor on a balanced channel drops the payload exactly when it
      was sent and never received, and nothing otherwise. */
  lemma DropReleasesUnreceived<T>(c: Channel<T>)
    requires Balanced(c)
    ensures Drop(c) == 1 <==> c.writes == 1 && c.moves == 0
    ensures Drop(c) == 0 <==> c.writes == 0 || c.moves == 1
  {
  }

  // ---------------------------------------------------------------------
  // Properties of runs

  /** Every call permitted under the given semantics keeps the channel
      balanced: as written that holds of the checked calls, corrected of all. */
  lemma {:induction false} StepKeepsBalanced<T>(c: Channel<T>, op: Op<T>, corrected: bool)
    requires Balanced(c)
    requires corrected || Checked(op)
    ensures Step(c, op, corrected).Some? ==> Balanced(Step(c, op, corrected).value)
  {
    match op
    case OpSend(m) =>
    case OpReceive =>
    case OpSendUnchecked(m) =>
    case OpReceiveUnchecked =>
    case OpPoll =>
  }

  lemma {:induction false} RunKeepsBalanced<T>(c: Channel<T>, ops: seq<Op<T>>, corrected: bool)
    requires Balanced(c)
    requires corrected || forall i :: 0 <= i < |ops| ==> Checked(ops[i])
    ensures Run(c, ops, corrected).Some? ==> Balanced(Run(c, ops, corrected).value)
    decreases |ops|
  {
    if |ops| > 0 {
      StepKeepsBalanced(c, ops[0], corrected);
      var next := Step(c, ops[0], corrected);
      if next.Some? {
        assert corrected || forall i :: 0 <= i < |ops[1..]| ==> Checked(ops[1..][i]) by {
          if !corrected {
            forall i | 0 <= i < |ops[1..]| ensures Checked(ops[1..][i]) {
              assert ops[1..][i] == ops[i + 1];
            }
          }
        }
        RunKeepsBalanced(next.value, ops[1..], corrected);
      }
    }
  }

  /** Any sequence of checked calls on a fresh channel sends at most one
      message, and by the time the channel is dropped that message has been
      released exactly once: moved out to a receiver or dropped by the
      destructor, never both, never neither. */
  lemma CheckedReleasesExactlyOnce<T>(ops: seq<Op<T>>)
    requires forall i :: 0 <= i < |ops| ==> Checked(ops[i])
    ensures Run(New<T>(), ops, false).Some?
    ensures var c := Run(New<T>(), ops, false).value;
            c.writes <= 1 && c.moves + Drop(c) == c.writes
  {
    RunCheckedDefined(New<T>(), ops);
    RunKeepsBalanced(New<T>(), ops, false);
  }

  /** Checked calls never hit undefined behaviour. */
  lemma {:induction false} RunCheckedDefined<T>(c: Channel<T>, ops: seq<Op<T>>)
    requires Valid(c)
    requires forall i :: 0 <= i < |ops| ==> Checked(ops[i])
    ensures Run(c, ops, false).Some?
    decreases |ops|
  {
    if |ops| > 0 {
      var next := Step(c, ops[0], false);
      assert forall i :: 0 <= i < |ops[1..]| ==> ops[1..][i] == ops[i + 1];
      RunCheckedDefined(next.value, ops[1..]);
    }
  }

  /** With the corrected unchecked calls, every sequence of calls that keeps
      their safety rules releases each payload exactly once. The rules are
      the strengthened ones: no send of either kind came before
      `send_unchecked`, and the message is still ready at `receive_unchecked`. */
  lemma CorrectedReleasesExactlyOnce<T>(ops: seq<Op<T>>)
    ensures Run(New<T>(), ops, true).Some? ==>
              var c := Run(New<T>(), ops, true).value;
              c.writes <= 1 && c.moves + Drop(c) == c.writes
  {
    RunKeepsBalanced(New<T>(), ops, true);
  }

  /** As written, `receive_unchecked` followed by the destructor releases the
      one sent payload twice: once moved to the caller, once dropped. Every
      call keeps the documented safety rules. */
  lemma UncheckedReceiveThenDropReleasesTwice<T>(m: T)
    ensures var c := Run(New<T>(), [OpSend(m), OpPoll, OpReceiveUnchecked], false);
            && c.Some?
            && c.value.writes == 1
            && c.value.moves + Drop(c.value) == 2
  {
    var ops := [OpSend(m), OpPoll, OpReceiveUnchecked];
    var c0 := New<T>();
    var c1 := Send(c0, m).state;
    var c2 := c1.(polledReady := true);
    var c3 := ReceiveUnchecked(c2).0;
    assert Step(c0, OpSend(m), false) == Some(c1);
    assert Step(c1, OpPoll, false) == Some(c2);
    assert Step(c2, OpReceiveUnchecked, false) == Some(c3);
    var tail1: seq<Op<T>> := [OpPoll, OpReceiveUnchecked];
    var tail2: seq<Op<T>> := [OpReceiveUnchecked];
    assert ops[1..] == tail1 && tail1[1..] == tail2 && tail2[1..] == [];
    assert Run(c0, ops, false) == Run(c1, tail1, false) == Run(c2, tail2, false) == Run(c3, [], false);
  }

  /** As written, a poll that returned true, then a checked `receive`, then
      `receive_unchecked` keeps the documented rules, yet the unchecked call
      reads the slot that `receive` already moved out of: the one payload is
      moved out twice. The strengthened rule of the corrected call rejects
      this run. */
  lemma ReceiveThenUncheckedReceiveMovesTwice<T>(m: T)
    ensures var c := Run(New<T>(), [OpSend(m), OpPoll, OpReceive, OpReceiveUnchecked], false);
            && c.Some?
            && c.value.writes == 1
            && c.value.moves == 2
    ensures Run(New<T>(), [OpSend(m), OpPoll, OpReceive, OpReceiveUnchecked], true).None?
  {
    var ops := [OpSend(m), OpPoll, OpReceive, OpReceiveUnchecked];
    var c0 := New<T>();
    var c1 := Send(c0, m).state;
    var c2 := c1.(polledReady := true);
    var c3 := Receive(c2).state;
    var c4 := ReceiveUnchecked(c3).0;
    assert Step(c0, OpSend(m), false) == Some(c1) == Step(c0, OpSend(m), true);
    assert Step(c1, OpPoll, false) == Some(c2) == Step(c1, OpPoll, true);
    assert Step(c2, OpReceive, false) == Some(c3) == Step(c2, OpReceive, true);
    assert Step(c3, OpReceiveUnchecked, false) == Some(c4);
    assert Step(c3, OpReceiveUnchecked, true) == None;
    var tail1: seq<Op<T>> := [OpPoll, OpReceive, OpReceiveUnchecked];
    var tail2: seq<Op<T>> := [OpReceive, OpReceiveUnchecked];
    var tail3: seq<Op<T>> := [OpReceiveUnchecked];
    assert ops[1..] == tail1 && tail1[1..] == tail2 && tail2[1..] == tail3 && tail3[1..] == [];
    assert Run(c0, ops, false) == Run(c1, tail1, false) == Run(c2, tail2, false)
        == Run(c3, tail3, false) == Run(c4, [], false);
    assert Run(c0, ops, true) == Run(c1, tail1, true) == Run(c2, tail2, true)
        == Run(c3, tail3, true);
  }

  /** As written, `send_unchecked` followed by a checked `send` is accepted
      and overwrites the slot: two payloads were written, one is ever
      released, the first is leaked. */
  lemma UncheckedSendThenSendLeaks<T>(a: T, b: T)
    ensures var c := Run(New<T>(), [OpSendUnchecked(a), OpSend(b)], false);
            && c.Some?
            && c.value.slot == Init(b)
            && c.value.writes == 2
            && c.value.moves + Drop(c.value) == 1
  {
    var c0 := New<T>();
    var c1 := SendUnchecked(c0, a);
    assert Step(c0, OpSendUnchecked(a), false) == Some(c1);
    assert Step(c1, OpSend(b), false) == Some(Send(c1, b).state);
    var c2 := Send(c1, b).state;
    var tail: seq<Op<T>> := [OpSend(b)];
    assert [OpSendUnchecked(a), OpSend(b)][1..] == tail;
    assert Run(c1, tail, false) == Run(c2, tail[1..], false);
    assert tail[1..] == [];
    assert c2.slot == Init(b) && c2.writes == 2 && c2.ready && c2.moves == 0;
  }

  /** As written, a checked `send` followed by `send_unchecked` keeps the
      documented rule (the unchecked call is made once) yet overwrites the
      slot: two payloads were written, one is ever released. The in-use flag
      does not guard `send_unchecked`, so marking it cannot prevent this;
      hence the corrected rule asks for a channel nothing was sent on. */
  lemma SendThenUncheckedSendLeaks<T>(a: T, b: T)
    ensures var c := Run(New<T>(), [OpSend(a), OpSendUnchecked(b)], false);
            && c.Some?
            && c.value.slot == Init(b)
            && c.value.writes == 2
            && c.value.moves + Drop(c.value) == 1
    ensures Run(New<T>(), [OpSend(a), OpSendUnchecked(b)], true).None?
  {
    var c0 := New<T>();
    var c1 := Send(c0, a).state;
    assert Step(c0, OpSend(a), false) == Some(c1);
    assert Step(c0, OpSend(a), true) == Some(c1);
    var c2 := SendUnchecked(c1, b);
    assert Step(c1, OpSendUnchecked(b), false) == Some(c2);
    assert Step(c1, OpSendUnchecked(b), true) == None;
    var tail: seq<Op<T>> := [OpSendUnchecked(b)];
    assert [OpSend(a), OpSendUnchecked(b)][1..] == tail;
    assert Run(c1, tail, false) == Run(c2, tail[1..], false);
    assert tail[1..] == [];
  }

  /** As written, `receive_unchecked` leaves the ready flag set, so a later
      checked `receive` succeeds too and moves the same payload out a second
      time. The corrected call clears the flag and the `receive` panics. */
  lemma UncheckedReceiveThenReceiveMovesTwice<T>(m: T)
    ensures var c := Run(New<T>(), [OpSend(m), OpPoll, OpReceiveUnchecked, OpReceive], false);
            && c.Some?
            && c.value.writes == 1
            && c.value.moves == 2
    ensures var c := Run(New<T>(), [OpSend(m), OpPoll, OpReceiveUnchecked, OpReceive], true);
            && c.Some?
            && c.value.writes == 1
            && c.value.moves + Drop(c.value) == 1
  {
    var ops := [OpSend(m), OpPoll, OpReceiveUnchecked, OpReceive];
    var c0 := New<T>();
    var c1 := Send(c0, m).state;
    var c2 := c1.(polledReady := true);
    assert Step(c0, OpSend(m), false) == Some(c1) == Step(c0, OpSend(m), true);
    assert Step(c1, OpPoll, false) == Some(c2) == Step(c1, OpPoll, true);
    var d3 := ReceiveUnchecked(c2).0;
    var e3 := ReceiveUncheckedClearing(c2).0;
    assert Step(c2, OpReceiveUnchecked, false) == Some(d3);
    assert Step(c2, OpReceiveUnchecked, true) == Some(e3);
    var d4 := Receive(d3).state;
    var e4 := Receive(e3).state;
    assert Step(d3, OpReceive, false) == Some(d4);
    assert Step(e3, OpReceive, true) == Some(e4);
    var tail1: seq<Op<T>> := [OpPoll, OpReceiveUnchecked, OpReceive];
    var tail2: seq<Op<T>> := [OpReceiveUnchecked, OpReceive];
    var tail3: seq<Op<T>> := [OpReceive];
    assert ops[1..] == tail1 && tail1[1..] == tail2 && tail2[1..] == tail3 && tail3[1..] == [];
    assert Run(c0, ops, false) == Run(c1, tail1, false) == Run(c2, tail2, false)
        == Run(d3, tail3, false) == Run(d4, [], false);
    assert Run(c0, ops, true) == Run(c1, tail1, true) == Run(c2, tail2, true)
        == Run(e3, tail3, true) == Run(e4, [], true);
  }
}
