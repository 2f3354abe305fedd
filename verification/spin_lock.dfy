/** `SpinLock<T>` with its `Guard`, and `UnsafeSpinLock<T>`, of src/ch4.rs,
    as an interleaving of atomic steps taken by threads `0 .. |pcs|`.

    A thread is `Idle`, `Spinning` inside `lock`, or `Holding` the lock. For
    `SpinLock` holding means owning the only `Guard`; for `UnsafeSpinLock` it
    means owning the `&mut T` that `lock` returned. Both locks step alike:
    `lock` is a `CallLock` followed by `TryAcquire` attempts until one wins,
    and the unlock is the guard's drop (or the unsafe `unlock` called by the
    holder). Each failed attempt, spurious or not, is a step that changes
    nothing.
 */
module SpinLocks {
  import opened Outcomes
  import SpinFlag

  datatype Pc = Idle | Spinning | Holding

  datatype Lock<V> = Lock(flag: SpinFlag.Flag, value: V, pcs: seq<Pc>)

  /** One atomic step of one thread. */
  datatype Event<V> =
    | CallLock(t: nat)                        // enters `lock`
    | TryAcquire(t: nat, spurious: bool)      // one compare-exchange of the spin loop
    | WriteThrough(t: nat, v: V)              // `deref_mut`, then an assignment
    | DropGuard(t: nat)                       // `Guard::drop`, i.e. `unlock`

  predicate Holds<V>(s: Lock<V>, t: nat) {
    t < |s.pcs| && s.pcs[t] == Holding
  }

  /** The guard invariant: the flag is locked exactly when some thread holds
      the lock, and no two threads hold it. */
  predicate Inv<V>(s: Lock<V>) {
    && (s.flag.isLocked <==> exists t :: 0 <= t < |s.pcs| && s.pcs[t] == Holding)
    && forall t, u ::
         0 <= t < |s.pcs| && 0 <= u < |s.pcs| && s.pcs[t] == Holding && s.pcs[u] == Holding ==> t == u
  }

  /** `SpinLock::new` (and `UnsafeSpinLock::new`) with `n` threads around it,
      none of which has called `lock` yet. */
  function Init<V>(n: nat, v: V): (s: Lock<V>)
    ensures !s.flag.isLocked && s.value == v && |s.pcs| == n
    ensures forall t :: 0 <= t < n ==> s.pcs[t] == Idle
    ensures Inv(s)
  {
    Lock(SpinFlag.New(), v, seq(n, _ => Idle))
  }

  /** One step; `None` when the thread cannot take it in its current state
      (it is not in `lock`, or it holds no guard to write through or drop).
      Only the holder changes the value; the flag becomes locked only by a
      winning attempt, which makes its thread the holder; a guard drop
      unlocks the flag and ends its thread's hold. */
  function Step<V>(s: Lock<V>, e: Event<V>): (r: Option<Lock<V>>)
    ensures r.Some? ==> |r.value.pcs| == |s.pcs|
    ensures r.Some? && r.value.value != s.value ==> e.WriteThrough? && Holds(s, e.t)
    ensures r.Some? && r.value.flag.isLocked && !s.flag.isLocked ==> e.TryAcquire? && Holds(r.value, e.t)
    ensures r.Some? && e.DropGuard? ==> !r.value.flag.isLocked && !Holds(r.value, e.t)
  {
    match e
    case CallLock(t) =>
      if t < |s.pcs| && s.pcs[t] == Idle then Some(s.(pcs := s.pcs[t := Spinning])) else None
    case TryAcquire(t, spurious) =>
      if t < |s.pcs| && s.pcs[t] == Spinning then
        var (ok, f) := SpinFlag.CompareExchangeWeak(s.flag, spurious);
        Some(if ok then s.(flag := f, pcs := s.pcs[t := Holding]) else s)
      else None
    case WriteThrough(t, v) =>
      if Holds(s, t) then Some(s.(value := v)) else None
    case DropGuard(t) =>
      if Holds(s, t) then Some(s.(flag := SpinFlag.Unlock(s.flag), pcs := s.pcs[t := Idle])) else None
  }

  function Run<V>(s: Lock<V>, es: seq<Event<V>>): Option<Lock<V>>
    decreases |es|
  {
    if |es| == 0 then Some(s)
    else
      match Step(s, es[0])
      case None => None
      case Some(s') => Run(s', es[1..])
  }

  /** `Guard::deref` / `deref_mut`: the protected value, reachable only
      through a held lock. Under the guard invariant the flag is locked and no
      other thread holds a guard, so the access is exclusive; and writing the
      value read back through the same guard changes nothing. */
  function Deref<V>(s: Lock<V>, t: nat): (r: V)
    requires Holds(s, t)
    ensures Inv(s) ==> s.flag.isLocked && forall u :: 0 <= u < |s.pcs| && s.pcs[u] == Holding ==> u == t
    ensures Step(s, WriteThrough(t, r)) == Some(s)
  {
    s.value
  }

  /** `UnsafeSpinLock::unlock` as written: a store of `false` by thread `t`,
      whoever holds the lock. When `t` is the holder its `&mut T` is gone by
      the safety rule; any other holder keeps its reference. */
  function UnsafeUnlock<V>(s: Lock<V>, t: nat): (r: Lock<V>)
    ensures !r.flag.isLocked && r.value == s.value && |r.pcs| == |s.pcs|
    ensures forall u :: 0 <= u < |s.pcs| && u != t ==> r.pcs[u] == s.pcs[u]
  {
    s.(flag := SpinFlag.Unlock(s.flag), pcs := if Holds(s, t) then s.pcs[t := Idle] else s.pcs)
  }

  // ---------------------------------------------------------------------
  // Single steps

  /** `lock` completes only through a compare-exchange that found the flag
      unlocked and did not fail spuriously, and it leaves the flag locked;
      every other attempt leaves the whole state unchanged. */
  lemma AcquireOnlyFromUnlocked<V>(s: Lock<V>, t: nat, spurious: bool)
    requires t < |s.pcs| && s.pcs[t] == Spinning
    ensures var r := Step(s, TryAcquire(t, spurious)).value;
            && (Holds(r, t) <==> !s.flag.isLocked && !spurious)
            && (Holds(r, t) ==> r.flag.isLocked)
            && (!Holds(r, t) ==> r == s)
  {
  }

  /** Dropping a guard unlocks the flag and ends the critical section, and
      the same guard cannot be dropped again or written through. */
  lemma DropGuardOnce<V>(s: Lock<V>, t: nat, v: V)
    requires Holds(s, t)
    ensures var r := Step(s, DropGuard(t));
            && r.Some? && !r.value.flag.isLocked && !Holds(r.value, t)
            && Step(r.value, DropGuard(t)).None?
            && Step(r.value, WriteThrough(t, v)).None?
  {
  }

  /** Only the thread holding the lock changes the protected value, and only
      by writing through its guard. */
  lemma OnlyHolderWrites<V>(s: Lock<V>, e: Event<V>)
    requires Step(s, e).Some? && Step(s, e).value.value != s.value
    ensures e.WriteThrough? && Holds(s, e.t)
  {
  }

  lemma {:induction false} StepKeepsInv<V>(s: Lock<V>, e: Event<V>)
    requires Inv(s)
    ensures Step(s, e).Some? ==> Inv(Step(s, e).value)
  {
    match e
    case CallLock(t) =>
      if Step(s, e).Some? {
        var r := Step(s, e).value;
        if s.flag.isLocked {
          var h :| 0 <= h < |s.pcs| && s.pcs[h] == Holding;
          assert r.pcs[h] == Holding;
        }
      }
    case TryAcquire(t, spurious) =>
      if Step(s, e).Some? {
        var r := Step(s, e).value;
        if Holds(r, t) {
          assert r.pcs[t] == Holding;
        }
      }
    case WriteThrough(t, v) =>
    case DropGuard(t) =>
  }

  lemma {:induction false} RunKeepsInv<V>(s: Lock<V>, es: seq<Event<V>>)
    requires Inv(s)
    ensures Run(s, es).Some? ==> Inv(Run(s, es).value)
    decreases |es|
  {
    if |es| > 0 {
      StepKeepsInv(s, es[0]);
      var next := Step(s, es[0]);
      if next.Some? {
        RunKeepsInv(next.value, es[1..]);
      }
    }
  }

  // ---------------------------------------------------------------------
  // Interleavings

  /** Mutual exclusion: in every interleaving of `lock` calls, attempts,
      writes and guard drops, at most one thread holds a guard, and a guard
      exists only while the flag is locked. */
  lemma MutualExclusion<V>(n: nat, v: V, es: seq<Event<V>>, t: nat, u: nat)
    requires Run(Init(n, v), es).Some?
    ensures var s := Run(Init(n, v), es).value;
            && (Holds(s, t) && Holds(s, u) ==> t == u)
            && (Holds(s, t) ==> s.flag.isLocked)
  {
    RunKeepsInv(Init(n, v), es);
  }

  /** While the lock is free, nothing can write the protected value or drop
      a guard: between one guard's drop and the next guard's creation only
      `lock` calls and attempts happen. */
  lemma UnlockedAllowsOnlyLocking<V>(s: Lock<V>, t: nat, v: V)
    requires Inv(s) && !s.flag.isLocked
    ensures Step(s, WriteThrough(t, v)).None?
    ensures Step(s, DropGuard(t)).None?
  {
  }

  predicate LockingOnly<V>(es: seq<Event<V>>) {
    forall i :: 0 <= i < |es| ==> es[i].CallLock? || es[i].TryAcquire?
  }

  lemma {:induction false} LockingKeepsValue<V>(s: Lock<V>, es: seq<Event<V>>)
    requires LockingOnly(es)
    requires Run(s, es).Some?
    ensures Run(s, es).value.value == s.value
    decreases |es|
  {
    if |es| > 0 {
      var next := Step(s, es[0]).value;
      assert LockingOnly(es[1..]) by {
        forall i | 0 <= i < |es[1..]| ensures es[1..][i].CallLock? || es[1..][i].TryAcquire? {
          assert es[1..][i] == es[i + 1];
        }
      }
      LockingKeepsValue(next, es[1..]);
    }
  }

  /** A write made through one guard is the value the next guard sees: after
      `t` drops its guard, whichever thread acquires the lock next, after any
      interleaving of `lock` calls and attempts, dereferences the value `t`
      left. */
  lemma HandOff<V>(s: Lock<V>, t: nat, es: seq<Event<V>>, u: nat)
    requires Inv(s) && Holds(s, t)
    requires LockingOnly(es)
    requires Run(Step(s, DropGuard(t)).value, es).Some?
    requires Holds(Run(Step(s, DropGuard(t)).value, es).value, u)
    ensures Deref(Run(Step(s, DropGuard(t)).value, es).value, u) == Deref(s, t)
  {
    LockingKeepsValue(Step(s, DropGuard(t)).value, es);
  }

  /** A guard that is never dropped keeps the lock forever: whatever the
      other threads do, its owner still holds it and no other thread's `lock`
      ever completes. */
  lemma {:induction false} NeverDropped<V>(s: Lock<V>, t: nat, es: seq<Event<V>>)
    requires Inv(s) && Holds(s, t)
    requires forall i :: 0 <= i < |es| ==> es[i] != DropGuard(t)
    requires Run(s, es).Some?
    ensures var r := Run(s, es).value;
            && Holds(r, t) && r.flag.isLocked
            && forall u :: 0 <= u < |r.pcs| && u != t ==> r.pcs[u] != Holding
    decreases |es|
  {
    if |es| == 0 {
    } else {
      StepKeepsInv(s, es[0]);
      var next := Step(s, es[0]).value;
      assert Holds(next, t);
      assert forall i :: 0 <= i < |es[1..]| ==> es[1..][i] == es[i + 1];
      NeverDropped(next, t, es[1..]);
    }
  }

  /** `UnsafeSpinLock::unlock` called by the holder, as its safety rule asks,
      is exactly a guard drop. */
  lemma UnsafeUnlockByHolder<V>(s: Lock<V>, t: nat)
    requires Holds(s, t)
    ensures Step(s, DropGuard(t)) == Some(UnsafeUnlock(s, t))
  {
  }

  /** Called by any other thread, it breaks mutual exclusion: a spinning
      thread then acquires the lock while the holder still has its `&mut T`.
      This is why `UnsafeSpinLock::unlock` is `unsafe`. */
  lemma UnsafeUnlockByOtherBreaksExclusion<V>(s: Lock<V>, h: nat, t: nat, u: nat)
    requires Inv(s) && Holds(s, h)
    requires t < |s.pcs| && t != h
    requires u < |s.pcs| && s.pcs[u] == Spinning
    ensures var r := Step(UnsafeUnlock(s, t), TryAcquire(u, false));
            && r.Some? && Holds(r.value, h) && Holds(r.value, u) && h != u
            && !Inv(r.value)
  {
    var r := Step(UnsafeUnlock(s, t), TryAcquire(u, false)).value;
    assert r.pcs[h] == Holding && r.pcs[u] == Holding;
  }
}
