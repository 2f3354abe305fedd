/** `SpinLockFlag` of src/ch4.rs: one atomic boolean, locked or unlocked.

    Memory orderings are not modelled: every atomic operation is one
    sequentially consistent step. A weak compare-exchange may fail even when
    the flag holds the expected value; whether it does is a parameter.
 */
module SpinFlag {

  datatype Flag = Flag(isLocked: bool)

  /** `SpinLockFlag::new`. */
  function New(): (f: Flag)
    ensures !f.isLocked
  {
    Flag(false)
  }

  /** `compare_exchange_weak(false, true)`: succeeds exactly when the flag
      was unlocked and the attempt did not fail spuriously, and then leaves it
      locked. A failed attempt changes nothing. Returns whether it succeeded
      and the flag afterwards. */
  function CompareExchangeWeak(f: Flag, spurious: bool): (r: (bool, Flag))
    ensures r.0 <==> !f.isLocked && !spurious
    ensures r.0 ==> r.1.isLocked
    ensures !r.0 ==> r.1 == f
  {
    if !f.isLocked && !spurious then (true, Flag(true)) else (false, f)
  }

  /** `SpinLockFlag::unlock`: a store of `false`. It does not check who
      calls it. */
  function Unlock(f: Flag): (r: Flag)
    ensures !r.isLocked
  {
    Flag(false)
  }

  /** Unlock undoes a winning lock attempt, and after an unlock the next
      attempt that does not fail spuriously wins, whoever held the flag. */
  lemma LockUnlockRoundTrip(f: Flag)
    ensures !f.isLocked ==> Unlock(CompareExchangeWeak(f, false).1) == f
    ensures CompareExchangeWeak(Unlock(f), false).0
  {
  }

  /** One iteration of the spin loop in `SpinLockFlag::lock`: the flag as
      the other threads left it at that moment, and whether the weak
      compare-exchange fails spuriously. */
  datatype Attempt = Attempt(seen: Flag, spurious: bool)

  predicate Wins(a: Attempt) {
    CompareExchangeWeak(a.seen, a.spurious).0
  }

  /** `SpinLockFlag::lock` over a finite prefix of its attempts. The loop
      returns at the first attempt whose compare-exchange succeeds, which is
      one that found the flag unlocked, and it is then locked; every earlier
      attempt failed and changed nothing. If no attempt in the prefix wins,
      the call is still spinning (`acquired` is false). */
  method Lock(attempts: seq<Attempt>) returns (acquired: bool, k: nat)
    ensures acquired <==> exists i :: 0 <= i < |attempts| && Wins(attempts[i])
    ensures acquired ==> && k < |attempts| && Wins(attempts[k])
                         && !attempts[k].seen.isLocked
                         && CompareExchangeWeak(attempts[k].seen, attempts[k].spurious).1.isLocked
    ensures !acquired ==> k == |attempts|
    ensures forall i :: 0 <= i < k ==> !Wins(attempts[i])
  {
    k := 0;
    while k < |attempts|
      invariant k <= |attempts|
      invariant forall i :: 0 <= i < k ==> !Wins(attempts[i])
    {
      var (ok, _) := CompareExchangeWeak(attempts[k].seen, attempts[k].spurious);
      if ok {
        return true, k;
      }
      // a failed attempt only hints the processor (`spin_loop`) and retries
      k := k + 1;
    }
    return false, k;
  }
}
