/** The `safe_spin_lock` scenario of src/ch4.rs: `n` threads share one
    `SpinLock<Vec<usize>>`, and thread `t` runs `DATA.lock().push(t)`, that is
    lock, push its own id through the guard, drop the guard. The scheduler
    picks which thread takes its next atomic step, and whether a lock attempt
    fails spuriously. Whatever it picks, when every thread has finished the
    vector holds each id exactly once.
 */
module PushScenario {
  import opened Outcomes
  import opened SpinLocks

  /** The shared lock, and for each thread whether it has pushed yet. */
  datatype Scenario = Scenario(lock: Lock<seq<nat>>, pushed: seq<bool>)

  /** A scheduling decision: thread `t` takes its next step. */
  datatype Tick = Tick(t: nat, spurious: bool)

  /** `n` threads about to run their body: none has pushed or called
      `lock`, the vector is empty and the lock is free. */
  function Start(n: nat): (sc: Scenario)
    ensures |sc.pushed| == |sc.lock.pcs| == n && sc.lock.value == []
    ensures forall t :: 0 <= t < n ==> !sc.pushed[t] && sc.lock.pcs[t] == Idle
    ensures Inv(sc.lock) && !sc.lock.flag.isLocked
  {
    Scenario(Init(n, []), seq(n, _ => false))
  }

  /** Number of threads that have pushed. */
  function Count(bs: seq<bool>): nat
    decreases |bs|
  {
    if |bs| == 0 then 0 else (if bs[0] then 1 else 0) + Count(bs[1..])
  }

  /** The next step of thread `t`'s body; `None` once it has finished. */
  function Next(sc: Scenario, k: Tick): Option<Scenario> {
    var t := k.t;
    if t >= |sc.pushed| || t >= |sc.lock.pcs| then None
    else match sc.lock.pcs[t]
      case Idle =>
        if sc.pushed[t] then None
        else Lift(Step(sc.lock, CallLock(t)), sc.pushed)
      case Spinning =>
        Lift(Step(sc.lock, TryAcquire(t, k.spurious)), sc.pushed)
      case Holding =>
        if !sc.pushed[t] then
          Lift(Step(sc.lock, WriteThrough(t, Deref(sc.lock, t) + [t])), sc.pushed[t := true])
        else
          Lift(Step(sc.lock, DropGuard(t)), sc.pushed)
  }

  function Lift(l: Option<Lock<seq<nat>>>, pushed: seq<bool>): Option<Scenario> {
    match l
    case None => None
    case Some(l') => Some(Scenario(l', pushed))
  }

  function Run(sc: Scenario, ks: seq<Tick>): Option<Scenario>
    decreases |ks|
  {
    if |ks| == 0 then Some(sc)
    else
      match Next(sc, ks[0])
      case None => None
      case Some(sc') => Run(sc', ks[1..])
  }

  /** The vector holds the id of every thread that has pushed, once, and
      nothing else; the lock keeps its guard invariant. */
  ghost predicate Good(sc: Scenario) {
    && |sc.pushed| == |sc.lock.pcs|
    && Inv(sc.lock)
    && |sc.lock.value| == Count(sc.pushed)
    && forall x: nat ::
         multiset(sc.lock.value)[x] == (if x < |sc.pushed| && sc.pushed[x] then 1 else 0)
  }

  predicate Finished(sc: Scenario) {
    forall t :: 0 <= t < |sc.pushed| ==> sc.pushed[t] && t < |sc.lock.pcs| && sc.lock.pcs[t] == Idle
  }

  lemma {:induction false} CountSet(bs: seq<bool>, i: nat)
    requires i < |bs| && !bs[i]
    ensures Count(bs[i := true]) == Count(bs) + 1
    decreases |bs|
  {
    if i == 0 {
      assert bs[i := true][1..] == bs[1..];
    } else {
      assert bs[i := true][1..] == bs[1..][i - 1 := true];
      CountSet(bs[1..], i - 1);
    }
  }

  lemma {:induction false} CountAll(bs: seq<bool>)
    requires forall i :: 0 <= i < |bs| ==> bs[i]
    ensures Count(bs) == |bs|
    decreases |bs|
  {
    if |bs| > 0 {
      CountAll(bs[1..]);
    }
  }

  lemma CountNone(n: nat)
    ensures Count(seq(n, _ => false)) == 0
    decreases n
  {
    if n > 0 {
      assert seq(n, _ => false)[1..] == seq(n - 1, _ => false);
      CountNone(n - 1);
    }
  }

  lemma {:induction false} NextKeepsGood(sc: Scenario, k: Tick)
    requires Good(sc)
    ensures Next(sc, k).Some? ==> Good(Next(sc, k).value)
    ensures Next(sc, k).Some? ==> |Next(sc, k).value.pushed| == |sc.pushed|
  {
    var t := k.t;
    if Next(sc, k).Some? {
      var r := Next(sc, k).value;
      match sc.lock.pcs[t]
      case Idle =>
        StepKeepsInv(sc.lock, CallLock(t));
      case Spinning =>
        StepKeepsInv(sc.lock, TryAcquire(t, k.spurious));
      case Holding =>
        if !sc.pushed[t] {
          var v := sc.lock.value;
          StepKeepsInv(sc.lock, WriteThrough(t, v + [t]));
          CountSet(sc.pushed, t);
          assert r.lock.value == v + [t];
          var one: multiset<nat> := multiset{t};
          var before: multiset<nat> := multiset(v);
          assert multiset(v + [t]) == before + one;
          forall x: nat
            ensures multiset(r.lock.value)[x] == (if x < |r.pushed| && r.pushed[x] then 1 else 0)
          {
            assert multiset(r.lock.value)[x] == before[x] + one[x];
          }
        } else {
          StepKeepsInv(sc.lock, DropGuard(t));
        }
    }
  }

  lemma {:induction false} RunKeepsGood(sc: Scenario, ks: seq<Tick>)
    requires Good(sc)
    ensures Run(sc, ks).Some? ==> Good(Run(sc, ks).value)
    ensures Run(sc, ks).Some? ==> |Run(sc, ks).value.pushed| == |sc.pushed|
    decreases |ks|
  {
    if |ks| > 0 {
      NextKeepsGood(sc, ks[0]);
      if Next(sc, ks[0]).Some? {
        RunKeepsGood(Next(sc, ks[0]).value, ks[1..]);
      }
    }
  }

  /** Whatever the interleaving, once all `n` threads have run their
      lock-push-drop body the vector has length `n` and holds every id
      `0 .. n` exactly once: no push was lost or duplicated. */
  lemma AllPushesKept(n: nat, ks: seq<Tick>)
    requires Run(Start(n), ks).Some?
    requires Finished(Run(Start(n), ks).value)
    ensures var v := Run(Start(n), ks).value.lock.value;
            && |v| == n
            && forall x: nat :: multiset(v)[x] == (if x < n then 1 else 0)
  {
    var s0 := Start(n);
    CountNone(n);
    assert Good(s0);
    RunKeepsGood(s0, ks);
    var r := Run(s0, ks).value;
    CountAll(r.pushed);
    forall x: nat ensures multiset(r.lock.value)[x] == (if x < n then 1 else 0) {
      if x < n {
        assert r.pushed[x];
      }
    }
  }
}
