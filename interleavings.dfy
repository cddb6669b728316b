/**
 * Threads interleaving the monitor-held steps of `ConnectionLock`, with the
 * semantics of `threading.Condition`: `wait()` puts the caller in the
 * condition's waiting set and gives up the monitor; `notify()` moves one thread
 * of that set to "notified"; a notified thread resumes its loop once it has the
 * monitor again. Which waiter a notify picks is left open (Python picks the
 * oldest), so what is proved here holds for every choice.
 */
module Interleavings {
  import opened Wrappers
  import opened LockSteps

  /** The two conditions built on the monitor. */
  datatype Cond = WorkersCond | HeartbeatCond

  /** Where a thread stands with respect to the lock. */
  datatype Phase =
    | Idle                 // outside every lock method, not the holder
    | Owning               // returned from an acquisition
    | Waiting(cond: Cond)  // inside `cond.wait()`, not yet notified
    | Notified(cond: Cond) // notified, about to resume its wait loop

  /** The lock's fields and every thread's phase (threads not in the map are `Idle`). */
  datatype Sys = Sys(lock: Fields, threads: map<ThreadId, Phase>)

  /** One atomic step, taken by thread `t`. */
  datatype Event =
    | CallAcquire(t: ThreadId)
    | WokenAcquire(t: ThreadId)
    | CallHeartbeatAcquire(t: ThreadId)
    | WokenHeartbeatAcquire(t: ThreadId)
    | CallRelease(t: ThreadId, wake: ThreadId)  // `wake`: the waiter its notify picks

  /** A fresh lock and no thread inside it. */
  const Start: Sys := Sys(Initial, map[])

  function PhaseOf(s: Sys, t: ThreadId): Phase {
    if t in s.threads then s.threads[t] else Idle
  }

  /** A phase between beginning a wait on `c` and resuming from it. */
  predicate InWait(p: Phase, c: Cond) {
    p == Waiting(c) || p == Notified(c)
  }

  /** The threads inside an acquisition's wait on `c`, notified or not. */
  function Pending(m: map<ThreadId, Phase>, c: Cond): set<ThreadId> {
    set t | t in m && InWait(m[t], c)
  }

  /** The waiting set of condition `c`: what `notify()` chooses from. */
  function Blocked(m: map<ThreadId, Phase>, c: Cond): set<ThreadId> {
    set t | t in m && m[t] == Waiting(c)
  }

  /** The condition a notify choice names. */
  function Target(n: Notify): Option<Cond> {
    match n
    case NotifyHeartbeat => Some(HeartbeatCond)
    case NotifyWorkers => Some(WorkersCond)
    case NotifyNone => None
  }

  /** `notify()` on the condition `n` names: moves `w` to notified when it is in that
      condition's waiting set; nothing happens otherwise. */
  function Wake(m: map<ThreadId, Phase>, n: Notify, w: ThreadId): map<ThreadId, Phase> {
    match Target(n)
    case None => m
    case Some(c) => if w in m && m[w] == Waiting(c) then m[w := Notified(c)] else m
  }

  /** The thread after an acquisition step: owning, or blocked on `c`. */
  function AfterAttempt(s: Sys, t: ThreadId, a: Attempt, c: Cond): Sys {
    Sys(a.fields, s.threads[t := if a.acquired then Owning else Waiting(c)])
  }

  /** Whether thread `e.t` can take step `e` now. A release's `wake` must be a waiter
      of the notified condition whenever that condition has one. */
  predicate Enabled(s: Sys, e: Event) {
    match e
    case CallAcquire(t) => PhaseOf(s, t) == Idle
    case WokenAcquire(t) => PhaseOf(s, t) == Notified(WorkersCond)
    case CallHeartbeatAcquire(t) => PhaseOf(s, t) == Idle
    case WokenHeartbeatAcquire(t) => PhaseOf(s, t) == Notified(HeartbeatCond)
    case CallRelease(t, w) =>
      && (PhaseOf(s, t) == Idle || PhaseOf(s, t) == Owning)
      && var r := Release(s.lock, t);
         (r.outcome.Ok? && Target(r.outcome.value).Some? &&
          Blocked(s.threads, Target(r.outcome.value).value) != {}) ==>
           w in Blocked(s.threads, Target(r.outcome.value).value)
  }

  /** The effect of step `e`. A release that raises changes nothing. */
  function Step(s: Sys, e: Event): Sys
    requires Enabled(s, e)
  {
    match e
    case CallAcquire(t) => AfterAttempt(s, t, Acquire(s.lock, t), WorkersCond)
    case WokenAcquire(t) => AfterAttempt(s, t, AcquireWoken(s.lock, t), WorkersCond)
    case CallHeartbeatAcquire(t) => AfterAttempt(s, t, HeartbeatAcquire(s.lock, t), HeartbeatCond)
    case WokenHeartbeatAcquire(t) => AfterAttempt(s, t, HeartbeatAcquireWoken(s.lock, t), HeartbeatCond)
    case CallRelease(t, w) =>
      var r := Release(s.lock, t);
      if r.outcome.Err? then s
      else Sys(r.fields, Wake(s.threads[t := Idle], r.outcome.value, w))
  }

  /** The state after the steps `es`, or `None` if one of them cannot be taken. */
  function Run(s: Sys, es: seq<Event>): Option<Sys>
    decreases |es|
  {
    if es == [] then Some(s)
    else if Enabled(s, es[0]) then Run(Step(s, es[0]), es[1..])
    else None
  }

  // ----- Invariants -----

  /** `_workers_waiting` is the number of workers inside the wait of `acquire`. */
  ghost predicate CountInv(s: Sys) {
    s.lock.workersWaiting == |Pending(s.threads, WorkersCond)|
  }

  /** With `hb` the only caller of `heartbeat_acquire`: the flag is up exactly while
      `hb` is inside its wait. */
  ghost predicate FlagInv(s: Sys, hb: ThreadId) {
    && Pending(s.threads, HeartbeatCond) <= {hb}
    && (s.lock.heartbeatWaiting <==> hb in Pending(s.threads, HeartbeatCond))
  }

  /** `_lock_acquired` names exactly the owning thread, and that identity is truthy. */
  ghost predicate Exclusive(s: Sys) {
    && (s.lock.lockAcquired.Some? ==> Truthy(s.lock.lockAcquired.value))
    && forall t :: PhaseOf(s, t) == Owning <==> s.lock.lockAcquired == Some(t)
  }

  /** Only `hb` takes the heartbeat path: `heartbeat_acquire` "must be called only one time". */
  predicate HeartbeatBy(e: Event, hb: ThreadId) {
    (e.CallHeartbeatAcquire? || e.WokenHeartbeatAcquire?) ==> e.t == hb
  }

  // ----- Helpers on the phase map -----

  lemma PendingUpdate(m: map<ThreadId, Phase>, t: ThreadId, p: Phase, c: Cond)
    ensures Pending(m[t := p], c) == if InWait(p, c) then Pending(m, c) + {t} else Pending(m, c) - {t}
  {
  }

  lemma BlockedUpdate(m: map<ThreadId, Phase>, t: ThreadId, p: Phase, c: Cond)
    ensures Blocked(m[t := p], c) == if p == Waiting(c) then Blocked(m, c) + {t} else Blocked(m, c) - {t}
  {
  }

  /** A notify never moves a thread into or out of an acquisition's wait. */
  lemma PendingWake(m: map<ThreadId, Phase>, n: Notify, w: ThreadId, c: Cond)
    ensures Pending(Wake(m, n, w), c) == Pending(m, c)
  {
  }

  lemma CardAdd(a: set<ThreadId>, t: ThreadId)
    requires t !in a
    ensures |a + {t}| == |a| + 1
  {
  }

  lemma CardRemove(a: set<ThreadId>, t: ThreadId)
    requires t in a
    ensures |a - {t}| == |a| - 1
  {
    assert a == (a - {t}) + {t};
  }

  // ----- One step keeps each invariant -----

  /** Moving one thread to phase `p` changes the number of threads waiting on `c` by
      at most one, in the direction the move goes. */
  lemma PendingCount(m: map<ThreadId, Phase>, t: ThreadId, p: Phase, c: Cond)
    ensures |Pending(m[t := p], c)| ==
            |Pending(m, c)| - (if t in Pending(m, c) then 1 else 0) + (if InWait(p, c) then 1 else 0)
  {
    var P := Pending(m, c);
    PendingUpdate(m, t, p, c);
    if InWait(p, c) {
      if t in P { assert P + {t} == P; } else { CardAdd(P, t); }
    } else {
      if t in P { CardRemove(P, t); } else { assert P - {t} == P; }
    }
  }

  /** Every step keeps `_workers_waiting` equal to the number of waiting workers. */
  lemma {:induction false} StepKeepsCount(s: Sys, e: Event)
    requires CountInv(s) && Enabled(s, e)
    ensures CountInv(Step(s, e))
  {
    var m := s.threads;
    match e
    case CallAcquire(t) =>
      var a := Acquire(s.lock, t);
      PendingCount(m, t, if a.acquired then Owning else Waiting(WorkersCond), WorkersCond);
    case WokenAcquire(t) =>
      var a := AcquireWoken(s.lock, t);
      PendingCount(m, t, if a.acquired then Owning else Waiting(WorkersCond), WorkersCond);
    case CallHeartbeatAcquire(t) =>
      var a := HeartbeatAcquire(s.lock, t);
      PendingCount(m, t, if a.acquired then Owning else Waiting(HeartbeatCond), WorkersCond);
    case WokenHeartbeatAcquire(t) =>
      var a := HeartbeatAcquireWoken(s.lock, t);
      PendingCount(m, t, if a.acquired then Owning else Waiting(HeartbeatCond), WorkersCond);
    case CallRelease(t, w) =>
      var r := Release(s.lock, t);
      if r.outcome.Ok? {
        PendingCount(m, t, Idle, WorkersCond);
        PendingWake(m[t := Idle], r.outcome.value, w, WorkersCond);
      }
  }

  /** Steps that keep to one heartbeat thread keep the flag in step with its wait. */
  lemma StepKeepsFlag(s: Sys, e: Event, hb: ThreadId)
    requires FlagInv(s, hb) && Enabled(s, e) && HeartbeatBy(e, hb)
    ensures FlagInv(Step(s, e), hb)
  {
  }

  /** Steps by truthy threads keep exactly one owner recorded, and it is the thread
      that believes it owns the lock. */
  lemma StepKeepsExclusive(s: Sys, e: Event)
    requires Exclusive(s) && Enabled(s, e) && Truthy(e.t)
    ensures Exclusive(Step(s, e))
  {
  }

  // ----- Over any run -----

  lemma {:induction false} RunKeepsCount(s: Sys, es: seq<Event>, s': Sys)
    requires CountInv(s) && Run(s, es) == Some(s')
    ensures CountInv(s')
    decreases |es|
  {
    if es != [] {
      StepKeepsCount(s, es[0]);
      RunKeepsCount(Step(s, es[0]), es[1..], s');
    }
  }

  lemma {:induction false} RunKeepsFlag(s: Sys, es: seq<Event>, s': Sys, hb: ThreadId)
    requires FlagInv(s, hb) && Run(s, es) == Some(s')
    requires forall i :: 0 <= i < |es| ==> HeartbeatBy(es[i], hb)
    ensures FlagInv(s', hb)
    decreases |es|
  {
    if es != [] {
      StepKeepsFlag(s, es[0], hb);
      RunKeepsFlag(Step(s, es[0]), es[1..], s', hb);
    }
  }

  lemma {:induction false} RunKeepsExclusive(s: Sys, es: seq<Event>, s': Sys)
    requires Exclusive(s) && Run(s, es) == Some(s')
    requires forall i :: 0 <= i < |es| ==> Truthy(es[i].t)
    ensures Exclusive(s')
    decreases |es|
  {
    if es != [] {
      StepKeepsExclusive(s, es[0]);
      RunKeepsExclusive(Step(s, es[0]), es[1..], s');
    }
  }

  // ----- The properties of the lock -----

  /** In every reachable state `_workers_waiting` counts the workers inside the wait of
      `acquire` (blocked or notified), so it is never negative. */
  lemma WorkersWaitingCounted(es: seq<Event>, s: Sys)
    requires Run(Start, es) == Some(s)
    ensures s.lock.workersWaiting == |Pending(s.threads, WorkersCond)|
    ensures s.lock.workersWaiting >= 0
  {
    assert Pending(Start.threads, WorkersCond) == {};
    RunKeepsCount(Start, es, s);
  }

  /** Mutual exclusion: when every thread identity is truthy, at most one thread has
      returned from an acquisition without releasing, and `_lock_acquired` names it. */
  lemma MutualExclusion(es: seq<Event>, s: Sys)
    requires Run(Start, es) == Some(s)
    requires forall i :: 0 <= i < |es| ==> Truthy(es[i].t)
    ensures forall t :: PhaseOf(s, t) == Owning <==> s.lock.lockAcquired == Some(t)
    ensures forall t1, t2 :: PhaseOf(s, t1) == Owning && PhaseOf(s, t2) == Owning ==> t1 == t2
  {
    RunKeepsExclusive(Start, es, s);
  }

  /** With one heartbeat thread `hb`, `_heartbeat_waiting` is up exactly while `hb` is
      inside its wait, so it is down whenever `hb` owns the lock. */
  lemma HeartbeatFlagTracksWait(es: seq<Event>, s: Sys, hb: ThreadId)
    requires Run(Start, es) == Some(s)
    requires forall i :: 0 <= i < |es| ==> HeartbeatBy(es[i], hb)
    ensures s.lock.heartbeatWaiting <==> InWait(PhaseOf(s, hb), HeartbeatCond)
    ensures PhaseOf(s, hb) == Owning ==> !s.lock.heartbeatWaiting
    ensures forall t :: t != hb ==> !InWait(PhaseOf(s, t), HeartbeatCond)
  {
    assert Pending(Start.threads, HeartbeatCond) == {};
    RunKeepsFlag(Start, es, s, hb);
    forall t | t != hb ensures !InWait(PhaseOf(s, t), HeartbeatCond) {
      assert t !in Pending(s.threads, HeartbeatCond);
    }
  }

  /** The heartbeat's priority among waiters: a successful release while the flag is
      up notifies the heartbeat condition, wakes the heartbeat if it is still blocked,
      and wakes no worker. */
  lemma ReleaseWakesHeartbeatFirst(s: Sys, t: ThreadId, w: ThreadId, hb: ThreadId)
    requires FlagInv(s, hb) && Enabled(s, CallRelease(t, w))
    requires Release(s.lock, t).outcome.Ok? && s.lock.heartbeatWaiting
    ensures Release(s.lock, t).outcome == Ok(NotifyHeartbeat)
    ensures PhaseOf(s, hb) == Waiting(HeartbeatCond) ==> PhaseOf(Step(s, CallRelease(t, w)), hb) == Notified(HeartbeatCond)
    ensures Blocked(Step(s, CallRelease(t, w)).threads, WorkersCond) == Blocked(s.threads, WorkersCond)
  {
    var m := s.threads;
    var s' := Step(s, CallRelease(t, w));
    if PhaseOf(s, hb) == Waiting(HeartbeatCond) {
      assert hb in Blocked(m, HeartbeatCond);
      assert w in Blocked(m, HeartbeatCond);
      assert w in Pending(m, HeartbeatCond);
    }
    BlockedUpdate(m, t, Idle, WorkersCond);
    assert t !in Blocked(m, WorkersCond);
    var m1 := m[t := Idle];
    if w in m1 && m1[w] == Waiting(HeartbeatCond) {
      BlockedUpdate(m1, w, Notified(HeartbeatCond), WorkersCond);
    }
  }

  /** Otherwise workers come next: a successful release with the flag down and some
      worker blocked wakes one of the blocked workers. */
  lemma ReleaseWakesWorkerOtherwise(s: Sys, t: ThreadId, w: ThreadId)
    requires CountInv(s) && Enabled(s, CallRelease(t, w))
    requires Release(s.lock, t).outcome.Ok? && !s.lock.heartbeatWaiting
    requires Blocked(s.threads, WorkersCond) != {}
    ensures Release(s.lock, t).outcome == Ok(NotifyWorkers)
    ensures PhaseOf(s, w) == Waiting(WorkersCond)
    ensures PhaseOf(Step(s, CallRelease(t, w)), w) == Notified(WorkersCond)
  {
    forall u | u in Blocked(s.threads, WorkersCond) ensures u in Pending(s.threads, WorkersCond) {
      assert s.threads[u] == Waiting(WorkersCond);
    }
  }

  /** While the heartbeat is inside its wait, no step takes a blocked worker out of
      its wait: the flag is up, so every successful release notifies the heartbeat
      condition, never the workers condition. */
  lemma StepKeepsWorkerBehindHeartbeat(s: Sys, e: Event, hb: ThreadId, w: ThreadId)
    requires FlagInv(s, hb) && Enabled(s, e) && HeartbeatBy(e, hb)
    requires InWait(PhaseOf(s, hb), HeartbeatCond) && PhaseOf(s, w) == Waiting(WorkersCond)
    ensures PhaseOf(Step(s, e), w) == Waiting(WorkersCond)
  {
    assert hb in Pending(s.threads, HeartbeatCond);
  }

  /** While the single heartbeat thread is inside its wait, no step lets a blocked
      worker own the lock. */
  lemma StepKeepsWorkerFromOwning(s: Sys, e: Event, hb: ThreadId, w: ThreadId)
    requires FlagInv(s, hb) && Enabled(s, e) && HeartbeatBy(e, hb)
    requires InWait(PhaseOf(s, hb), HeartbeatCond) && PhaseOf(s, w) == Waiting(WorkersCond)
    ensures PhaseOf(Step(s, e), w) != Owning
  {
    StepKeepsWorkerBehindHeartbeat(s, e, hb, w);
  }

  /** The heartbeat leaves its wait only by taking the lock. */
  lemma HeartbeatLeavesWaitByOwning(s: Sys, e: Event, hb: ThreadId)
    requires Enabled(s, e) && InWait(PhaseOf(s, hb), HeartbeatCond)
    ensures InWait(PhaseOf(Step(s, e), hb), HeartbeatCond) || PhaseOf(Step(s, e), hb) == Owning
  {
  }

  /** The steps `es` can be taken from `s`, and after each of them `hb` is still
      inside its wait on the heartbeat condition. */
  ghost predicate HeartbeatWaitsThroughout(s: Sys, es: seq<Event>, hb: ThreadId)
    decreases |es|
  {
    es == [] ||
    (Enabled(s, es[0]) && InWait(PhaseOf(Step(s, es[0]), hb), HeartbeatCond) &&
     HeartbeatWaitsThroughout(Step(s, es[0]), es[1..], hb))
  }

  /** The heartbeat's priority over whole runs: a worker blocked on the workers
      condition while the single heartbeat thread is inside its wait stays blocked
      for as long as the heartbeat stays there, and the heartbeat leaves its wait
      only by owning the lock (`HeartbeatLeavesWaitByOwning`), and no step in the
      meantime lets the worker own it (`StepKeepsWorkerFromOwning`). */
  lemma {:induction false} WorkerStaysBehindHeartbeat(s: Sys, es: seq<Event>, s': Sys, hb: ThreadId, w: ThreadId)
    requires FlagInv(s, hb) && InWait(PhaseOf(s, hb), HeartbeatCond) && PhaseOf(s, w) == Waiting(WorkersCond)
    requires forall i :: 0 <= i < |es| ==> HeartbeatBy(es[i], hb)
    requires Run(s, es) == Some(s') && HeartbeatWaitsThroughout(s, es, hb)
    ensures PhaseOf(s', w) == Waiting(WorkersCond)
    decreases |es|
  {
    if es != [] {
      StepKeepsWorkerBehindHeartbeat(s, es[0], hb, w);
      StepKeepsFlag(s, es[0], hb);
      WorkerStaysBehindHeartbeat(Step(s, es[0]), es[1..], s', hb, w);
    }
  }

  // ----- Scenarios -----

  /** A worker arriving between a release and the heartbeat's wake-up takes the lock
      first: the notified heartbeat finds it held and waits again. Thread 1 owns,
      heartbeat 2 waits, 1 releases (notifying 2), worker 3 calls `acquire`, 2 resumes. */
  lemma NewcomerTakesLockBeforeHeartbeat()
    ensures var es := [CallAcquire(1), CallHeartbeatAcquire(2), CallRelease(1, 2), CallAcquire(3),
                       WokenHeartbeatAcquire(2)];
            && Run(Start, es).Some?
            && Run(Start, es).value.lock == Fields(Some(3), 0, true)
            && PhaseOf(Run(Start, es).value, 3) == Owning
            && PhaseOf(Run(Start, es).value, 2) == Waiting(HeartbeatCond)
  {
    var s1 := Step(Start, CallAcquire(1));
    var s2 := Step(s1, CallHeartbeatAcquire(2));
    assert Blocked(s2.threads, HeartbeatCond) == {2};
    var s3 := Step(s2, CallRelease(1, 2));
    var s4 := Step(s3, CallAcquire(3));
    var s5 := Step(s4, WokenHeartbeatAcquire(2));
    assert Run(s5, []) == Some(s5);
  }

  /** Workers already blocked do not get ahead of the heartbeat: thread 1 owns, workers
      10, 11, 12 block, heartbeat 2 blocks, 1 releases, and the heartbeat takes the lock
      while all three workers are still blocked. */
  lemma HeartbeatBeforeBlockedWorkers()
    ensures var es := [CallAcquire(1), CallAcquire(10), CallAcquire(11), CallAcquire(12),
                       CallHeartbeatAcquire(2), CallRelease(1, 2), WokenHeartbeatAcquire(2)];
            && Run(Start, es).Some?
            && Run(Start, es).value.lock == Fields(Some(2), 3, false)
            && Blocked(Run(Start, es).value.threads, WorkersCond) == {10, 11, 12}
  {
    var s1 := Step(Start, CallAcquire(1));
    var s2 := Step(s1, CallAcquire(10));
    var s3 := Step(s2, CallAcquire(11));
    var s4 := Step(s3, CallAcquire(12));
    var s5 := Step(s4, CallHeartbeatAcquire(2));
    assert Blocked(s5.threads, HeartbeatCond) == {2};
    var s6 := Step(s5, CallRelease(1, 2));
    var s7 := Step(s6, WokenHeartbeatAcquire(2));
    assert Run(s7, []) == Some(s7);
    assert Blocked(s7.threads, WorkersCond) == {10, 11, 12};
  }

  /** A second `heartbeat_acquire` is not rejected, and the flag then loses track:
      heartbeats 2 and 3 both wait, 2 wakes and takes the lock, which lowers the flag
      while 3 still waits; a worker 4 that then blocks is the one 2's release wakes. */
  lemma SecondHeartbeatLosesPriority()
    ensures var es := [CallAcquire(1), CallHeartbeatAcquire(2), CallHeartbeatAcquire(3),
                       CallRelease(1, 2), WokenHeartbeatAcquire(2), CallAcquire(4), CallRelease(2, 4)];
            && Run(Start, es).Some?
            && Run(Start, es).value.lock == Fields(None, 1, false)
            && PhaseOf(Run(Start, es).value, 3) == Waiting(HeartbeatCond)
            && PhaseOf(Run(Start, es).value, 4) == Notified(WorkersCond)
  {
    var s1 := Step(Start, CallAcquire(1));
    var s2 := Step(s1, CallHeartbeatAcquire(2));
    var s3 := Step(s2, CallHeartbeatAcquire(3));
    assert Blocked(s3.threads, HeartbeatCond) == {2, 3};
    var s4 := Step(s3, CallRelease(1, 2));
    var s5 := Step(s4, WokenHeartbeatAcquire(2));
    var s6 := Step(s5, CallAcquire(4));
    assert Blocked(s6.threads, WorkersCond) == {4};
    var s7 := Step(s6, CallRelease(2, 4));
    assert Run(s7, []) == Some(s7);
  }

  /** With a falsy identity mutual exclusion fails: thread 0 takes the lock, and
      `acquire` by thread 1 sees a falsy owner and takes it too. */
  lemma FalsyIdentityBreaksExclusion()
    ensures var es := [CallAcquire(0), CallAcquire(1)];
            && Run(Start, es).Some?
            && PhaseOf(Run(Start, es).value, 0) == Owning
            && PhaseOf(Run(Start, es).value, 1) == Owning
            && Run(Start, es).value.lock.lockAcquired == Some(1)
  {
    var s1 := Step(Start, CallAcquire(0));
    var s2 := Step(s1, CallAcquire(1));
    assert Run(s2, []) == Some(s2);
  }

  /** A worker notified before the heartbeat asks is not held back: worker 2 blocks
      and is notified by 1's release, worker 3 takes the lock, heartbeat 5 blocks,
      3's release notifies 5, and worker 2 resumes first and takes the lock; the
      heartbeat finds it held and waits again. */
  lemma NotifiedWorkerBeforeHeartbeat()
    ensures var es := [CallAcquire(1), CallAcquire(2), CallRelease(1, 2), CallAcquire(3),
                       CallHeartbeatAcquire(5), CallRelease(3, 5), WokenAcquire(2),
                       WokenHeartbeatAcquire(5)];
            && Run(Start, es).Some?
            && Run(Start, es).value.lock == Fields(Some(2), 0, true)
            && PhaseOf(Run(Start, es).value, 2) == Owning
            && PhaseOf(Run(Start, es).value, 5) == Waiting(HeartbeatCond)
  {
    var s1 := Step(Start, CallAcquire(1));
    var s2 := Step(s1, CallAcquire(2));
    assert Blocked(s2.threads, WorkersCond) == {2};
    var s3 := Step(s2, CallRelease(1, 2));
    var s4 := Step(s3, CallAcquire(3));
    var s5 := Step(s4, CallHeartbeatAcquire(5));
    assert Blocked(s5.threads, HeartbeatCond) == {5};
    var s6 := Step(s5, CallRelease(3, 5));
    var s7 := Step(s6, WokenAcquire(2));
    var s8 := Step(s7, WokenHeartbeatAcquire(5));
    assert Run(s8, []) == Some(s8);
  }

  /** With two heartbeat callers a wake-up is lost: heartbeats 2 and 3 both wait,
      2 wakes, takes the lock (lowering the flag) and releases it; with the flag down
      and no worker counted that release notifies nothing, so 3 stays blocked on a
      free lock with every mark cleared. */
  lemma SecondHeartbeatLosesWakeUp()
    ensures var es := [CallAcquire(1), CallHeartbeatAcquire(2), CallHeartbeatAcquire(3),
                       CallRelease(1, 2), WokenHeartbeatAcquire(2), CallRelease(2, 0)];
            && Run(Start, es).Some?
            && Run(Start, es).value.lock == Fields(None, 0, false)
            && PhaseOf(Run(Start, es).value, 3) == Waiting(HeartbeatCond)
  {
    var s1 := Step(Start, CallAcquire(1));
    var s2 := Step(s1, CallHeartbeatAcquire(2));
    var s3 := Step(s2, CallHeartbeatAcquire(3));
    assert Blocked(s3.threads, HeartbeatCond) == {2, 3};
    var s4 := Step(s3, CallRelease(1, 2));
    var s5 := Step(s4, WokenHeartbeatAcquire(2));
    var s6 := Step(s5, CallRelease(2, 0));
    assert Run(s6, []) == Some(s6);
  }

}
