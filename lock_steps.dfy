/**
 * The state of `ConnectionLock` (oslo-heartbeat.py) and the atomic steps its
 * methods take while holding the monitor, as pure functions on that state.
 *
 * Every change to the three fields happens inside `with self._monitor:`, so
 * one monitor-held section is one step. `Condition.wait()` gives the monitor
 * up, so `acquire` and `heartbeat_acquire` are each two steps: the first pass
 * of the loop test (which either takes the lock or begins waiting), and the
 * resumption after a wake-up (which undoes the waiting mark and runs the loop
 * test again).
 */
module LockSteps {
  import opened Wrappers

  /** A thread identity as the lock compares it: equality is identity.
      Integers stand in for the thread objects that `fetch_current_thread_functor`
      yields (oslo-heartbeat.py:64); 0 stands for a falsy identity. */
  type ThreadId = int

  /** Python's truthiness of a thread identity. */
  predicate Truthy(t: ThreadId) {
    t != 0
  }

  /** Python's truthiness of `_lock_acquired`: `None` is falsy, and so is a falsy identity. */
  predicate Held(owner: Option<ThreadId>) {
    owner.Some? && Truthy(owner.value)
  }

  /** The three fields of `ConnectionLock`. */
  datatype Fields = Fields(lockAcquired: Option<ThreadId>, workersWaiting: int, heartbeatWaiting: bool)

  /** The fields as `__init__` sets them. */
  const Initial: Fields := Fields(None, 0, false)

  /** The fields after a step of an acquisition, and whether the caller now owns
      the lock (`true`: the call returns) or waits on its condition (`false`). */
  datatype Attempt = Attempt(fields: Fields, acquired: bool)

  /** The reason `release` raises `RuntimeError`. */
  datatype LockError = NotAcquired | AcquiredByAnother(owner: ThreadId, caller: ThreadId)

  /** The condition `release` notifies: at most one of the two, by construction. */
  datatype Notify = NotifyHeartbeat | NotifyWorkers | NotifyNone

  /** The fields after `release`, and what it did: raised, or returned after a notify. */
  datatype Released = Released(fields: Fields, outcome: Result<Notify, LockError>)

  /** The outcome of the body of a `with lock.for_heartbeat():` block. */
  datatype BodyOutcome = BodyReturned | BodyRaised(exc: string)

  /** The exception a `for_heartbeat` block ends with. */
  datatype ScopeError = FromBody(exc: string) | FromRelease(error: LockError)

  /** The fields after a `for_heartbeat` block exits, and whether it raised. */
  datatype ScopeExit = ScopeExit(fields: Fields, outcome: Result<(), ScopeError>)

  /** `acquire`, first pass: while the owner is truthy, count this worker in and wait;
      otherwise take the lock. */
  function Acquire(f: Fields, tid: ThreadId): Attempt {
    if Held(f.lockAcquired) then
      Attempt(f.(workersWaiting := f.workersWaiting + 1), false)
    else
      Attempt(f.(lockAcquired := Some(tid)), true)
  }

  /** `acquire`, after `_workers_locks.wait()` returns: count this worker out, then
      the loop test again. */
  function AcquireWoken(f: Fields, tid: ThreadId): Attempt {
    Acquire(f.(workersWaiting := f.workersWaiting - 1), tid)
  }

  /** `heartbeat_acquire`, first pass: while there is any owner, raise the flag and
      wait; otherwise take the lock. */
  function HeartbeatAcquire(f: Fields, tid: ThreadId): Attempt {
    if f.lockAcquired != None then
      Attempt(f.(heartbeatWaiting := true), false)
    else
      Attempt(f.(lockAcquired := Some(tid)), true)
  }

  /** `heartbeat_acquire`, after `_heartbeat_lock.wait()` returns: lower the flag,
      then the loop test again. */
  function HeartbeatAcquireWoken(f: Fields, tid: ThreadId): Attempt {
    HeartbeatAcquire(f.(heartbeatWaiting := false), tid)
  }

  /** `release` called by thread `tid`. */
  function Release(f: Fields, tid: ThreadId): Released {
    if f.lockAcquired == None then
      Released(f, Err(NotAcquired))
    else if f.lockAcquired != Some(tid) then
      Released(f, Err(AcquiredByAnother(f.lockAcquired.value, tid)))
    else
      var g := f.(lockAcquired := None);
      Released(g, Ok(if g.heartbeatWaiting then NotifyHeartbeat
                      else if g.workersWaiting > 0 then NotifyWorkers
                      else NotifyNone))
  }

  /** The `finally` of `for_heartbeat`: `release` runs whatever the body did; the
      body's exception propagates unless `release` itself raises. */
  function ForHeartbeatExit(f: Fields, tid: ThreadId, body: BodyOutcome): ScopeExit {
    var r := Release(f, tid);
    ScopeExit(r.fields,
              if r.outcome.Err? then Err(FromRelease(r.outcome.error))
              else if body.BodyRaised? then Err(FromBody(body.exc))
              else Ok(()))
  }

  /** Releasing a lock nobody holds raises and changes nothing. */
  lemma ReleaseUnacquired(f: Fields, tid: ThreadId)
    requires f.lockAcquired == None
    ensures Release(f, tid) == Released(f, Err(NotAcquired))
  {
  }

  /** Releasing a lock another thread holds raises, naming both threads, and changes nothing. */
  lemma ReleaseByOther(f: Fields, tid: ThreadId)
    requires f.lockAcquired.Some? && f.lockAcquired.value != tid
    ensures Release(f, tid) == Released(f, Err(AcquiredByAnother(f.lockAcquired.value, tid)))
  {
  }

  /** `release` succeeds exactly when the caller is the recorded owner; then it frees
      the lock and leaves both waiting marks alone. */
  lemma ReleaseByOwner(f: Fields, tid: ThreadId)
    ensures Release(f, tid).outcome.Ok? <==> f.lockAcquired == Some(tid)
    ensures Release(f, tid).outcome.Ok? ==>
              && Release(f, tid).fields.lockAcquired == None
              && Release(f, tid).fields.workersWaiting == f.workersWaiting
              && Release(f, tid).fields.heartbeatWaiting == f.heartbeatWaiting
    ensures Release(f, tid).outcome.Err? ==> Release(f, tid).fields == f
  {
  }

  /** The notify choice of a successful `release`: the heartbeat condition whenever the
      heartbeat waits, the workers condition only when it does not and some worker is
      counted, and nothing otherwise. */
  lemma ReleaseNotifyChoice(f: Fields, tid: ThreadId)
    requires f.lockAcquired == Some(tid)
    ensures Release(f, tid).outcome == Ok(NotifyHeartbeat) <==> f.heartbeatWaiting
    ensures Release(f, tid).outcome == Ok(NotifyWorkers) <==> !f.heartbeatWaiting && f.workersWaiting > 0
    ensures Release(f, tid).outcome == Ok(NotifyNone) <==> !f.heartbeatWaiting && f.workersWaiting <= 0
  {
  }

  /** A worker's first pass waits exactly when the owner is truthy and then counts
      itself in; a wake-up counts it out again, so a worker that waits once and then
      takes the lock leaves the counter where it found it. */
  lemma WorkerBookkeeping(f: Fields, tid: ThreadId)
    ensures !Acquire(f, tid).acquired <==> Held(f.lockAcquired)
    ensures !Acquire(f, tid).acquired ==> Acquire(f, tid).fields.workersWaiting == f.workersWaiting + 1
    ensures Acquire(f, tid).acquired ==> Acquire(f, tid).fields.workersWaiting == f.workersWaiting
    ensures AcquireWoken(f, tid).acquired ==> AcquireWoken(f, tid).fields.workersWaiting == f.workersWaiting - 1
    ensures !AcquireWoken(f, tid).acquired ==> AcquireWoken(f, tid).fields.workersWaiting == f.workersWaiting
    ensures var a := Acquire(f, tid);
            !a.acquired && AcquireWoken(a.fields, tid).acquired ==>
              AcquireWoken(a.fields, tid).fields.workersWaiting == f.workersWaiting
  {
  }

  /** The heartbeat's flag is up while it waits and down whenever it takes the lock
      after a wake-up; a first pass that takes the lock does not touch the flag. */
  lemma HeartbeatBookkeeping(f: Fields, tid: ThreadId)
    ensures !HeartbeatAcquire(f, tid).acquired <==> f.lockAcquired != None
    ensures !HeartbeatAcquire(f, tid).acquired ==> HeartbeatAcquire(f, tid).fields.heartbeatWaiting
    ensures HeartbeatAcquire(f, tid).acquired ==> HeartbeatAcquire(f, tid).fields.heartbeatWaiting == f.heartbeatWaiting
    ensures Acquire(f, tid).fields.heartbeatWaiting == f.heartbeatWaiting
    ensures AcquireWoken(f, tid).fields.heartbeatWaiting == f.heartbeatWaiting
    ensures HeartbeatAcquire(f, tid).fields.workersWaiting == f.workersWaiting
    ensures HeartbeatAcquireWoken(f, tid).acquired ==> !HeartbeatAcquireWoken(f, tid).fields.heartbeatWaiting
    ensures !HeartbeatAcquireWoken(f, tid).acquired ==> HeartbeatAcquireWoken(f, tid).fields.heartbeatWaiting
    ensures HeartbeatAcquireWoken(f, tid).fields.workersWaiting == f.workersWaiting
  {
  }

  /** Neither acquisition path overwrites an owner it can see: the heartbeat path sees
      every owner, the worker path only a truthy one. Either path that takes the lock
      records the caller. */
  lemma NoOverwrite(f: Fields, tid: ThreadId)
    ensures f.lockAcquired != None ==>
              && !HeartbeatAcquire(f, tid).acquired && HeartbeatAcquire(f, tid).fields.lockAcquired == f.lockAcquired
              && !HeartbeatAcquireWoken(f, tid).acquired && HeartbeatAcquireWoken(f, tid).fields.lockAcquired == f.lockAcquired
    ensures Held(f.lockAcquired) ==>
              && !Acquire(f, tid).acquired && Acquire(f, tid).fields.lockAcquired == f.lockAcquired
              && !AcquireWoken(f, tid).acquired && AcquireWoken(f, tid).fields.lockAcquired == f.lockAcquired
    ensures Acquire(f, tid).acquired ==> Acquire(f, tid).fields.lockAcquired == Some(tid)
    ensures HeartbeatAcquire(f, tid).acquired ==> HeartbeatAcquire(f, tid).fields.lockAcquired == Some(tid)
  {
  }

  /** The two loop tests differ on a falsy owner: `acquire` takes over a lock that
      thread 0 owns, `heartbeat_acquire` waits for it. */
  lemma FalsyOwnerTakenOver(f: Fields, tid: ThreadId)
    requires f.lockAcquired == Some(0)
    ensures Acquire(f, tid).acquired && Acquire(f, tid).fields.lockAcquired == Some(tid)
    ensures !HeartbeatAcquire(f, tid).acquired
  {
  }

  /** A `for_heartbeat` block whose heartbeat owns the lock always releases it on exit,
      whether the body returned or raised, and ends with the body's outcome. */
  lemma ForHeartbeatReleases(f: Fields, tid: ThreadId, body: BodyOutcome)
    requires f.lockAcquired == Some(tid)
    ensures ForHeartbeatExit(f, tid, body).fields == f.(lockAcquired := None)
    ensures ForHeartbeatExit(f, tid, body).outcome == if body.BodyRaised? then Err(FromBody(body.exc)) else Ok(())
  {
  }

  /** Entering `for_heartbeat` on a free lock and leaving it again, by return or by
      exception, gives back exactly the fields found on entry. */
  lemma ForHeartbeatRoundTrip(f: Fields, tid: ThreadId, body: BodyOutcome)
    requires f.lockAcquired == None
    ensures HeartbeatAcquire(f, tid).acquired
    ensures ForHeartbeatExit(HeartbeatAcquire(f, tid).fields, tid, body).fields == f
  {
  }
}
