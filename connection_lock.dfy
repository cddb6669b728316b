/**
 * The lock objects of oslo-heartbeat.py as classes. Each method of
 * `ConnectionLock` is one monitor-held section; its contract ties the new
 * fields and its result to the step function of the same name in `LockSteps`.
 */
module ConnectionLocks {
  import opened Wrappers
  import opened LockSteps

  /** The heartbeat-priority lock. The calling thread's identity is a parameter. */
  class ConnectionLock {
    var lockAcquired: Option<ThreadId>
    var workersWaiting: int
    var heartbeatWaiting: bool

    /** The three fields as one value. */
    function Snapshot(): Fields
      reads this
    {
      Fields(lockAcquired, workersWaiting, heartbeatWaiting)
    }

    constructor ()
      ensures Snapshot() == Initial
    {
      workersWaiting := 0;
      heartbeatWaiting := false;
      lockAcquired := None;
    }

    /** `acquire`: the first pass of its wait loop. `false` means the caller is now
        blocked on the workers condition. */
    method Acquire(tid: ThreadId) returns (acquired: bool)
      modifies this
      ensures Attempt(Snapshot(), acquired) == LockSteps.Acquire(old(Snapshot()), tid)
    {
      if Held(lockAcquired) {
        workersWaiting := workersWaiting + 1;
        acquired := false;
      } else {
        lockAcquired := Some(tid);
        acquired := true;
      }
    }

    /** `acquire`, resumed after the workers condition woke the caller. */
    method AcquireWoken(tid: ThreadId) returns (acquired: bool)
      modifies this
      ensures Attempt(Snapshot(), acquired) == LockSteps.AcquireWoken(old(Snapshot()), tid)
    {
      workersWaiting := workersWaiting - 1;
      acquired := Acquire(tid);
    }

    /** `heartbeat_acquire`: the first pass of its wait loop. `false` means the caller
        is now blocked on the heartbeat condition. */
    method HeartbeatAcquire(tid: ThreadId) returns (acquired: bool)
      modifies this
      ensures Attempt(Snapshot(), acquired) == LockSteps.HeartbeatAcquire(old(Snapshot()), tid)
    {
      if lockAcquired != None {
        heartbeatWaiting := true;
        acquired := false;
      } else {
        lockAcquired := Some(tid);
        acquired := true;
      }
    }

    /** `heartbeat_acquire`, resumed after the heartbeat condition woke the caller. */
    method HeartbeatAcquireWoken(tid: ThreadId) returns (acquired: bool)
      modifies this
      ensures Attempt(Snapshot(), acquired) == LockSteps.HeartbeatAcquireWoken(old(Snapshot()), tid)
    {
      heartbeatWaiting := false;
      acquired := HeartbeatAcquire(tid);
    }

    /** `release`: raises, or frees the lock and names the condition it notifies. */
    method Release(tid: ThreadId) returns (outcome: Result<Notify, LockError>)
      modifies this
      ensures Released(Snapshot(), outcome) == LockSteps.Release(old(Snapshot()), tid)
      ensures outcome.Err? ==> Snapshot() == old(Snapshot())
    {
      if lockAcquired == None {
        return Err(NotAcquired);
      }
      if lockAcquired != Some(tid) {
        return Err(AcquiredByAnother(lockAcquired.value, tid));
      }
      lockAcquired := None;
      if heartbeatWaiting {
        outcome := Ok(NotifyHeartbeat);
      } else if workersWaiting > 0 {
        outcome := Ok(NotifyWorkers);
      } else {
        outcome := Ok(NotifyNone);
      }
    }

    /** Leaving a `with lock.for_heartbeat():` block, whose entry is `HeartbeatAcquire`
        and `HeartbeatAcquireWoken`: releases, then re-raises the body's exception
        unless the release raised. */
    method ExitForHeartbeat(tid: ThreadId, body: BodyOutcome) returns (outcome: Result<(), ScopeError>)
      modifies this
      ensures ScopeExit(Snapshot(), outcome) == LockSteps.ForHeartbeatExit(old(Snapshot()), tid, body)
    {
      var released := Release(tid);
      if released.Err? {
        outcome := Err(FromRelease(released.error));
      } else if body.BodyRaised? {
        outcome := Err(FromBody(body.exc));
      } else {
        outcome := Ok(());
      }
    }
  }

  /** The stateless base classes that `ConnectionLock` extends, with the same
      interface (`DummyConnectionLock`, which adds `heartbeat_acquire` to
      `DummyLock`). They have no state, so none of their methods can change any:
      none waits, and `Release` never raises. */
  class DummyConnectionLock {
    constructor ()
    {
    }

    /** `acquire`: returns at once. */
    method Acquire(tid: ThreadId) returns (acquired: bool)
      ensures acquired
    {
      acquired := true;
    }

    /** `heartbeat_acquire`: returns at once. */
    method HeartbeatAcquire(tid: ThreadId) returns (acquired: bool)
      ensures acquired
    {
      acquired := true;
    }

    /** `release`: never raises and wakes nobody. */
    method Release(tid: ThreadId) returns (outcome: Result<Notify, LockError>)
      ensures outcome == Ok(NotifyNone)
    {
      outcome := Ok(NotifyNone);
    }
  }
}
