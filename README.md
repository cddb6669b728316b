# Heartbeat-priority connection lock

A model of `ConnectionLock` in `oslo-heartbeat.py`, and of the stateless base
classes it extends, `DummyLock` and `DummyConnectionLock`, which have the same
interface. The docstring (oslo-heartbeat.py:37-55) describes the lock as
protecting the messaging connection between the heartbeat thread and the driver
thread. Driver and worker threads call `acquire`. The heartbeat thread calls
`heartbeat_acquire`, through the `for_heartbeat` context manager. Both release
with `release`. The model covers every path a thread can take through the lock.
With a single heartbeat caller (the comment at line 75), the lock serves the
heartbeat before any worker that is blocked (waiting and not yet notified)
while the heartbeat waits.

There are three fields: `_lock_acquired` is the owner's identity or `None`,
`_workers_waiting` is a counter, and `_heartbeat_waiting` is a flag. Every
change to them happens while the `_monitor` lock is held, so each monitor-held
section is one atomic step. `Condition.wait()` gives the monitor up, so each
acquisition is two steps: a first pass of its wait loop, and a resumption after
a wake-up.

- `wrappers.dfy`: `Option` for Python's `None`, and `Result` for return-or-raise.
- `lock_steps.dfy` (module `LockSteps`): the three fields as a value, each atomic
  step as a pure function, and lemmas about single steps.
- `connection_lock.dfy` (module `ConnectionLocks`): class `ConnectionLock` holds the
  three fields. Each of its methods is one monitor-held section, and its contract
  gives the new fields and result as the `LockSteps` function of the same name.
  Class `DummyConnectionLock` models the stateless base classes.
- `interleavings.dfy` (module `Interleavings`): threads taking those steps in any
  interleaving, under the semantics of `threading.Condition`. A waiting thread
  resumes only after a `notify()` has picked it. Which waiter is picked is left
  open. Invariants are proved by induction over every run, and concrete runs show
  what the code does at its edges.

Thread identities are a parameter of each step; they replace
`fetch_current_thread_functor` (oslo-heartbeat.py:64), which yields the current
thread or greenthread object. Such an object is truthy while it runs. The model
uses integers as stand-ins for those objects, and 0 stands for a falsy
identity. The two wait loops test differently: `acquire` waits while
`_lock_acquired` is truthy (line 68), and `heartbeat_acquire` waits while it is
not `None` (line 77). `LockSteps.FalsyOwnerTakenOver` and
`Interleavings.FalsyIdentityBreaksExclusion` show how the two tests differ. They
do not show a failure the source is known to hit.

## Where the code and its docstring differ

The docstring (oslo-heartbeat.py:52-54) says that once `heartbeat_acquire` has
been called, the heartbeat takes the lock at the next release, even if others
asked before it. The model follows the code, which promises less.

- In this file only the heartbeat thread takes the lock, with
  `with self._connection_lock.for_heartbeat():` (line 180). `Connection.publish`
  (lines 145-146) and the first publish in `__init__` (line 141) call the
  producer without taking it, and nothing in the file calls `acquire`. The
  worker side of the model is the use the docstring describes.
- `acquire` tests only `_lock_acquired` (line 68), not `_heartbeat_waiting`.
  A worker that calls `acquire` between a release and the heartbeat's wake-up
  takes the lock, and the heartbeat finds it held and waits again
  (`Interleavings.NewcomerTakesLockBeforeHeartbeat`).
- A worker that was notified before the heartbeat asked can also resume first
  and take the lock (`Interleavings.NotifiedWorkerBeforeHeartbeat`).
- What does hold: a worker that is blocked, and not yet notified, while the
  heartbeat waits stays blocked until the heartbeat owns the lock
  (`Interleavings.WorkerStaysBehindHeartbeat`,
  `Interleavings.HeartbeatLeavesWaitByOwning`,
  `Interleavings.ReleaseWakesHeartbeatFirst`,
  `Interleavings.HeartbeatBeforeBlockedWorkers`).
- The comment at line 75 says `heartbeat_acquire` "must be called only one
  time", but nothing rejects a second concurrent caller. With two callers, the
  first to wake lowers the flag while the other still waits. The next release
  then wakes a worker instead (`Interleavings.SecondHeartbeatLosesPriority`), or,
  with no worker counted, notifies nobody. The second heartbeat is then left
  blocked on a free lock (`Interleavings.SecondHeartbeatLosesWakeUp`).
- Mutual exclusion is proved for truthy identities
  (`Interleavings.MutualExclusion`). `acquire` takes over a lock whose owner is
  falsy (`LockSteps.FalsyOwnerTakenOver`,
  `Interleavings.FalsyIdentityBreaksExclusion`).

## Model

| member | source | states |
|---|---|---|
| `LockSteps.ReleaseUnacquired` | oslo-heartbeat.py:83-86 | releasing a lock with no owner raises the not-acquired error and leaves all three fields as they were |
| `LockSteps.ReleaseByOther` | oslo-heartbeat.py:87-91 | releasing a lock owned by another thread raises an error naming the owner and the caller, and leaves all three fields as they were |
| `LockSteps.ReleaseByOwner` | oslo-heartbeat.py:83-92 | release succeeds if and only if the caller is the recorded owner; then the owner becomes `None` and both waiting marks are untouched; on failure nothing changes |
| `LockSteps.ReleaseNotifyChoice` | oslo-heartbeat.py:92-96 | a successful release notifies the heartbeat condition exactly when the flag is up; it notifies the workers condition exactly when the flag is down and the counter is positive; otherwise it notifies nothing; never both |
| `LockSteps.WorkerBookkeeping` | oslo-heartbeat.py:66-72 | a worker waits exactly when the owner is truthy; beginning to wait adds one to the counter and a wake-up takes one off; a worker that waits once and then takes the lock leaves the counter as it found it |
| `LockSteps.HeartbeatBookkeeping` | oslo-heartbeat.py:66-81 | the heartbeat waits exactly when there is any owner, with the flag up; after a wake-up that takes the lock the flag is down; neither step of the worker path touches the flag, and neither step of the heartbeat path touches the counter |
| `LockSteps.NoOverwrite` | oslo-heartbeat.py:66-81 | the heartbeat path never replaces an existing owner; the worker path never replaces a truthy owner; a path that takes the lock records the caller |
| `LockSteps.FalsyOwnerTakenOver` | oslo-heartbeat.py:68-77 | on a falsy owner the two loop tests differ: `acquire` takes the lock over, `heartbeat_acquire` waits |
| `LockSteps.ForHeartbeatReleases` | oslo-heartbeat.py:98-104 | leaving a `for_heartbeat` block that owns the lock releases it whether the body returned or raised, changes nothing else, and ends with the body's outcome |
| `LockSteps.ForHeartbeatRoundTrip` | oslo-heartbeat.py:74-104 | entering `for_heartbeat` on a free lock takes it at once; leaving by return or exception restores exactly the fields found on entry |
| `ConnectionLocks.ConnectionLock.constructor` | oslo-heartbeat.py:57-64 | a new lock has no owner, a zero counter and the flag down |
| `ConnectionLocks.ConnectionLock.Acquire` | oslo-heartbeat.py:66-72 | first pass of `acquire`: the new fields and the owns-or-waits answer are those of `LockSteps.Acquire` |
| `ConnectionLocks.ConnectionLock.AcquireWoken` | oslo-heartbeat.py:68-72 | `acquire` resumed after a wake-up: the counter is decremented and the loop test runs again, as `LockSteps.AcquireWoken` |
| `ConnectionLocks.ConnectionLock.HeartbeatAcquire` | oslo-heartbeat.py:74-81 | first pass of `heartbeat_acquire`, as `LockSteps.HeartbeatAcquire` |
| `ConnectionLocks.ConnectionLock.HeartbeatAcquireWoken` | oslo-heartbeat.py:77-81 | `heartbeat_acquire` resumed after a wake-up: the flag is cleared and the loop test runs again, as `LockSteps.HeartbeatAcquireWoken` |
| `ConnectionLocks.ConnectionLock.Release` | oslo-heartbeat.py:83-96 | `release`: the new fields and the raise-or-notify result are those of `LockSteps.Release`; a raise leaves every field unchanged |
| `ConnectionLocks.ConnectionLock.ExitForHeartbeat` | oslo-heartbeat.py:98-104 | the `finally` of `for_heartbeat`: always releases; the release's error, else the body's exception, is the outcome, as `LockSteps.ForHeartbeatExit` |
| `ConnectionLocks.DummyConnectionLock.Acquire` | oslo-heartbeat.py:17-19 | the no-op `acquire` returns at once and changes no state |
| `ConnectionLocks.DummyConnectionLock.Release` | oslo-heartbeat.py:21-22 | the no-op `release` never raises, wakes nobody and changes no state |
| `ConnectionLocks.DummyConnectionLock.HeartbeatAcquire` | oslo-heartbeat.py:31-33 | the no-op `heartbeat_acquire` returns at once and changes no state |
| `Interleavings.StepKeepsCount` | oslo-heartbeat.py:66-96 | every atomic step of every thread keeps the counter equal to the number of workers inside the wait of `acquire` |
| `Interleavings.StepKeepsFlag` | oslo-heartbeat.py:74-96 | when only one thread takes the heartbeat path, every step keeps the flag up exactly while that thread is inside its wait |
| `Interleavings.StepKeepsExclusive` | oslo-heartbeat.py:66-96 | every step by a truthy thread keeps `_lock_acquired` naming exactly the one thread that returned from an acquisition and has not released |
| `Interleavings.WorkersWaitingCounted` | oslo-heartbeat.py:66-72 | in every reachable state the counter equals the number of workers blocked or notified in `acquire`, so it is never negative |
| `Interleavings.MutualExclusion` | oslo-heartbeat.py:66-92 | in every run by truthy threads, at most one thread owns the lock and `_lock_acquired` names that thread |
| `Interleavings.HeartbeatFlagTracksWait` | oslo-heartbeat.py:74-81 | in every run with one heartbeat thread, the flag is up exactly while that thread waits, so it is down whenever the heartbeat owns the lock, and no other thread is waiting on the heartbeat condition |
| `Interleavings.ReleaseWakesHeartbeatFirst` | oslo-heartbeat.py:92-94 | a successful release while the flag is up notifies the heartbeat condition; it wakes the heartbeat if the heartbeat is still blocked, and every blocked worker stays blocked |
| `Interleavings.ReleaseWakesWorkerOtherwise` | oslo-heartbeat.py:93-96 | a successful release with the flag down and some worker blocked notifies the workers condition and wakes one blocked worker |
| `Interleavings.StepKeepsWorkerBehindHeartbeat` | oslo-heartbeat.py:92-96 | while the single heartbeat thread is inside its wait, no step moves a blocked worker out of its wait |
| `Interleavings.StepKeepsWorkerFromOwning` | oslo-heartbeat.py:48-96 | while the single heartbeat thread is inside its wait, no step lets a blocked worker own the lock |
| `Interleavings.HeartbeatLeavesWaitByOwning` | oslo-heartbeat.py:77-81 | a thread inside the heartbeat wait leaves it only by taking the lock |
| `Interleavings.WorkerStaysBehindHeartbeat` | oslo-heartbeat.py:48-96 | over every run with one heartbeat thread, a worker blocked while the heartbeat waits is still blocked at every point until the heartbeat leaves its wait, which it does only by owning the lock |
| `Interleavings.NotifiedWorkerBeforeHeartbeat` | oslo-heartbeat.py:66-96 | a worker notified before the heartbeat asks resumes first and takes the lock; the heartbeat waits again with the flag up |
| `Interleavings.SecondHeartbeatLosesWakeUp` | oslo-heartbeat.py:74-96 | with two concurrent heartbeat callers, the release by the first to own notifies nobody, and the second stays blocked on a free lock with the counter at 0 and the flag down |
| `Interleavings.NewcomerTakesLockBeforeHeartbeat` | oslo-heartbeat.py:66-96 | a worker calling `acquire` between a release and the heartbeat's wake-up takes the lock; the heartbeat waits again with the flag up |
| `Interleavings.HeartbeatBeforeBlockedWorkers` | oslo-heartbeat.py:36-96 | with three workers blocked before the heartbeat asks, the release goes to the heartbeat, and all three workers stay blocked |
| `Interleavings.SecondHeartbeatLosesPriority` | oslo-heartbeat.py:74-96 | a second concurrent `heartbeat_acquire` is accepted; after the first heartbeat takes the lock the flag is down while the second still waits, and the next release wakes a worker |
| `Interleavings.FalsyIdentityBreaksExclusion` | oslo-heartbeat.py:66-72 | with thread identity 0, two threads own the lock at the same time |

## Left out

- The `Connection` class (oslo-heartbeat.py:107-203): the kombu connection, channel, exchange and producer, publishing, the blocked/unblocked callbacks, starting and stopping the heartbeat thread, `heartbeat_check` and `drain_events`. All of it is calls into kombu and the threading runtime.
- The `pools` class attribute: it is never used.
- `debug.py`, `heartbeat.py`, `consumer.py`, `producer.py`: argument parsing, printing and direct kombu calls in unbounded loops, with no logic of their own.
- The real blocking and wake-up of `threading.Condition`, OS scheduling and fairness. A wait is the pair of atomic steps described above. A notify moves one waiter, chosen freely, to notified; Python picks the oldest. Only safety is proved, not that a waiter is ever served.
- `eventletutils.fetch_current_thread_functor`: a foreign library. The identity it would return is a parameter of every step. Integers stand in for the thread objects it returns.
- `DummyLock` (oslo-heartbeat.py:17-28) has no class of its own. There is no inheritance without traits, and `DummyConnectionLock`, which adds only `heartbeat_acquire` to it, models both.
- `__enter__` and `__exit__` (oslo-heartbeat.py:24-28) only call `acquire` and `release`. They are covered by those methods.
- The interleaving model does not let a thread that owns the lock call an acquisition again. In the source such a call deadlocks against itself on a truthy identity.
- Interleavings.HeartbeatFlagTracksWait: holds only when a single thread takes the heartbeat path, which is the use the comment at oslo-heartbeat.py:75 asks for; `Interleavings.SecondHeartbeatLosesPriority` shows what happens otherwise.
