# Dempsy dispatch core in Dafny

This project models three small stateful components of the Dempsy framework's
routing-and-dispatch core. Each is a Dafny class. The registry's and the
factory's methods are proved against pure specification functions. The
scheduler's methods are proved against its object invariant. Each
`synchronized` method or atomic operation of the Java code is one atomic step
of the model.

- **Plugin registry** (`PluginManager`, from `Manager<T>`). It keeps a table
  from a type id to an instance. `getAssociatedInstance` returns the entry if
  there is one. Otherwise it discovers an implementing class in the package
  named by the type id, instantiates the first candidate, caches it and
  returns it. `register` overwrites an entry. The classpath scan and the
  reflective constructor call are oracles the caller passes in:
  `discover: string -> Scan<C>` and `instantiate: C -> Instantiation<T>`.
  A ghost log `scans` records every type id that was scanned, so "no
  discovery" is visible in the contracts.
- **Self-disposing scheduler** (`Scheduling`, from
  `AutoDisposeSingleThreadScheduler`). It has a pending-call counter, a
  nullable executor, and a `decremented` flag per scheduled task (in its
  `RunnableProxy`). Each task's future is `Waiting`, `Ran` or `Cancelled`.
  The object invariant `Valid()` states these facts:
  - the counter equals the number of proxies not yet decremented;
  - a proxy has been decremented exactly when its future is done;
  - the executor exists exactly while the counter is positive, and it is
    not shut down.
  A callback fired by `Run` is described by what it does to the scheduler:
  it may schedule one more task, cancel its own handle (before or after
  rescheduling), or throw.
- **Blocking-queue sender factory** (`BlockingQueueTransport`, from
  `BlockingQueueSenderFactory`). It is a map from `NodeAddress` to sender
  with insert-if-absent in `GetSender`. `Close` closes every cached sender
  and keeps the map. The pure `CacheAfter` and `Replay` describe one call and
  a run of calls that each return a sender. Lemmas about them prove that,
  over such a run, the cached addresses are exactly the requested ones, that a cached sender is never replaced, that
  repeated calls return the same sender, and that at most one sender is ever
  built per address.

The model follows the code: `close` does not clear the cache and does not
make the factory unusable. A known address gets its old, closed sender back;
a new address gets a new one (`CloseKeepsCache`).

## Model

| member | source | states |
|---|---|---|
| `PluginManager.Materialize` | dempsy-framework.core/src/main/java/net/dempsy/Manager.java:85-105 | no candidate (a scan that threw counts as none) fails with NoImplementation; otherwise the first candidate in iteration order is instantiated; success iff its constructor succeeds, with that instance; a reflection error becomes NoDefaultConstructor for that candidate, any other constructor exception passes through |
| `PluginManager.Associate` | dempsy-framework.core/src/main/java/net/dempsy/Manager.java:108-115 | register puts the instance under the id, adds only that id, and leaves every other entry unchanged |
| `PluginManager.Lookup` | dempsy-framework.core/src/main/java/net/dempsy/Manager.java:29-48 | a hit returns the registered entry, changes nothing and does not discover; a miss discovers and materializes; a success is cached under the id, a failure caches nothing |
| `PluginManager.RegisterThenLookup` | dempsy-framework.core/src/main/java/net/dempsy/Manager.java:35-37 | after register(id, x), looking up id returns x, leaves the table as it is and does not discover |
| `PluginManager.RegisterOverrides` | dempsy-framework.core/src/main/java/net/dempsy/Manager.java:108-114 | registering a second instance under an id replaces the first; lookups return the second |
| `PluginManager.SecondLookupHitsCache` | dempsy-framework.core/src/main/java/net/dempsy/Manager.java:36-44 | after a lookup that succeeded, the next lookup of that id returns the same instance with no discovery and no change |
| `PluginManager.FailedLookupRetries` | dempsy-framework.core/src/main/java/net/dempsy/Manager.java:42-43 | a failed lookup leaves the table unchanged, so the next lookup of that id discovers again and behaves as if the first had not happened |
| `PluginManager.ScanErrorIsNoImplementation` | dempsy-framework.core/src/main/java/net/dempsy/Manager.java:72-77 | a scan that threw is turned into an empty set and fails exactly like a scan that found nothing, with NoImplementation |
| `PluginManager.FirstCandidateWins` | dempsy-framework.core/src/main/java/net/dempsy/Manager.java:86-90 | with several candidates only the first matters: extra candidates never cause a failure and never change the instance |
| `PluginManager.Manager.constructor` | dempsy-framework.core/src/main/java/net/dempsy/Manager.java:22-27 | a new registry has an empty table and has scanned nothing |
| `PluginManager.Manager.GetAssociatedInstance` | dempsy-framework.core/src/main/java/net/dempsy/Manager.java:29-48 | result and new table are those of Lookup on the old table; the scan log grows by the id exactly when the id was not registered |
| `PluginManager.Manager.MakeInstance` | dempsy-framework.core/src/main/java/net/dempsy/Manager.java:50-106 | runs discovery once for the id (logged) and returns Materialize of its result; the table is untouched |
| `PluginManager.Manager.Register` | dempsy-framework.core/src/main/java/net/dempsy/Manager.java:108-115 | the table becomes Associate of the old one; the returned flag, the event the source logs, is true iff an entry was overwritten; no discovery |
| `Scheduling.AutoDisposeSingleThreadScheduler.constructor` | dempsy-framework.impl/src/main/java/net/dempsy/utils/AutoDisposeSingleThreadScheduler.java:53-55 | a new scheduler is valid, with count 0, no executor and no tasks |
| `Scheduling.AutoDisposeSingleThreadScheduler.Schedule` | dempsy-framework.impl/src/main/java/net/dempsy/utils/AutoDisposeSingleThreadScheduler.java:57-61 | the count grows by exactly 1; the handle holds a fresh proxy, not decremented, and a fresh waiting future; an executor exists afterwards, the old one if there was one, a new one otherwise; the invariant is kept |
| `Scheduling.AutoDisposeSingleThreadScheduler.GetScheduledExecutor` | dempsy-framework.impl/src/main/java/net/dempsy/utils/AutoDisposeSingleThreadScheduler.java:63-70 | returns the existing executor unchanged, or creates a live one only when there was none |
| `Scheduling.AutoDisposeSingleThreadScheduler.DisposeOfScheduler` | dempsy-framework.impl/src/main/java/net/dempsy/utils/AutoDisposeSingleThreadScheduler.java:72-76 | afterwards there is no executor and the previous one, if any, is shut down; calling it with no executor leaves none (idempotent) |
| `Scheduling.AutoDisposeSingleThreadScheduler.Decrement` | dempsy-framework.impl/src/main/java/net/dempsy/utils/AutoDisposeSingleThreadScheduler.java:97-99 | the first decrement of a task lowers the count by 1 and returns the new count; any later one returns Long.MAX_VALUE and leaves the count unchanged; the count still equals the number of undecremented tasks |
| `Scheduling.AutoDisposeSingleThreadScheduler.Cancel` | dempsy-framework.impl/src/main/java/net/dempsy/utils/AutoDisposeSingleThreadScheduler.java:42-46 | a waiting future becomes cancelled; the count drops by 1 only if the task had not been decremented; when the count reaches 0 the executor is shut down and dropped, otherwise it is kept; the invariant is kept |
| `Scheduling.AutoDisposeSingleThreadScheduler.IsDone` | dempsy-framework.impl/src/main/java/net/dempsy/utils/AutoDisposeSingleThreadScheduler.java:48-50 | a task is done exactly when it has given back its count; a task not done keeps the count positive and an executor alive |
| `Scheduling.AutoDisposeSingleThreadScheduler.Run` | dempsy-framework.impl/src/main/java/net/dempsy/utils/AutoDisposeSingleThreadScheduler.java:86-95 | the task is decremented exactly once, even when the callback throws or cancels itself; the count ends at old - 1, plus 1 if the callback rescheduled; the executor is disposed exactly when the count ends at 0 and is otherwise kept, except when the last pending task cancels itself and then reschedules: that cancel disposes the executor and the reschedule runs on a fresh one; an executor that is replaced or dropped has been shut down |
| `Scheduling.CancelThenRescheduleReplacesExecutor` | dempsy-framework.impl/src/main/java/net/dempsy/utils/AutoDisposeSingleThreadScheduler.java:42-45 | with one task pending, a callback that cancels itself and then reschedules leaves the first executor shut down, a different live executor, and a count of 1 |
| `Scheduling.RunAllScheduled` | dempsy-framework.impl/src/main/java/net/dempsy/utils/AutoDisposeSingleThreadScheduler.java:57-99 | scheduling n callbacks and firing each once returns n handles, each with its future run and its count given back; the count is back to 0, no executor is left and the one that was created is shut down |
| `BlockingQueueTransport.CacheAfter` | dempsy-framework.impl/src/main/java/net/dempsy/transport/blockingqueue/BlockingQueueSenderFactory.java:39-47 | a cached destination keeps its sender and the cache is unchanged; an uncached one gets the new sender; the keys grow by the destination only; no other entry changes |
| `BlockingQueueTransport.ReplayKeepsAndAdds` | dempsy-framework.impl/src/main/java/net/dempsy/transport/blockingqueue/BlockingQueueSenderFactory.java:29-44 | after any run of getSender calls that return a sender, the cached addresses are exactly the earlier ones plus the requested ones, and no sender cached earlier is replaced |
| `BlockingQueueTransport.SameAddressSameSender` | dempsy-framework.impl/src/main/java/net/dempsy/transport/blockingqueue/BlockingQueueSenderFactory.java:39-47 | two calls for the same address, in a run of getSender calls that return a sender, return the same sender, the one cached at the end; constructions are numbered by call, so a factory that built a new sender on every call would not satisfy this |
| `BlockingQueueTransport.FirstRequestBuildsSender` | dempsy-framework.impl/src/main/java/net/dempsy/transport/blockingqueue/BlockingQueueSenderFactory.java:40-44 | for an address not cached before, every later call returns the sender constructed by the first call that named it, not one constructed later |
| `BlockingQueueTransport.ConstructedOnce` | dempsy-framework.impl/src/main/java/net/dempsy/transport/blockingqueue/BlockingQueueSenderFactory.java:40-44 | a run of getSender calls that return a sender builds senders for distinct addresses only, none already cached, and exactly for the addresses it added to the cache |
| `BlockingQueueTransport.BlockingQueueSender.constructor` | dempsy-framework.impl/src/main/java/net/dempsy/transport/blockingqueue/BlockingQueueSenderFactory.java:42 | a new sender is bound to the destination's queue and the factory's blocking flag, and is open |
| `BlockingQueueTransport.BlockingQueueSenderFactory.constructor` | dempsy-framework.impl/src/main/java/net/dempsy/transport/blockingqueue/BlockingQueueSenderFactory.java:29-36 | a new factory has an empty cache and the given blocking flag |
| `BlockingQueueTransport.BlockingQueueSenderFactory.GetSender` | dempsy-framework.impl/src/main/java/net/dempsy/transport/blockingqueue/BlockingQueueSenderFactory.java:38-47 | a cached address returns its sender and changes nothing; an uncached blocking-queue address gets one fresh open sender bound to its queue and the factory's flag, and the cache becomes CacheAfter; another transport's address is a cast failure that caches nothing; only blocking-queue addresses are ever cached |
| `BlockingQueueTransport.BlockingQueueSenderFactory.Close` | dempsy-framework.impl/src/main/java/net/dempsy/transport/blockingqueue/BlockingQueueSenderFactory.java:49-53 | every cached sender is closed; the cache keeps every entry |
| `BlockingQueueTransport.CloseKeepsCache` | dempsy-framework.impl/src/main/java/net/dempsy/transport/blockingqueue/BlockingQueueSenderFactory.java:39-53 | after close, a known address still gets its old, now closed, sender and a new address gets a new open one |

## Left out

- Classpath scanning with Reflections, the helper thread, the global lock on `Manager.class` and the `Thread.yield` busy-wait (Manager.java:55-83) are foreign code and thread plumbing. The `discover` oracle stands in for them. Its result lists the classes of the returned set in iteration order, each once.
- `register(id, null)` is not modelled; instances are never null. In the source a null entry reads as absent, so a later lookup would run discovery.
- Logging is left out (SLF4J trace, info, warn and error calls). The overwrite event of `register` is returned as a flag. The warning for several candidates has no counterpart; `FirstCandidateWins` states that extra candidates never cause a failure and never change the instance: the outcome is the first candidate's.
- Exception messages and the `clazz` used to name the capability in them are left out.
- The JDK `ScheduledExecutorService` is reduced to live or shut down. Delays, `TimeUnit`, thread names, `baseThreadName` and the `sequence` counter are left out. Firing order is not modelled: `Run` may fire any waiting task.
- `future.cancel(false)` and `isDone` are reduced to the future's state: cancelling a waiting future makes it cancelled and done; a finished future stays as it was.
- Scheduling.AutoDisposeSingleThreadScheduler.Run: the callback is one of a fixed set of behaviours: it may schedule once, cancel its own handle once (before or after that schedule), and throw. Callbacks that schedule several tasks, cancel other handles, or cancel themselves both before and after scheduling are not modelled within one `Run`.
- Real concurrency is not modelled. In `Cancel` and `Run`, the decrement and the disposal it triggers are consecutive steps. A `schedule` from another thread that lands between a decrement to 0 and the disposal is not modelled.
- The `long` counter's overflow is not modelled (`pendingCalls` is an unbounded integer).
- A failure of the `BlockingQueueSender` constructor is not modelled; that class is not part of this model. `getSender` declares `MessageTransportException`, and since the `put` follows the construction, such a failure would cache nothing. A null destination (a `NullPointerException` at the cast) is not modelled either: addresses are never null.
- `Replay` models runs of calls that return a sender. A call that fails the cast caches nothing (`GetSender`) and is not a step of `Replay`.
- `StatsCollector`, message sending, and the internals of `BlockingQueueSender` are left out. A sender is reduced to its queue, its blocking flag and whether it was closed.
- Equality of `NodeAddress` is value equality on the queue it names. The address classes are not part of this model.
- `RoutingStrategy` and its `MpContainerAddress` (RoutingStrategy.java:21-35) have no implementation in the source, so the model has no routing or dispatcher. `DempsyBaseTest.java` and the NIO transport's `Factory.java` are not part of this model.
