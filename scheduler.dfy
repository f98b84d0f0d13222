/**
 * The reference-counted, self-disposing scheduler
 * (AutoDisposeSingleThreadScheduler). Every scheduled callback adds one to
 * a pending count; running or cancelling it gives that one back, at most
 * once per task. The single-threaded executor is created lazily by the
 * first schedule and shut down when the count returns to zero.
 *
 * Each synchronized method or atomic operation of the source is one step
 * here. The executor is reduced to "live or shut down", a scheduled future
 * to its state, and a callback to what it does to the scheduler.
 */
module Scheduling {

  datatype Option<T> = None | Some(value: T)

  /** Long.MAX_VALUE: what a second decrement of the same task returns. */
  const LongMaxValue: int := 0x7FFF_FFFF_FFFF_FFFF

  /** The single-threaded scheduled executor; only shutdown is observable here. */
  class Executor {
    var isShutdown: bool

    constructor ()
      ensures !isShutdown
    {
      isShutdown := false;
    }

    method Shutdown()
      modifies this
      ensures isShutdown
    {
      isShutdown := true;
    }

    /** schedule(proxy, delay, unit): a new future, waiting to fire the proxy. */
    method Submit(proxy: RunnableProxy) returns (f: ScheduledFuture)
      ensures fresh(f) && f.task == proxy && f.state == Waiting
    {
      f := new ScheduledFuture(proxy);
    }
  }

  /** Wraps a scheduled callback; `decremented` is set once the task has given back its count. */
  class RunnableProxy {
    var decremented: bool

    constructor ()
      ensures !decremented
    {
      decremented := false;
    }
  }

  datatype FutureState = Waiting | Ran | Cancelled

  /** The executor's handle on a scheduled proxy. */
  class ScheduledFuture {
    const task: RunnableProxy
    var state: FutureState

    constructor (task: RunnableProxy)
      ensures this.task == task && state == Waiting
    {
      this.task := task;
      state := Waiting;
    }

    /** cancel(false): a task that has not fired never will; a finished one stays as it was. */
    method Cancel()
      modifies this
      ensures state == if old(state) == Waiting then Cancelled else old(state)
    {
      if state == Waiting {
        state := Cancelled;
      }
    }
  }

  /** The handle schedule returns to its caller. */
  datatype Cancelable = Cancelable(runnable: RunnableProxy, future: ScheduledFuture)

  class AutoDisposeSingleThreadScheduler {
    var pendingCalls: int
    var scheduler: Executor?
    /** Every future this scheduler has handed out, and the proxies they wrap. */
    ghost var tasks: set<ScheduledFuture>
    ghost var proxies: set<RunnableProxy>

    /** The scheduled tasks that still hold a count. */
    ghost function Outstanding(): set<RunnableProxy>
      reads this`proxies, proxies
    {
      set p | p in proxies && !p.decremented
    }

    /** The pending count is the number of tasks not yet decremented. */
    ghost predicate Counted()
      reads this`pendingCalls, this`proxies, proxies
    {
      pendingCalls == |Outstanding()|
    }

    /** `c` was handed out by this scheduler. */
    ghost predicate Issued(c: Cancelable)
      reads this`tasks
    {
      c.future in tasks && c.future.task == c.runnable
    }

    /** Each future wraps a proxy of this scheduler, and no two futures share one. */
    ghost predicate Wrapped()
      reads this`tasks, this`proxies
    {
      && (forall f :: f in tasks ==> f.task in proxies)
      && (forall f, g :: f in tasks && g in tasks && f.task == g.task ==> f == g)
    }

    /** A task has given back its count exactly when its future is done. */
    ghost predicate Settled()
      reads this`tasks, this`proxies, tasks, proxies
    {
      forall f :: f in tasks && f.task in proxies ==> (f.task.decremented <==> f.state != Waiting)
    }

    /** The executor exists exactly while something is pending, and is live. */
    ghost predicate ExecutorMatchesCount()
      reads this`pendingCalls, this`scheduler, scheduler
    {
      && (scheduler != null <==> pendingCalls > 0)
      && (scheduler != null ==> !scheduler.isShutdown)
    }

    ghost predicate Valid()
      reads this, scheduler, tasks, proxies
    {
      Counted() && Wrapped() && Settled() && ExecutorMatchesCount()
    }

    constructor ()
      ensures Valid() && tasks == {} && pendingCalls == 0 && scheduler == null
    {
      pendingCalls := 0;
      scheduler := null;
      tasks := {};
      proxies := {};
    }

    /** schedule: count the new task, make sure an executor exists, hand the proxy to it. */
    method Schedule() returns (c: Cancelable)
      requires Valid()
      modifies this
      ensures Valid() && Issued(c)
      ensures pendingCalls == old(pendingCalls) + 1
      ensures fresh(c.runnable) && fresh(c.future)
      ensures !c.runnable.decremented && c.future.state == Waiting
      ensures tasks == old(tasks) + {c.future} && proxies == old(proxies) + {c.runnable}
      ensures scheduler != null
      ensures old(scheduler) != null ==> scheduler == old(scheduler)
      ensures old(scheduler) == null ==> fresh(scheduler)
    {
      pendingCalls := pendingCalls + 1;
      var proxy := new RunnableProxy();
      var executor := GetScheduledExecutor();
      var future := executor.Submit(proxy);
      Enroll(future);
      c := Cancelable(proxy, future);
    }

    /** Bookkeeping for schedule: the count was already raised; record the new task so that it matches again. */
    ghost method Enroll(f: ScheduledFuture)
      requires pendingCalls == |Outstanding()| + 1 && Wrapped() && Settled()
      requires f !in tasks && f.task !in proxies && !f.task.decremented && f.state == Waiting
      modifies this`tasks, this`proxies
      ensures Counted() && Wrapped() && Settled()
      ensures tasks == old(tasks) + {f} && proxies == old(proxies) + {f.task}
    {
      ghost var before := Outstanding();
      tasks, proxies := tasks + {f}, proxies + {f.task};
      assert Outstanding() == before + {f.task};
    }

    /** getScheduledExecutor: reuse the executor, or create one when there is none. */
    method GetScheduledExecutor() returns (e: Executor)
      modifies this
      ensures e == scheduler
      ensures old(scheduler) != null ==> e == old(scheduler)
      ensures old(scheduler) == null ==> fresh(e) && !e.isShutdown
      ensures pendingCalls == old(pendingCalls) && tasks == old(tasks) && proxies == old(proxies)
    {
      if scheduler == null {
        scheduler := new Executor();
      }
      e := scheduler;
    }

    /** disposeOfScheduler: shut the executor down, if any, and forget it. */
    method DisposeOfScheduler()
      modifies this, scheduler
      ensures scheduler == null
      ensures old(scheduler) != null ==> old(scheduler).isShutdown
      ensures pendingCalls == old(pendingCalls) && tasks == old(tasks) && proxies == old(proxies)
    {
      if scheduler != null {
        scheduler.Shutdown();
      }
      scheduler := null;
    }

    /**
     * RunnableProxy.decrement: the first call gives back the task's count
     * and returns the new count; every later call returns Long.MAX_VALUE
     * and changes nothing.
     */
    method Decrement(p: RunnableProxy) returns (v: int)
      requires Counted() && p in proxies
      modifies this, p
      ensures Counted() && p.decremented
      ensures tasks == old(tasks) && proxies == old(proxies) && scheduler == old(scheduler)
      ensures old(p.decremented) ==> v == LongMaxValue && pendingCalls == old(pendingCalls)
      ensures !old(p.decremented) ==> pendingCalls == old(pendingCalls) - 1 && v == pendingCalls
    {
      ghost var before := Outstanding();
      var was := p.decremented;
      p.decremented := true;
      if was {
        v := LongMaxValue;
      } else {
        pendingCalls := pendingCalls - 1;
        v := pendingCalls;
        assert Outstanding() == before - {p};
      }
    }

    /** Cancelable.cancel: cancel the future, give back the count, dispose when it reaches 0. */
    method Cancel(c: Cancelable)
      requires Valid() && Issued(c)
      modifies this, scheduler, c.runnable, c.future
      ensures Valid() && Issued(c)
      ensures c.runnable.decremented
      ensures c.future.state == if old(c.future.state) == Waiting then Cancelled else old(c.future.state)
      ensures tasks == old(tasks) && proxies == old(proxies)
      ensures pendingCalls == if old(c.runnable.decremented) then old(pendingCalls) else old(pendingCalls) - 1
      ensures scheduler == if pendingCalls == 0 then null else old(scheduler)
      ensures old(scheduler) != null && scheduler == null ==> old(scheduler).isShutdown
    {
      c.future.Cancel();
      var v := Decrement(c.runnable);
      if v == 0 {
        DisposeOfScheduler();
      }
    }

    /** Cancelable.isDone: the future has fired or been cancelled, which is exactly when the task has given back its count. */
    method IsDone(c: Cancelable) returns (done: bool)
      requires Valid() && Issued(c)
      ensures done <==> c.runnable.decremented
      ensures !done ==> pendingCalls > 0 && scheduler != null
    {
      done := c.future.state != Waiting;
      if !done {
        assert c.runnable in Outstanding();
      }
    }

    /**
     * RunnableProxy.run, fired by the executor: the callback runs, then,
     * in a finally block, the task gives back its count and the executor
     * is disposed if the count reached 0. The callback is described by
     * what it does here: it may schedule one more task (`rearm`), cancel
     * its own handle (`cancelSelf`), before or after rescheduling
     * (`cancelFirst`), and throw (`throws`); the exception reaches the
     * executor after the decrement.
     *
     * When the callback of the last pending task cancels itself first and
     * then reschedules, the cancel gives back the last count and disposes
     * the executor, so the reschedule runs on a new one (`Replaced`).
     */
    method Run(c: Cancelable, rearm: bool, cancelSelf: bool, cancelFirst: bool, throws: bool)
      returns (next: Option<Cancelable>, raised: bool)
      requires Valid() && Issued(c) && c.future.state == Waiting
      modifies this, scheduler, c.runnable, c.future
      ensures Valid() && Issued(c)
      ensures raised == throws
      ensures c.runnable.decremented
      ensures c.future.state == if cancelSelf then Cancelled else Ran
      ensures pendingCalls == old(pendingCalls) - 1 + (if rearm then 1 else 0)
      ensures next.Some? <==> rearm
      ensures next.Some? ==> Issued(next.value) && fresh(next.value.runnable) && fresh(next.value.future) &&
                             next.value.future.state == Waiting && tasks == old(tasks) + {next.value.future} &&
                             proxies == old(proxies) + {next.value.runnable}
      ensures next.None? ==> tasks == old(tasks) && proxies == old(proxies)
      ensures !Replaced(old(pendingCalls), rearm, cancelSelf, cancelFirst) ==>
                scheduler == if pendingCalls == 0 then null else old(scheduler)
      ensures Replaced(old(pendingCalls), rearm, cancelSelf, cancelFirst) ==>
                scheduler != null && fresh(scheduler)
      ensures old(scheduler) != null && scheduler != old(scheduler) ==> old(scheduler).isShutdown
    {
      assert c.runnable in Outstanding();
      // the callback
      next := None;
      if cancelSelf && cancelFirst {
        Cancel(c);
      }
      if rearm {
        var h := Schedule();
        next := Some(h);
      }
      if cancelSelf && !cancelFirst {
        Cancel(c);
      }
      raised := throws;
      // finally
      var v := Decrement(c.runnable);
      if v == 0 {
        DisposeOfScheduler();
      }
      if c.future.state == Waiting {
        c.future.state := Ran;
      }
    }
  }

  /**
   * Whether a run whose task was the last of `pending` ones ends on a new
   * executor: its callback cancels its own handle, which gives back the
   * last count and disposes the executor, and only then reschedules.
   */
  predicate Replaced(pending: int, rearm: bool, cancelSelf: bool, cancelFirst: bool)
  {
    pending == 1 && rearm && cancelSelf && cancelFirst
  }

  /**
   * Schedules n callbacks and lets each fire once, none rescheduling or
   * cancelling: every callback has run and given back its count, the
   * pending count returns to 0, no executor is left, and the one that was
   * created has been shut down.
   */
  method RunAllScheduled(n: nat) returns (handles: seq<Cancelable>, pending: int, live: bool, shutDown: bool)
    ensures |handles| == n
    ensures forall i :: 0 <= i < n ==> handles[i].future.state == Ran && handles[i].runnable.decremented
    ensures pending == 0 && !live
    ensures n > 0 ==> shutDown
  {
    var s := new AutoDisposeSingleThreadScheduler();
    handles := [];
    while |handles| < n
      invariant s.Valid() && |handles| <= n
      invariant s.pendingCalls == |handles|
      invariant forall i :: 0 <= i < |handles| ==> s.Issued(handles[i]) && handles[i].future.state == Waiting
      invariant forall i, j :: 0 <= i < j < |handles| ==> handles[i].future != handles[j].future
      invariant |handles| > 0 ==> s.scheduler != null
      invariant fresh(s) && (s.scheduler == null || fresh(s.scheduler))
      invariant forall i :: 0 <= i < |handles| ==> fresh(handles[i].runnable) && fresh(handles[i].future)
    {
      var c := s.Schedule();
      handles := handles + [c];
    }
    var first := s.scheduler;
    var ran := 0;
    while ran < n
      invariant s.Valid() && ran <= n
      invariant s.pendingCalls == n - ran
      invariant forall i :: 0 <= i < n ==> s.Issued(handles[i])
      invariant forall i :: ran <= i < n ==> handles[i].future.state == Waiting
      invariant forall i :: 0 <= i < ran ==> handles[i].future.state == Ran && handles[i].runnable.decremented
      invariant forall i, j :: 0 <= i < j < |handles| ==> handles[i].future != handles[j].future
      invariant ran < n ==> s.scheduler == first
      invariant n > 0 ==> first != null
      invariant n > 0 && ran == n ==> first.isShutdown
      invariant fresh(s) && (first == null || fresh(first))
      invariant forall i :: 0 <= i < n ==> fresh(handles[i].runnable) && fresh(handles[i].future)
    {
      var next, raised := s.Run(handles[ran], false, false, false, false);
      ran := ran + 1;
    }
    pending := s.pendingCalls;
    live := s.scheduler != null;
    shutDown := first != null && first.isShutdown;
  }

  /**
   * The last pending task's callback cancels its own handle and then
   * reschedules: the cancel disposes the executor, the reschedule creates a
   * new one, and the decrement in the finally block gives back nothing more.
   */
  method CancelThenRescheduleReplacesExecutor() returns (oldShutDown: bool, newLive: bool, pending: int)
    ensures oldShutDown && newLive && pending == 1
  {
    var s := new AutoDisposeSingleThreadScheduler();
    var c := s.Schedule();
    var e := s.scheduler;
    var next, raised := s.Run(c, true, true, true, false);
    oldShutDown := e.isShutdown;
    newLive := s.scheduler != null && s.scheduler != e && !s.scheduler.isShutdown;
    pending := s.pendingCalls;
  }
}
