/** `PrioritySchedulerLimiter`: caps how many of the tasks submitted through it
    run at once on an underlying priority scheduler. A submission either runs
    at once, when a slot is free, or waits in a FIFO queue that
    `ConsumeAvailable` drains as slots free up. */
module Limiter {
  import opened Common
  import opened Futures
  import opened Tasks
  import opened Scheduling
  import opened Admission

  /** The argument checks of `schedule` and `submitScheduled`: the task first,
      then the delay. */
  function CheckDelayed(taskPresent: bool, delayInMs: int): (o: Outcome)
    ensures o.Pass? <==> taskPresent && delayInMs >= 0
    ensures !taskPresent ==> o == Fail(NullTask)
    ensures taskPresent && delayInMs < 0 ==> o == Fail(NegativeDelay)
  {
    if !taskPresent then Fail(NullTask)
    else if delayInMs < 0 then Fail(NegativeDelay)
    else Pass
  }

  /** The argument checks of `scheduleWithFixedDelay`: task, initial delay,
      recurring delay, in that order. */
  function CheckFixedDelay(taskPresent: bool, initialDelay: int, recurringDelay: int): (o: Outcome)
    ensures o.Pass? <==> taskPresent && initialDelay >= 0 && recurringDelay >= 0
    ensures !taskPresent ==> o == Fail(NullTask)
    ensures taskPresent && initialDelay < 0 ==> o == Fail(NegativeInitialDelay)
    ensures taskPresent && initialDelay >= 0 && recurringDelay < 0 ==> o == Fail(NegativeRecurringDelay)
  {
    if !taskPresent then Fail(NullTask)
    else if initialDelay < 0 then Fail(NegativeInitialDelay)
    else if recurringDelay < 0 then Fail(NegativeRecurringDelay)
    else Pass
  }

  /** Call `c` is the one the drain makes for wrapper `w`, and `w`'s future
      (if any) is bound to the future that call returned. */
  ghost predicate Dispatched(c: Call, w: Wrapper)
    reads w.FutureSet()
  {
    if !w.HasFuture() then
      c == Executed(w.GetRunnable().value, w.GetPriority())
    else if w.IsCallable() then
      && c.SubmittedCallable?
      && c.callable == w.GetCallable().value
      && c.priority == w.GetPriority()
      && w.Future().parent == Some(c.future)
    else
      && c.SubmittedRunnable?
      && c.task == w.GetRunnable().value
      && c.result == None
      && c.priority == w.GetPriority()
      && w.Future().parent == Some(c.future)
  }

  /** `log` is `log0` followed by one drain call per wrapper of `ws`, in order. */
  ghost predicate DrainedInto(log0: seq<Call>, log: seq<Call>, ws: seq<Wrapper>)
    reads FuturesOf(ws)
  {
    && |log| == |log0| + |ws|
    && log[..|log0|] == log0
    // `ws[i] in ws` tells the reads check that `ws[i]`'s future is in `FuturesOf(ws)`
    && forall i | 0 <= i < |ws| :: ws[i] in ws && Dispatched(log[|log0| + i], ws[i])
  }

  /** One more dispatch extends a drained prefix. */
  lemma DrainedIntoSnoc(log0: seq<Call>, log1: seq<Call>, log2: seq<Call>, ws: seq<Wrapper>, w: Wrapper)
    requires DrainedInto(log0, log1, ws)
    requires |log2| == |log1| + 1 && log2[..|log1|] == log1
    requires Dispatched(log2[|log1|], w)
    ensures DrainedInto(log0, log2, ws + [w])
  {
    var ws' := ws + [w];
    assert log2[..|log0|] == log1[..|log0|];
    forall i | 0 <= i < |ws'|
      ensures ws'[i] in ws' && Dispatched(log2[|log0| + i], ws'[i])
    {
      if i < |ws| {
        assert ws'[i] == ws[i] && log2[|log0| + i] == log1[|log0| + i];
        assert ws[i] in ws;
      }
    }
  }

  function Last<T>(s: seq<T>): T
    requires |s| > 0
  {
    s[|s| - 1]
  }

  /** The call `doSubmit` makes on its fast path: the runnable wrapper goes
      with the caller's result, the callable wrapper on its own. */
  function SubmitCall(w: Wrapper, result: Option<Value>, f: ListenableFuture): Call {
    if w.IsCallable() then SubmittedCallable(WrappedCallable(w), w.priority, f)
    else SubmittedRunnable(Wrapped(w), result, w.priority, f)
  }

  class PrioritySchedulerLimiter {
    const scheduler: PriorityScheduler
    const maxConcurrency: nat
    const subPoolName: Option<string>
    /** Slots taken (the superclass's counter). */
    var running: int
    /** `waitingTasks`: wrappers waiting for a slot, head first. */
    var waitingTasks: seq<Wrapper>
    /** Every wrapper submitted for immediate admission, in order. */
    ghost var submitted: seq<Wrapper>
    /** Every wrapper handed to the scheduler, in order. */
    ghost var admitted: seq<Wrapper>

    ghost function QueuedFutures(): set<FutureFuture>
      reads this
    {
      FuturesOf(waitingTasks)
    }

    /** What holds between drains: the slot bound, admission in submission
        order, and waiting futures that are distinct and still unbound. */
    ghost predicate QueueInvariant()
      reads this, QueuedFutures()
    {
      && 0 < maxConcurrency
      && running <= maxConcurrency
      && submitted == admitted + waitingTasks
      && FuturesDistinct(waitingTasks)
      && Unbound(waitingTasks)
    }

    /** The limiter's invariant: besides the above, a wrapper waits only while
        every slot is taken. */
    ghost predicate Valid()
      reads this, QueuedFutures()
    {
      QueueInvariant() && (waitingTasks != [] ==> running == maxConcurrency)
    }

    /** `w` went straight to the scheduler as call `c`; nothing was waiting. */
    twostate predicate RanImmediately(new w: Wrapper, new c: Call)
      reads this, scheduler
    {
      && old(running) < maxConcurrency
      && running == old(running) + 1
      && waitingTasks == old(waitingTasks) == []
      && submitted == old(submitted) + [w]
      && admitted == old(admitted) + [w]
      && scheduler.log == old(scheduler.log) + [c]
    }

    /** `w` was appended to the tail of the queue; nothing was dispatched. */
    twostate predicate Enqueued(new w: Wrapper)
      reads this, scheduler
    {
      && old(running) >= maxConcurrency
      && running == old(running)
      && waitingTasks == old(waitingTasks) + [w]
      && submitted == old(submitted) + [w]
      && admitted == old(admitted)
      && scheduler.log == old(scheduler.log)
    }

    /** The immediate path for a wrapper without a future, as `execute` takes it. */
    twostate predicate Admitted(new w: Wrapper)
      reads this, scheduler
    {
      if old(running) < maxConcurrency then RanImmediately(w, Executed(Wrapped(w), w.priority))
      else Enqueued(w)
    }

    /** The immediate path for a wrapper with future `ff`, as `doSubmit` takes it. */
    twostate predicate AdmittedWithFuture(new w: Wrapper, new ff: FutureFuture, result: Option<Value>)
      reads this, scheduler, ff
    {
      if old(running) < maxConcurrency then
        ff.parent.Some? && RanImmediately(w, SubmitCall(w, result, ff.parent.value))
      else
        ff.parent == None && Enqueued(w)
    }

    /** Only call `c` was made on the scheduler; no slot was taken, nothing queued. */
    twostate predicate ScheduledOnly(new c: Call)
      reads this, scheduler
    {
      && running == old(running)
      && waitingTasks == old(waitingTasks)
      && submitted == old(submitted)
      && admitted == old(admitted)
      && scheduler.log == old(scheduler.log) + [c]
    }

    /** The priority a submission uses: the one given, or the scheduler's
        default when none is. */
    function EffectivePriority(priority: Option<Priority>): Priority {
      priority.GetOr(scheduler.defaultPriority)
    }

    constructor (scheduler: PriorityScheduler, maxConcurrency: nat, subPoolName: Option<string>)
      requires maxConcurrency > 0
      ensures Valid()
      ensures this.scheduler == scheduler && this.maxConcurrency == maxConcurrency && this.subPoolName == subPoolName
      ensures running == 0 && waitingTasks == [] && submitted == [] && admitted == []
    {
      this.scheduler := scheduler;
      this.maxConcurrency := maxConcurrency;
      this.subPoolName := subPoolName;
      running := 0;
      waitingTasks := [];
      submitted := [];
      admitted := [];
    }

    /** The constructor with its argument checks: the concurrency bound is
        checked first (by the superclass), then the scheduler. */
    static method Create(scheduler: PriorityScheduler?, maxConcurrency: int, subPoolName: Option<string>)
      returns (r: Result<PrioritySchedulerLimiter>)
      ensures maxConcurrency < 1 ==> r == Failure(NonPositiveConcurrency)
      ensures maxConcurrency >= 1 && scheduler == null ==> r == Failure(NullScheduler)
      ensures r.Success? <==> maxConcurrency >= 1 && scheduler != null
      ensures r.Success? ==> fresh(r.value) && r.value.Valid() && r.value.scheduler == scheduler
      ensures r.Success? ==> r.value.maxConcurrency == maxConcurrency && r.value.running == 0 && r.value.waitingTasks == []
    {
      if maxConcurrency < 1 {
        return Failure(NonPositiveConcurrency);
      }
      if scheduler == null {
        return Failure(NullScheduler);
      }
      var l := new PrioritySchedulerLimiter(scheduler, maxConcurrency, subPoolName);
      r := Success(l);
    }

    /** `canRunTask()` (assumed): take a slot if one is free. */
    method CanRunTask() returns (ok: bool)
      modifies this`running
      ensures ok <==> old(running) < maxConcurrency
      ensures running == if ok then old(running) + 1 else old(running)
    {
      ok := running < maxConcurrency;
      if ok {
        running := running + 1;
      }
    }

    /** One iteration's dispatch in `consumeAvailable`: the route depends on
        whether the wrapper has a future and whether it is callable. */
    method Dispatch(w: Wrapper)
      modifies scheduler, w.FutureSet()
      ensures |scheduler.log| == |old(scheduler.log)| + 1
      ensures scheduler.log[..|old(scheduler.log)|] == old(scheduler.log)
      ensures Dispatched(scheduler.log[|old(scheduler.log)|], w)
    {
      if w.HasFuture() {
        if w.IsCallable() {
          var f := scheduler.SubmitCallable(w.GetCallable().value, w.GetPriority());
          w.Future().SetParentFuture(f);
        } else {
          var f := scheduler.Submit(w.GetRunnable().value, None, w.GetPriority());
          w.Future().SetParentFuture(f);
        }
      } else {
        RoutingIsTotal(w);
        scheduler.Execute(w.GetRunnable().value, w.GetPriority());
      }
    }

    /** The body of the drain loop once a slot is taken: poll the head of the
        queue and dispatch it. `done` are the wrappers this drain already
        dispatched after `log0`. */
    method DispatchHead(ghost log0: seq<Call>, ghost done: seq<Wrapper>)
      requires QueueInvariant() && waitingTasks != []
      requires FuturesDistinct(done + waitingTasks)
      requires DrainedInto(log0, scheduler.log, done)
      modifies this`waitingTasks, this`admitted, this`submitted, scheduler, waitingTasks[0].FutureSet()
      ensures QueueInvariant()
      ensures waitingTasks == old(waitingTasks)[1..]
      ensures admitted == old(admitted) + [old(waitingTasks)[0]]
      ensures submitted == old(submitted)
      ensures DrainedInto(log0, scheduler.log, done + [old(waitingTasks)[0]])
    {
      var next := waitingTasks[0];
      ghost var before := scheduler.log;
      DistinctHead(waitingTasks);
      DistinctPrefix(done + waitingTasks, |done|);
      assert (done + waitingTasks)[..|done|] == done;
      assert (done + waitingTasks)[|done|] == next;
      waitingTasks := waitingTasks[1..];
      admitted := admitted + [next];
      assert Unbound(waitingTasks);
      Dispatch(next);
      DrainedIntoSnoc(log0, before, scheduler.log, done, next);
    }

    /** `consumeAvailable()`: while the queue is non-empty and a slot can be
        taken, pop the head and dispatch it. */
    method ConsumeAvailable()
      requires QueueInvariant()
      modifies this, scheduler, QueuedFutures()
      ensures Valid()
      ensures submitted == old(submitted)
      ensures var k := DrainCount(|old(waitingTasks)|, old(running), maxConcurrency);
        && waitingTasks == old(waitingTasks)[k..]
        && running == old(running) + k
        && admitted == old(admitted) + old(waitingTasks)[..k]
        && DrainedInto(old(scheduler.log), scheduler.log, old(waitingTasks)[..k])
    {
      ghost var q0, log0, r0 := waitingTasks, scheduler.log, running;
      ghost var a0 := admitted;
      ghost var done := 0;
      while true
        invariant QueueInvariant()
        invariant submitted == old(submitted)
        invariant 0 <= done <= |q0| && waitingTasks == q0[done..]
        invariant running == r0 + done
        invariant admitted == a0 + q0[..done]
        invariant DrainCount(|q0|, r0, maxConcurrency) == done + DrainCount(|waitingTasks|, running, maxConcurrency)
        invariant DrainedInto(log0, scheduler.log, q0[..done])
        decreases |waitingTasks|
      {
        if waitingTasks == [] {
          break;
        }
        var ok := CanRunTask();
        if !ok {
          break;
        }
        FutureSetIn(q0, done);
        assert q0[..done] + waitingTasks == q0;
        DispatchHead(log0, q0[..done]);
        assert q0[..done + 1] == q0[..done] + [q0[done]];
        done := done + 1;
      }
      assert DrainCount(|waitingTasks|, running, maxConcurrency) == 0;
    }

    /** The slow path of a submission, taken after `canRunTask()` failed:
        append the wrapper to the tail of the queue, then drain in case a slot
        freed up in between (with every slot still taken, nothing moves). */
    method EnqueueAndConsume(w: Wrapper)
      requires Valid() && running >= maxConcurrency
      requires w.HasFuture() ==> w.Future().parent == None && w.Future() !in QueuedFutures()
      modifies this, scheduler, QueuedFutures(), w.FutureSet()
      ensures Valid()
      ensures Enqueued(w)
      ensures w.HasFuture() ==> w.Future().parent == None
    {
      FuturesOfAppend(waitingTasks, w);
      AppendKeepsDistinct(waitingTasks, w);
      UnboundAppend(waitingTasks, w);
      waitingTasks := waitingTasks + [w];
      submitted := submitted + [w];
      ghost var log0, q1, a0 := scheduler.log, waitingTasks, admitted;
      ConsumeAvailable();
      assert waitingTasks == q1 && admitted == a0 + [];
      assert scheduler.log == scheduler.log[..|log0|];
      assert w == waitingTasks[|waitingTasks| - 1];
    }

    /** `execute(task, priority)`. */
    method Execute(task: Option<Runnable>, priority: Option<Priority>) returns (o: Outcome)
      requires Valid()
      modifies this, scheduler, QueuedFutures()
      ensures Valid()
      ensures o.Fail? <==> task.None?
      ensures o.Fail? ==> o.error == NullTask && unchanged(this, scheduler)
      ensures o.Pass? ==> Admitted(RunnableWrapper(task.value, EffectivePriority(priority), None))
    {
      if task.None? {
        return Fail(NullTask);
      }
      var p := EffectivePriority(priority);
      var wrapper := RunnableWrapper(task.value, p, None);
      var ok := CanRunTask();
      if ok {
        scheduler.Execute(Wrapped(wrapper), p);
        submitted := submitted + [wrapper];
        admitted := admitted + [wrapper];
      } else {
        EnqueueAndConsume(wrapper);
      }
      o := Pass;
    }

    /** `doSubmit(Runnable, result, priority, ff)`. */
    method DoSubmitRunnable(task: Runnable, result: Option<Value>, p: Priority, ff: FutureFuture)
      requires Valid()
      requires ff.parent == None && ff !in QueuedFutures()
      modifies this, scheduler, QueuedFutures(), ff
      ensures Valid()
      ensures AdmittedWithFuture(RunnableWrapper(task, p, Some(ff)), ff, result)
    {
      var wrapper := RunnableWrapper(task, p, Some(ff));
      var ok := CanRunTask();
      if ok {
        var f := scheduler.Submit(Wrapped(wrapper), result, p);
        ff.SetParentFuture(f);
        submitted := submitted + [wrapper];
        admitted := admitted + [wrapper];
      } else {
        EnqueueAndConsume(wrapper);
      }
    }

    /** `doSubmit(Callable, priority, ff)`. */
    method DoSubmitCallable(task: Callable, p: Priority, ff: FutureFuture)
      requires Valid()
      requires ff.parent == None && ff !in QueuedFutures()
      modifies this, scheduler, QueuedFutures(), ff
      ensures Valid()
      ensures AdmittedWithFuture(CallableWrapper(task, p, ff), ff, None)
    {
      var wrapper := CallableWrapper(task, p, ff);
      var ok := CanRunTask();
      if ok {
        var f := scheduler.SubmitCallable(WrappedCallable(wrapper), p);
        ff.SetParentFuture(f);
        submitted := submitted + [wrapper];
        admitted := admitted + [wrapper];
      } else {
        EnqueueAndConsume(wrapper);
      }
    }

    /** `submit(task, result, priority)`; `submit(task, priority)` is this
        with no result. The future returned is the one the wrapper carries. */
    method Submit(task: Option<Runnable>, result: Option<Value>, priority: Option<Priority>)
      returns (r: Result<FutureFuture>)
      requires Valid()
      modifies this, scheduler, QueuedFutures()
      ensures Valid()
      ensures r.Failure? <==> task.None?
      ensures r.Failure? ==> r.error == NullTask && unchanged(this, scheduler)
      ensures r.Success? ==> fresh(r.value)
      ensures r.Success? ==>
        AdmittedWithFuture(RunnableWrapper(task.value, EffectivePriority(priority), Some(r.value)), r.value, result)
    {
      if task.None? {
        return Failure(NullTask);
      }
      var p := EffectivePriority(priority);
      var ff := new FutureFuture();
      DoSubmitRunnable(task.value, result, p, ff);
      r := Success(ff);
    }

    /** `submit(Callable, priority)`. */
    method SubmitCallable(task: Option<Callable>, priority: Option<Priority>) returns (r: Result<FutureFuture>)
      requires Valid()
      modifies this, scheduler, QueuedFutures()
      ensures Valid()
      ensures r.Failure? <==> task.None?
      ensures r.Failure? ==> r.error == NullTask && unchanged(this, scheduler)
      ensures r.Success? ==> fresh(r.value)
      ensures r.Success? ==>
        AdmittedWithFuture(CallableWrapper(task.value, EffectivePriority(priority), r.value), r.value, None)
    {
      if task.None? {
        return Failure(NullTask);
      }
      var p := EffectivePriority(priority);
      var ff := new FutureFuture();
      DoSubmitCallable(task.value, p, ff);
      r := Success(ff);
    }

    /** `schedule(task, delayInMs, priority)`: a zero delay is `execute`; a
        positive one hands a delayed runner to the scheduler and takes no slot. */
    method Schedule(task: Option<Runnable>, delayInMs: int, priority: Option<Priority>) returns (o: Outcome)
      requires Valid()
      modifies this, scheduler, QueuedFutures()
      ensures Valid()
      ensures o == CheckDelayed(task.Some?, delayInMs)
      ensures o.Fail? ==> unchanged(this, scheduler)
      ensures o.Pass? && delayInMs == 0 ==>
        Admitted(RunnableWrapper(task.value, EffectivePriority(priority), None))
      ensures o.Pass? && delayInMs > 0 ==>
        var p := EffectivePriority(priority);
        ScheduledOnly(Scheduled(DelayedRunnable(task.value, None, p, None), delayInMs, p))
    {
      o := CheckDelayed(task.Some?, delayInMs);
      if o.Fail? {
        return;
      }
      var p := EffectivePriority(priority);
      if delayInMs == 0 {
        var _ := Execute(task, Some(p));
      } else {
        scheduler.Schedule(DelayedRunnable(task.value, None, p, None), delayInMs, p);
      }
    }

    /** `submitScheduled(task, result, delayInMs, priority)`;
        `submitScheduled(task, delayInMs, priority)` is this with no result. */
    method SubmitScheduled(task: Option<Runnable>, result: Option<Value>, delayInMs: int, priority: Option<Priority>)
      returns (r: Result<FutureFuture>)
      requires Valid()
      modifies this, scheduler, QueuedFutures()
      ensures Valid()
      ensures r.Failure? <==> CheckDelayed(task.Some?, delayInMs).Fail?
      ensures r.Failure? ==> r.error == CheckDelayed(task.Some?, delayInMs).error && unchanged(this, scheduler)
      ensures r.Success? ==> fresh(r.value)
      ensures r.Success? && delayInMs == 0 ==>
        AdmittedWithFuture(RunnableWrapper(task.value, EffectivePriority(priority), Some(r.value)), r.value, result)
      ensures r.Success? && delayInMs > 0 ==>
        var p := EffectivePriority(priority);
        && r.value.parent == None
        && ScheduledOnly(Scheduled(DelayedRunnable(task.value, result, p, Some(r.value)), delayInMs, p))
    {
      var check := CheckDelayed(task.Some?, delayInMs);
      if check.Fail? {
        return Failure(check.error);
      }
      var p := EffectivePriority(priority);
      var ff := new FutureFuture();
      if delayInMs == 0 {
        DoSubmitRunnable(task.value, result, p, ff);
      } else {
        scheduler.Schedule(DelayedRunnable(task.value, result, p, Some(ff)), delayInMs, p);
      }
      r := Success(ff);
    }

    /** `submitScheduled(Callable, delayInMs, priority)`. */
    method SubmitScheduledCallable(task: Option<Callable>, delayInMs: int, priority: Option<Priority>)
      returns (r: Result<FutureFuture>)
      requires Valid()
      modifies this, scheduler, QueuedFutures()
      ensures Valid()
      ensures r.Failure? <==> CheckDelayed(task.Some?, delayInMs).Fail?
      ensures r.Failure? ==> r.error == CheckDelayed(task.Some?, delayInMs).error && unchanged(this, scheduler)
      ensures r.Success? ==> fresh(r.value)
      ensures r.Success? && delayInMs == 0 ==>
        AdmittedWithFuture(CallableWrapper(task.value, EffectivePriority(priority), r.value), r.value, None)
      ensures r.Success? && delayInMs > 0 ==>
        var p := EffectivePriority(priority);
        && r.value.parent == None
        && ScheduledOnly(Scheduled(DelayedCallable(task.value, p, r.value), delayInMs, p))
    {
      var check := CheckDelayed(task.Some?, delayInMs);
      if check.Fail? {
        return Failure(check.error);
      }
      var p := EffectivePriority(priority);
      var ff := new FutureFuture();
      if delayInMs == 0 {
        DoSubmitCallable(task.value, p, ff);
      } else {
        scheduler.Schedule(DelayedCallable(task.value, p, ff), delayInMs, p);
      }
      r := Success(ff);
    }

    /** `scheduleWithFixedDelay(task, initialDelay, recurringDelay, priority)`:
        the task is wrapped in a recurring wrapper, which is executed now for a
        zero initial delay and handed to a delayed runner otherwise. */
    method ScheduleWithFixedDelay(task: Option<Runnable>, initialDelay: int, recurringDelay: int,
                                  priority: Option<Priority>) returns (o: Outcome)
      requires Valid()
      modifies this, scheduler, QueuedFutures()
      ensures Valid()
      ensures o == CheckFixedDelay(task.Some?, initialDelay, recurringDelay)
      ensures o.Fail? ==> unchanged(this, scheduler)
      ensures o.Pass? && initialDelay == 0 ==>
        var p := EffectivePriority(priority);
        Admitted(RunnableWrapper(Wrapped(RecurringWrapper(task.value, recurringDelay as nat, p)), p, None))
      ensures o.Pass? && initialDelay > 0 ==>
        var p := EffectivePriority(priority);
        var rrw := RecurringWrapper(task.value, recurringDelay as nat, p);
        ScheduledOnly(Scheduled(DelayedRunnable(Wrapped(rrw), None, p, None), initialDelay, p))
    {
      o := CheckFixedDelay(task.Some?, initialDelay, recurringDelay);
      if o.Fail? {
        return;
      }
      var p := EffectivePriority(priority);
      var rrw := RecurringWrapper(task.value, recurringDelay as nat, p);
      if initialDelay == 0 {
        var _ := Execute(Some(Wrapped(rrw)), Some(p));
      } else {
        scheduler.Schedule(DelayedRunnable(Wrapped(rrw), None, p, None), initialDelay, p);
      }
    }

    /** `DelayedExecutionRunnable.run()`, when the scheduler fires the runner:
        `execute` without a future, `doSubmit` with the very same future
        otherwise. The runner fires once, so its future is still unbound. */
    method RunDelayedRunnable(runner: Runnable)
      requires Valid() && runner.DelayedRunnable?
      requires runner.future.Some? ==> runner.future.value.parent == None && runner.future.value !in QueuedFutures()
      modifies this, scheduler, QueuedFutures(), if runner.future.Some? then {runner.future.value} else {}
      ensures Valid()
      ensures runner.future.None? ==> Admitted(RunnableWrapper(runner.runnable, runner.priority, None))
      ensures runner.future.Some? ==>
        AdmittedWithFuture(RunnableWrapper(runner.runnable, runner.priority, runner.future), runner.future.value, runner.result)
    {
      if runner.future.None? {
        var _ := Execute(Some(runner.runnable), Some(runner.priority));
      } else {
        DoSubmitRunnable(runner.runnable, runner.result, runner.priority, runner.future.value);
      }
    }

    /** `DelayedExecutionCallable.run()`: `doSubmit` with the runner's future. */
    method RunDelayedCallable(runner: Runnable)
      requires Valid() && runner.DelayedCallable?
      requires runner.ff.parent == None && runner.ff !in QueuedFutures()
      modifies this, scheduler, QueuedFutures(), runner.ff
      ensures Valid()
      ensures AdmittedWithFuture(CallableWrapper(runner.callable, runner.priority, runner.ff), runner.ff, None)
    {
      DoSubmitCallable(runner.callable, runner.priority, runner.ff);
    }

    /** `handleTaskFinished()` (assumed): release the slot, then drain. From a
        full limiter exactly one waiting wrapper, the head, takes the slot. */
    method HandleTaskFinished()
      requires Valid()
      modifies this, scheduler, QueuedFutures()
      ensures Valid()
      ensures submitted == old(submitted)
      ensures old(waitingTasks) == [] ==>
        && running == old(running) - 1
        && waitingTasks == [] && admitted == old(admitted)
        && scheduler.log == old(scheduler.log)
      ensures old(waitingTasks) != [] ==>
        && running == old(running)
        && waitingTasks == old(waitingTasks)[1..]
        && admitted == old(admitted) + [old(waitingTasks)[0]]
        && DrainedInto(old(scheduler.log), scheduler.log, [old(waitingTasks)[0]])
    {
      ghost var q0, log0 := waitingTasks, scheduler.log;
      running := running - 1;
      ConsumeAvailable();
      if q0 == [] {
        assert scheduler.log == scheduler.log[..|log0|];
      } else {
        ReleaseDrainsOne(|q0|, maxConcurrency);
        assert q0[..1] == [q0[0]];
      }
    }

    /** `RecurringRunnableWrapper.run()` after the task body returned or threw:
        release the slot and drain, then reschedule the same wrapper directly
        on the underlying scheduler with its recurring delay and priority. A
        throw from the body propagates afterwards. */
    method RunRecurring(w: Wrapper, bodyThrows: bool) returns (thrown: bool)
      requires Valid() && w.RecurringWrapper?
      modifies this, scheduler, QueuedFutures()
      ensures Valid()
      ensures thrown == bodyThrows
      ensures submitted == old(submitted)
      ensures |scheduler.log| >= 1 && Last(scheduler.log) == Scheduled(Wrapped(w), w.recurringDelay, w.priority)
      ensures old(waitingTasks) == [] ==>
        && running == old(running) - 1
        && waitingTasks == [] && admitted == old(admitted)
        && scheduler.log == old(scheduler.log) + [Last(scheduler.log)]
      ensures old(waitingTasks) != [] ==>
        && running == old(running)
        && waitingTasks == old(waitingTasks)[1..]
        && admitted == old(admitted) + [old(waitingTasks)[0]]
        && DrainedInto(old(scheduler.log), scheduler.log[..|scheduler.log| - 1], [old(waitingTasks)[0]])
    {
      HandleTaskFinished();
      ghost var log1 := scheduler.log;
      scheduler.Schedule(Wrapped(w), w.recurringDelay, w.priority);
      assert scheduler.log[..|scheduler.log| - 1] == log1;
      thrown := bodyThrows;
    }
  }

  /** What the recurring path does to the cap. Each recurring cycle after the
      first is rescheduled straight onto the scheduler without taking a slot,
      yet releases one when it ends. From an idle limiter, `cycles` such runs
      leave `running` at `-cycles`, after which every one of
      `maxConcurrency + cycles` slot requests in a row succeeds: more tasks
      than the cap run at once. */
  method RecurringOverrunsCap(limiter: PrioritySchedulerLimiter, w: Wrapper, cycles: nat) returns (taken: nat)
    requires limiter.Valid() && limiter.running == 0 && limiter.waitingTasks == []
    requires w.RecurringWrapper?
    modifies limiter, limiter.scheduler
    ensures taken == limiter.maxConcurrency + cycles
    ensures limiter.running == limiter.maxConcurrency
  {
    var i := 0;
    while i < cycles
      invariant 0 <= i <= cycles
      invariant limiter.Valid() && limiter.waitingTasks == [] && limiter.running == -i
    {
      assert limiter.QueuedFutures() == {};
      var _ := limiter.RunRecurring(w, false);
      i := i + 1;
    }
    taken := 0;
    var attempts := 0;
    while attempts < limiter.maxConcurrency + cycles
      invariant attempts <= limiter.maxConcurrency + cycles
      invariant taken == attempts
      invariant limiter.running == attempts - cycles
    {
      var ok := limiter.CanRunTask();
      if ok {
        taken := taken + 1;
      }
      attempts := attempts + 1;
    }
  }
}
