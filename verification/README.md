# PrioritySchedulerLimiter, modelled in Dafny

threadly's `PrioritySchedulerLimiter` sits in front of a priority scheduler and
caps how many of the tasks submitted through it run at once. Every submission
(`execute`, `submit`, `schedule`, `submitScheduled`, `scheduleWithFixedDelay`)
does one of three things:

- When a slot is free (`canRunTask()` succeeds), it goes straight to the
  scheduler.
- Otherwise it is appended to the FIFO queue `waitingTasks`.
- A task with a positive delay is handed to the scheduler inside a small
  delayed runner. When the runner fires, it re-enters the immediate path with
  the same future.

`consumeAvailable()` drains the queue from its head while a slot can be taken.
Each queued wrapper is routed to the call its kind needs:

- `execute(runnable)` when the wrapper has no future;
- `submit(callable)` for a callable wrapper;
- `submit(runnable)` otherwise.

After a `submit`, the wrapper's `FutureFuture` is bound to the future the
scheduler returned. A `FutureFuture` is the future handed to the caller before
the real one exists. A recurring wrapper first releases its slot and then
reschedules itself directly on the scheduler, even when its body threw.

The model is sequential Dafny over six modules:

| module | file | holds |
|---|---|---|
| `Common` | `common.dfy` | `Option`, `Result`, `Outcome`, the error kinds, `Priority` |
| `Futures` | `futures.dfy` | the scheduler's `ListenableFuture` (records listeners) and the `FutureFuture` class |
| `Tasks` | `tasks.dfy` | caller tasks, the three wrapper kinds with their accessors, delayed runners, lemmas on the futures a queue carries |
| `Scheduling` | `scheduler.dfy` | the underlying scheduler, seen only through a ghost log of the calls made on it |
| `Admission` | `admission.dfy` | `DrainCount`, how many wrappers one drain dispatches, and its closed form |
| `Limiter` | `limiter.dfy` | the `PrioritySchedulerLimiter` class: queue, slot counter, drain loop and every submission path |

`canRunTask()` and `handleTaskFinished()` belong to the superclass
`AbstractSchedulerLimiter`, which is not part of this model. Both are modelled
as an assumed slot counter `running`:

- `CanRunTask` takes a slot when `running < maxConcurrency`.
- `HandleTaskFinished` gives one back and drains.

The limiter's invariant `Valid()` is kept by every operation. It says:

- `running <= maxConcurrency`.
- A wrapper waits only while every slot is taken.
- The ghost sequence of submitted wrappers equals the admitted ones followed by
  the queue. So admission is in submission order, and each wrapper is admitted
  at most once.
- The futures of waiting wrappers are pairwise distinct and still unbound.

A queued runnable wrapper is submitted by the drain without its `result`
(`PrioritySchedulerLimiter.java:77` uses the two-argument `submit`), while the
fast path at line 189 passes the result. The model keeps that difference as the
code has it: `Dispatched` requires `result == None` for a drained runnable.

## Model

| member | source | states |
|---|---|---|
| Tasks.Wrapper.IsCallable | src/main/java/org/threadly/concurrent/PrioritySchedulerLimiter.java:434-437 | Only the callable wrapper is callable, and every callable wrapper has a future (the drain relies on this at line 81). |
| Tasks.Wrapper.GetFuture | src/main/java/org/threadly/concurrent/PrioritySchedulerLimiter.java:434-594 | `getFuture()` fails with UnsupportedOperation exactly on the recurring wrapper. A runnable wrapper yields the future it was built with, possibly null, and a callable wrapper yields its own future. The future is present if and only if `hasFuture()` holds, which is never for the recurring wrapper and always for the callable one. |
| Tasks.Wrapper.GetCallable | src/main/java/org/threadly/concurrent/PrioritySchedulerLimiter.java:434-594 | `getCallable()` succeeds if and only if the wrapper is callable, and it returns the wrapper itself. The other kinds fail with UnsupportedOperation. |
| Tasks.Wrapper.GetRunnable | src/main/java/org/threadly/concurrent/PrioritySchedulerLimiter.java:434-594 | `getRunnable()` succeeds if and only if the wrapper is not callable, and it returns the wrapper itself. The callable wrapper fails with UnsupportedOperation. |
| Tasks.Wrapper.Future | src/main/java/org/threadly/concurrent/PrioritySchedulerLimiter.java:492-494 | On a wrapper that reports a future, this is the future `getFuture()` yields. |
| Tasks.RoutingIsTotal | src/main/java/org/threadly/concurrent/PrioritySchedulerLimiter.java:70-82 | The three drain routes cover every wrapper and exclude each other. A wrapper without a future is never callable. Each accessor a route uses (`getRunnable`, `getCallable`, `getFuture`) succeeds on the wrappers that take that route. |
| Futures.FutureFuture.constructor | src/main/java/org/threadly/concurrent/PrioritySchedulerLimiter.java:622-624 | A new `FutureFuture` has no parent. |
| Futures.FutureFuture.SetParentFuture | src/main/java/org/threadly/concurrent/PrioritySchedulerLimiter.java:626-633 | Binds the parent to the given future. |
| Futures.FutureFuture.AddListener | src/main/java/org/threadly/concurrent/PrioritySchedulerLimiter.java:640-652 | The listener and executor are forwarded to the parent, and appended to its listeners, if and only if the parent is bound. The parent itself does not change. |
| Admission.DrainCount | src/main/java/org/threadly/concurrent/PrioritySchedulerLimiter.java:68-84 | A drain dispatches at most the queued wrappers and never fills more than the free slots. If it stops before the queue is empty, every slot is taken. |
| Admission.DrainCountIsMin | src/main/java/org/threadly/concurrent/PrioritySchedulerLimiter.java:68-84 | A drain dispatches exactly the minimum of the queue length and the free slots. |
| Admission.ReleaseDrainsOne | src/main/java/org/threadly/concurrent/PrioritySchedulerLimiter.java:423 | Freeing one slot of a full limiter lets exactly one wrapper through, if any waits. |
| Limiter.CheckDelayed | src/main/java/org/threadly/concurrent/PrioritySchedulerLimiter.java:227-231 | Arguments pass if and only if the task is present and the delay is non-negative. A null task is reported first, then a negative delay. |
| Limiter.CheckFixedDelay | src/main/java/org/threadly/concurrent/PrioritySchedulerLimiter.java:299-305 | Arguments pass if and only if the task is present and both delays are non-negative. Errors are reported in the order task, initial delay, recurring delay. |
| Limiter.PrioritySchedulerLimiter.constructor | src/main/java/org/threadly/concurrent/PrioritySchedulerLimiter.java:49-58 | A new limiter is valid, with no slot taken and nothing queued or dispatched. |
| Limiter.PrioritySchedulerLimiter.Create | src/main/java/org/threadly/concurrent/PrioritySchedulerLimiter.java:49-58 | It fails on a concurrency bound below 1, then on a null scheduler. Otherwise it yields a fresh, valid, empty limiter over that scheduler. |
| Limiter.PrioritySchedulerLimiter.CanRunTask | src/main/java/org/threadly/concurrent/PrioritySchedulerLimiter.java:155 | Succeeds if and only if a slot is free, and takes it when it does. |
| Limiter.PrioritySchedulerLimiter.Dispatch | src/main/java/org/threadly/concurrent/PrioritySchedulerLimiter.java:72-83 | It makes exactly one scheduler call, the one the wrapper's kind routes to, with the wrapper's own `getPriority()`. It binds the wrapper's future to the future that call returned. |
| Limiter.PrioritySchedulerLimiter.DispatchHead | src/main/java/org/threadly/concurrent/PrioritySchedulerLimiter.java:70-83 | It removes only the head of the queue and dispatches it after the wrappers already drained. The rest of the queue and its invariant are kept. |
| Limiter.PrioritySchedulerLimiter.ConsumeAvailable | src/main/java/org/threadly/concurrent/PrioritySchedulerLimiter.java:61-84 | It dispatches the first `DrainCount` wrappers of the queue, in FIFO order, each once, and takes one slot per wrapper. It leaves the rest of the queue as it was and ends with the queue empty or every slot taken. |
| Limiter.PrioritySchedulerLimiter.EnqueueAndConsume | src/main/java/org/threadly/concurrent/PrioritySchedulerLimiter.java:157-160 | With every slot taken, the wrapper joins the tail of the queue, and the drain that follows dispatches nothing. |
| Limiter.PrioritySchedulerLimiter.Execute | src/main/java/org/threadly/concurrent/PrioritySchedulerLimiter.java:145-161 | A null task is rejected with nothing changed. Otherwise the wrapper takes the given priority, or the scheduler's default when none is given (`EffectivePriority`). The future-less wrapper is executed at once with that priority if a slot is free, and enqueued otherwise. |
| Limiter.PrioritySchedulerLimiter.DoSubmitRunnable | src/main/java/org/threadly/concurrent/PrioritySchedulerLimiter.java:184-194 | With a free slot, the wrapper is submitted with the result and `ff` is bound to the scheduler's future. Otherwise the wrapper is enqueued and `ff` stays unbound. |
| Limiter.PrioritySchedulerLimiter.DoSubmitCallable | src/main/java/org/threadly/concurrent/PrioritySchedulerLimiter.java:212-222 | With a free slot, the callable wrapper is submitted and `ff` is bound. Otherwise it is enqueued and `ff` stays unbound. |
| Limiter.PrioritySchedulerLimiter.Submit | src/main/java/org/threadly/concurrent/PrioritySchedulerLimiter.java:169-182 | A null task is rejected with nothing changed. Otherwise the priority is the given one or the scheduler's default. The future returned is fresh and is the very future the admitted wrapper carries. |
| Limiter.PrioritySchedulerLimiter.SubmitCallable | src/main/java/org/threadly/concurrent/PrioritySchedulerLimiter.java:197-210 | The same for a callable. |
| Limiter.PrioritySchedulerLimiter.Schedule | src/main/java/org/threadly/concurrent/PrioritySchedulerLimiter.java:225-242 | The argument checks decide the outcome, and a failure changes nothing. The priority is the given one or the scheduler's default. A zero delay acts as `execute`. A positive delay makes one `schedule` call for a delayed runner with that priority, takes no slot and queues nothing. |
| Limiter.PrioritySchedulerLimiter.SubmitScheduled | src/main/java/org/threadly/concurrent/PrioritySchedulerLimiter.java:251-271 | A zero delay acts as `doSubmit`. A positive delay schedules a runner that carries the task, the result and the returned, still unbound future. |
| Limiter.PrioritySchedulerLimiter.SubmitScheduledCallable | src/main/java/org/threadly/concurrent/PrioritySchedulerLimiter.java:274-294 | The same for a callable. |
| Limiter.PrioritySchedulerLimiter.ScheduleWithFixedDelay | src/main/java/org/threadly/concurrent/PrioritySchedulerLimiter.java:297-318 | The three argument checks decide the outcome. A zero initial delay executes the recurring wrapper. A positive one schedules a delayed runner for it. |
| Limiter.PrioritySchedulerLimiter.RunDelayedRunnable | src/main/java/org/threadly/concurrent/PrioritySchedulerLimiter.java:347-353 | Without a future the runner acts as `execute`. With one, it acts as `doSubmit` with that same future and the stored result. |
| Limiter.PrioritySchedulerLimiter.RunDelayedCallable | src/main/java/org/threadly/concurrent/PrioritySchedulerLimiter.java:376-378 | Acts as `doSubmit` with the runner's own future. |
| Limiter.PrioritySchedulerLimiter.HandleTaskFinished | src/main/java/org/threadly/concurrent/PrioritySchedulerLimiter.java:423 | A release with nothing waiting frees one slot. Otherwise the slot passes to the head of the queue, which is dispatched, and nothing else moves. |
| Limiter.RecurringOverrunsCap | src/main/java/org/threadly/concurrent/PrioritySchedulerLimiter.java:421-425 | From an idle limiter, after `n` recurring cycles, each of the next `maxConcurrency + n` slot requests succeeds, so more tasks than the cap can run at once. |
| Limiter.PrioritySchedulerLimiter.RunRecurring | src/main/java/org/threadly/concurrent/PrioritySchedulerLimiter.java:403-431 | Whether or not the body throws, the slot is released and the queue drained first. Then the same wrapper is scheduled directly on the scheduler with its recurring delay and priority, as the last call. The throw, if any, is passed on. |

## Left out

- Concurrency: the `synchronized` block around the drain and the thread safety
  of the queue and of `FutureFuture` are not modelled. Every operation runs to
  completion before the next begins.
- `FutureFuture.addListener` blocks with `wait()` until the parent is bound.
  Here `Futures.FutureFuture.AddListener` returns `false` in that case and
  registers nothing.
- Thread renaming for the sub-pool name (lines 404-411, 427-429, 540-547,
  560-562) is a side effect on `Thread`. `subPoolName` is only stored.
- The `factory` and `VirtualRunnable` dispatch inside the wrappers' `run` and
  `call` (lines 414-420, 550-556) calls classes that are not part of this model.
- `AbstractSchedulerLimiter` is not part of this model. `canRunTask`,
  `handleTaskFinished`, the base `RunnableWrapper` and the superclass's check
  of `maxConcurrency` are modelled as the assumed slot counter described above.
- The concurrency cap does not survive recurring tasks, and the model keeps
  that as written. `running` is an `int`, and `Valid()` promises only
  `running <= maxConcurrency`, not that the counter stays non-negative.
  - Every cycle of a recurring task after the first is rescheduled at line
    425 straight onto the scheduler, without `canRunTask`.
  - Yet each cycle calls `handleTaskFinished` at line 423, releasing a slot it
    never took.
  - The first cycle, run through `execute`, releases its slot a second time
    in the superclass's wrapper. That wrapper is not part of this model.
  - So `running` falls by one per cycle without bound, and more tasks than
    `maxConcurrency` can run at once. `Limiter.RecurringOverrunsCap` proves
    it: after `n` cycles from an idle limiter, `maxConcurrency + n` slot
    requests in a row all succeed.
- The task bodies themselves, exceptions other than the argument checks, and
  the scheduler's timing are not modelled. The scheduler is a log of calls.
  A throw from a recurring body is the `bodyThrows` flag of `RunRecurring`.
- The overloads without a priority (lines 88-137) call the prioritised ones
  with the default priority. They are the same methods called with priority
  `None`. `isShutdown` and `getDefaultPriority` only delegate to the scheduler.
- `SchedulerService.java` declares interfaces only, and
  `ThrowableSurpressingRunnableTest.java` tests a class that is not part of this
  model.
- Limiter.PrioritySchedulerLimiter.RunDelayedRunnable: requires the runner's
  future to be unbound and not waiting in the queue. The scheduler fires each
  delayed runner once, so its future has not been used yet. The Java code
  does not check this.
- Limiter.PrioritySchedulerLimiter.RunDelayedCallable: requires the same of its
  runner's future, for the same reason.
- Limiter.PrioritySchedulerLimiter.DoSubmitRunnable: requires `ff` to be unbound
  and not already queued. Every caller passes a fresh future or a delayed
  runner's unused one.
- Limiter.PrioritySchedulerLimiter.DoSubmitCallable: the same requirement as
  `DoSubmitRunnable`.
