/** The underlying priority scheduler, an external collaborator. It is seen
    only through the calls the limiter makes on it, kept in a log; a `submit`
    returns a new `ListenableFuture`. */
module Scheduling {
  import opened Common
  import opened Futures
  import opened Tasks

  /** One call on the underlying scheduler. */
  datatype Call =
    | Executed(task: Runnable, priority: Priority)
    | SubmittedRunnable(task: Runnable, result: Option<Value>, priority: Priority, future: ListenableFuture)
    | SubmittedCallable(callable: Callable, priority: Priority, future: ListenableFuture)
    | Scheduled(task: Runnable, delayInMs: nat, priority: Priority)

  class PriorityScheduler {
    /** `getDefaultPriority()`. */
    const defaultPriority: Priority
    /** Every call made on this scheduler, oldest first. */
    ghost var log: seq<Call>

    constructor (defaultPriority: Priority)
      ensures this.defaultPriority == defaultPriority && log == []
    {
      this.defaultPriority := defaultPriority;
      log := [];
    }

    method Execute(task: Runnable, priority: Priority)
      modifies this
      ensures log == old(log) + [Executed(task, priority)]
    {
      log := log + [Executed(task, priority)];
    }

    method Submit(task: Runnable, result: Option<Value>, priority: Priority) returns (f: ListenableFuture)
      modifies this
      ensures fresh(f)
      ensures log == old(log) + [SubmittedRunnable(task, result, priority, f)]
    {
      f := new ListenableFuture();
      log := log + [SubmittedRunnable(task, result, priority, f)];
    }

    method SubmitCallable(callable: Callable, priority: Priority) returns (f: ListenableFuture)
      modifies this
      ensures fresh(f)
      ensures log == old(log) + [SubmittedCallable(callable, priority, f)]
    {
      f := new ListenableFuture();
      log := log + [SubmittedCallable(callable, priority, f)];
    }

    method Schedule(task: Runnable, delayInMs: nat, priority: Priority)
      modifies this
      ensures log == old(log) + [Scheduled(task, delayInMs, priority)]
    {
      log := log + [Scheduled(task, delayInMs, priority)];
    }
  }
}
