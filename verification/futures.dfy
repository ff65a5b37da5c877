/** The futures of the limiter: the scheduler's own future (an external
    collaborator that only records its listeners) and `FutureFuture`, the
    future handed to callers before the real one exists. */
module Futures {
  import opened Common

  /** A `ListenableFuture` produced by the underlying scheduler. Only the
      listeners forwarded to it are observable in this model. */
  class ListenableFuture {
    var listeners: seq<(ListenerId, Option<ExecutorId>)>

    constructor ()
      ensures listeners == []
    {
      listeners := [];
    }

    method AddListener(listener: ListenerId, executor: Option<ExecutorId>)
      modifies this
      ensures listeners == old(listeners) + [(listener, executor)]
    {
      listeners := listeners + [(listener, executor)];
    }
  }

  /** `FutureFuture`: a future whose parent is bound after it is created. */
  class FutureFuture {
    var parent: Option<ListenableFuture>

    constructor ()
      ensures parent == None
    {
      parent := None;
    }

    /** Binds the parent; every later listener goes to it. */
    method SetParentFuture(f: ListenableFuture)
      modifies this
      ensures parent == Some(f)
    {
      parent := Some(f);
    }

    /** Forwards the listener to the parent once there is one. The Java method
        blocks while the parent is unbound; here that case returns `false` and
        registers nothing. */
    method AddListener(listener: ListenerId, executor: Option<ExecutorId>) returns (forwarded: bool)
      modifies if parent.Some? then {parent.value} else {}
      ensures forwarded <==> parent.Some?
      ensures parent == old(parent)
      ensures forwarded ==> parent.value.listeners == old(parent.value.listeners) + [(listener, executor)]
    {
      if parent.Some? {
        parent.value.AddListener(listener, executor);
        forwarded := true;
      } else {
        forwarded := false;
      }
    }
  }
}
