/** What the limiter hands to the underlying scheduler: the caller's tasks,
    the wrappers that carry a priority and an optional `FutureFuture`, and the
    small runners that bring a delayed task back to the limiter. */
module Tasks {
  import opened Common
  import opened Futures

  /** Something the scheduler can `run()`. */
  datatype Runnable =
    | UserRunnable(id: nat)
      // a wrapper passed as itself (`getRunnable()` returns `this`)
    | Wrapped(wrapper: Wrapper)
      // `DelayedExecutionRunnable`
    | DelayedRunnable(runnable: Runnable, result: Option<Value>, priority: Priority, future: Option<FutureFuture>)
      // `DelayedExecutionCallable`
    | DelayedCallable(callable: Callable, priority: Priority, ff: FutureFuture)

  /** Something the scheduler can `call()`. */
  datatype Callable =
    | UserCallable(id: nat)
      // a callable wrapper passed as itself (`getCallable()` returns `this`)
    | WrappedCallable(wrapper: Wrapper)

  /** The `Wrapper` interface and its three implementations. A callable
      wrapper is only ever built with a future, so its future is not optional. */
  datatype Wrapper =
    | RunnableWrapper(runnable: Runnable, priority: Priority, future: Option<FutureFuture>)
    | CallableWrapper(callable: Callable, priority: Priority, ff: FutureFuture)
    | RecurringWrapper(runnable: Runnable, recurringDelay: nat, priority: Priority)
  {
    /** `isCallable()`: only the callable wrapper; every callable wrapper has a future. */
    predicate IsCallable(): (b: bool)
      ensures b <==> CallableWrapper?
      ensures b ==> HasFuture()
    {
      CallableWrapper?
    }

    /** `hasFuture()`. */
    predicate HasFuture() {
      match this
      case RunnableWrapper(_, _, future) => future.Some?
      case CallableWrapper(_, _, _) => true
      case RecurringWrapper(_, _, _) => false
    }

    /** `getPriority()`: every kind reports the priority it was built with. */
    function GetPriority(): Priority {
      priority
    }

    /** `getFuture()`: the recurring wrapper throws; the others hand out their
        (possibly null) future. */
    function GetFuture(): (r: Result<Option<FutureFuture>>)
      ensures r.Failure? <==> RecurringWrapper?
      ensures RunnableWrapper? ==> r == Success(future)
      ensures CallableWrapper? ==> r == Success(Some(ff))
      ensures HasFuture() ==> r.Success? && r.value.Some?
      ensures r.Success? ==> (r.value.Some? <==> HasFuture())
      ensures r.Failure? ==> !HasFuture() && r.error == UnsupportedOperation
    {
      match this
      case RunnableWrapper(_, _, future) => Success(future)
      case CallableWrapper(_, _, ff) => Success(Some(ff))
      case RecurringWrapper(_, _, _) => Failure(UnsupportedOperation)
    }

    /** `getCallable()`: succeeds exactly on callable wrappers, with the wrapper itself. */
    function GetCallable(): (r: Result<Callable>)
      ensures r.Success? <==> IsCallable()
      ensures r.Success? ==> r.value == WrappedCallable(this)
      ensures r.Failure? ==> r.error == UnsupportedOperation
    {
      if CallableWrapper? then Success(WrappedCallable(this)) else Failure(UnsupportedOperation)
    }

    /** `getRunnable()`: succeeds exactly on the non-callable wrappers, with the wrapper itself. */
    function GetRunnable(): (r: Result<Runnable>)
      ensures r.Success? <==> !IsCallable()
      ensures r.Success? ==> r.value == Wrapped(this)
      ensures r.Failure? ==> r.error == UnsupportedOperation
    {
      if CallableWrapper? then Failure(UnsupportedOperation) else Success(Wrapped(this))
    }

    /** The future of a wrapper that reports one. */
    function Future(): (f: FutureFuture)
      requires HasFuture()
      ensures GetFuture() == Success(Some(f))
    {
      if RunnableWrapper? then future.value else ff
    }

    /** The objects a dispatch of this wrapper may change. */
    function FutureSet(): set<FutureFuture> {
      if HasFuture() then {Future()} else {}
    }
  }

  /** The routing the drain relies on: a wrapper without a future is never
      callable, so `getRunnable()` is safe on it, and `getCallable()` is safe
      on a callable one; the three routes exclude each other. */
  lemma RoutingIsTotal(w: Wrapper)
    ensures !w.HasFuture() ==> !w.IsCallable() && w.GetRunnable().Success?
    ensures w.HasFuture() && w.IsCallable() ==> w.GetCallable().Success? && w.GetFuture().Success?
    ensures w.HasFuture() && !w.IsCallable() ==> w.GetRunnable().Success? && w.GetFuture().Success?
  {
  }

  /** The futures carried by a sequence of wrappers. */
  function FuturesOf(ws: seq<Wrapper>): set<FutureFuture> {
    set w | w in ws && w.HasFuture() :: w.Future()
  }

  /** No two wrappers of `ws` share a future. */
  predicate FuturesDistinct(ws: seq<Wrapper>) {
    forall i, j | 0 <= i < j < |ws| && ws[i].HasFuture() && ws[j].HasFuture() :: ws[i].Future() != ws[j].Future()
  }

  /** No future of `ws` is bound yet. */
  ghost predicate Unbound(ws: seq<Wrapper>)
    reads FuturesOf(ws)
  {
    // `ws[i] in ws` tells the reads check that `ws[i].Future()` is in `FuturesOf(ws)`
    forall i | 0 <= i < |ws| && ws[i].HasFuture() :: ws[i] in ws && ws[i].Future().parent == None
  }

  /** A wrapper whose future is unbound can join unbound waiting wrappers. */
  lemma UnboundAppend(ws: seq<Wrapper>, w: Wrapper)
    requires Unbound(ws)
    requires w.HasFuture() ==> w.Future().parent == None
    ensures Unbound(ws + [w])
  {
    var ws' := ws + [w];
    forall i | 0 <= i < |ws'| && ws'[i].HasFuture()
      ensures ws'[i] in ws' && ws'[i].Future().parent == None
    {
      if i < |ws| {
        assert ws'[i] == ws[i] && ws[i] in ws;
      }
    }
  }

  /** The head's future is none of the others', and the rest stay distinct. */
  lemma DistinctHead(ws: seq<Wrapper>)
    requires |ws| > 0 && FuturesDistinct(ws)
    ensures ws[0].FutureSet() !! FuturesOf(ws[1..])
    ensures FuturesDistinct(ws[1..])
  {
    forall w | w in ws[1..] && w.HasFuture() && ws[0].HasFuture()
      ensures w.Future() != ws[0].Future()
    {
      var j :| 0 <= j < |ws[1..]| && ws[1..][j] == w;
      assert ws[j + 1] == w;
    }
  }

  /** The future of `ws[k]` is none of those of the wrappers before it. */
  lemma DistinctPrefix(ws: seq<Wrapper>, k: nat)
    requires k < |ws| && FuturesDistinct(ws)
    ensures ws[k].FutureSet() !! FuturesOf(ws[..k])
  {
    forall w | w in ws[..k] && w.HasFuture() && ws[k].HasFuture()
      ensures w.Future() != ws[k].Future()
    {
      var i :| 0 <= i < k && ws[..k][i] == w;
      assert ws[i] == w;
    }
  }

  /** A wrapper's future is among those of the sequence holding it. */
  lemma FutureSetIn(ws: seq<Wrapper>, i: nat)
    requires i < |ws|
    ensures ws[i].FutureSet() <= FuturesOf(ws)
  {
    assert ws[i] in ws;
  }

  /** Appending a wrapper adds exactly its future. */
  lemma FuturesOfAppend(ws: seq<Wrapper>, w: Wrapper)
    ensures FuturesOf(ws + [w]) == FuturesOf(ws) + w.FutureSet()
  {
    assert forall x :: x in ws + [w] <==> x in ws || x == w;
  }

  /** Appending a wrapper whose future is not yet carried keeps the futures distinct. */
  lemma AppendKeepsDistinct(ws: seq<Wrapper>, w: Wrapper)
    requires FuturesDistinct(ws)
    requires w.HasFuture() ==> w.Future() !in FuturesOf(ws)
    ensures FuturesDistinct(ws + [w])
  {
    var ws' := ws + [w];
    forall i, j | 0 <= i < j < |ws'| && ws'[i].HasFuture() && ws'[j].HasFuture()
      ensures ws'[i].Future() != ws'[j].Future()
    {
      if j == |ws| {
        assert ws'[i] in ws;
      }
    }
  }
}
