/** `stream.lazy(func)` of test/riffleLib.js: invocations are queued until at least one
    consumer is registered; a timer turn (an "attempt") then builds a fresh stream with
    body `func`, registers every consumer on it and replays the queued invocations in
    arrival order. `invoke`, `onOutput` and `offOutput` each schedule one attempt; the
    values collected from inputs are queued without scheduling one. */
module Lazy {
  import opened JsValues
  import StreamSpec

  datatype LazyEvent =
    /** An attempt built a stream with body `func`, the given consumers in order, and
        invoked it with each queued argument list in order. */
    | Replayed(func: Callable, consumers: seq<Callable>, invocations: seq<Args>)
    /** An attempt threw `Error('onOutput expecting callback function')` while
        registering a consumer that is not a function; the queue is kept. */
    | ReplayFailed

  datatype LazyState = LazyState(
    func: Callable,
    inputs: seq<Args>,
    outFuncs: seq<Callable>,
    pending: nat,       // attempts scheduled and not yet run
    received: seq<Args>, // every argument list ever queued, in order
    log: seq<LazyEvent>)

  /** `stream.lazy(func)`. */
  function Initial(func: Callable): LazyState
  {
    LazyState(func, [], [], 0, [], [])
  }

  /** No consumer is registered twice. */
  ghost predicate Distinct(s: seq<Callable>)
  {
    forall y :: Count(s, y) <= 1
  }

  /** The argument lists handed to replay streams, in order. */
  function Replays(log: seq<LazyEvent>): seq<Args>
  {
    if log == [] then []
    else Replays(log[..|log| - 1]) + (if log[|log| - 1].Replayed? then log[|log| - 1].invocations else [])
  }

  /** Nothing queued is lost or replayed twice, and consumers are distinct. */
  ghost predicate LazyOk(st: LazyState)
  {
    Replays(st.log) + st.inputs == st.received && Distinct(st.outFuncs)
  }

  /** `invoke(args...)`: queue the arguments and schedule an attempt. */
  function InvokeLazy(st: LazyState, args: Args): (r: LazyState)
    ensures r.log == st.log && r.outFuncs == st.outFuncs && r.func == st.func
    ensures r.pending == st.pending + 1
  {
    st.(inputs := st.inputs + [args], received := st.received + [args], pending := st.pending + 1)
  }

  /** What the collector (a stream with the default body) passes to its consumer for a
      value `x` delivered on one of its ports: `x` alone, or no arguments for `undefined`.
      The port index is lost. */
  function Collected(x: Value): Args
  {
    if x == Undefined then [] else [x]
  }

  /** The collector's consumer, on the turn after a port of the collector delivered `x`:
      queue what the collector output, scheduling nothing. */
  function CollectLazy(st: LazyState, x: Value): LazyState
  {
    var vals := Collected(x);
    st.(inputs := st.inputs + [vals], received := st.received + [vals])
  }

  /** `onOutput(func)`: move `func` to the end of the consumers; schedule an attempt. */
  function OnOutputLazy(st: LazyState, f: Callable): LazyState
  {
    st.(outFuncs := Remove(st.outFuncs, f) + [f], pending := st.pending + 1)
  }

  /** `offOutput(func)`: drop `func` from the consumers; schedule an attempt. */
  function OffOutputLazy(st: LazyState, f: Callable): LazyState
  {
    st.(outFuncs := Remove(st.outFuncs, f), pending := st.pending + 1)
  }

  /** One scheduled attempt: with queued inputs and consumers, replay and empty the queue,
      unless a consumer is not a function. */
  function AttemptLazy(st: LazyState): (r: LazyState)
    requires st.pending > 0
    ensures r.received == st.received && r.outFuncs == st.outFuncs && r.pending == st.pending - 1
    ensures r.inputs == st.inputs || r.inputs == []
  {
    var st1 := st.(pending := st.pending - 1);
    if |st.inputs| > 0 && |st.outFuncs| > 0 then
      if forall i :: 0 <= i < |st.outFuncs| ==> st.outFuncs[i].Fn? then
        st1.(log := st.log + [Replayed(st.func, st.outFuncs, st.inputs)], inputs := [])
      else st1.(log := st.log + [ReplayFailed])
    else st1
  }

  // ---------------------------------------------------------------- properties

  lemma ReplaysAppend(log: seq<LazyEvent>, e: LazyEvent)
    ensures Replays(log + [e]) == Replays(log) + (if e.Replayed? then e.invocations else [])
  {
    assert (log + [e])[..|log|] == log;
  }

  /** Every operation keeps the queue accounted for: what was replayed, followed by what
      is still queued, is everything ever queued. */
  lemma InvokeKeepsQueue(st: LazyState, args: Args)
    requires LazyOk(st)
    ensures LazyOk(InvokeLazy(st, args)) && InvokeLazy(st, args).inputs == st.inputs + [args]
  {
  }

  lemma CollectKeepsQueue(st: LazyState, x: Value)
    requires LazyOk(st)
    ensures LazyOk(CollectLazy(st, x)) && CollectLazy(st, x).pending == st.pending
    ensures CollectLazy(st, x).inputs == st.inputs + [if x == Undefined then [] else [x]]
  {
  }

  /** The collector is a stream with the default body: a port listener invokes it with
      the port vector, and the one deferred output that schedules carries exactly
      `Collected(x)`, whatever the port. */
  lemma CollectedIsDefaultOutput(c: StreamSpec.NodeId, idx: nat, x: Value)
    ensures StreamSpec.DefaultTasks(c, StreamSpec.PortVector(idx, x)) == [StreamSpec.Emit(c, Collected(x))]
  {
    if x != Undefined {
      var v := StreamSpec.PortVector(idx, x);
      assert v[..idx] + [x] == v;
      StreamSpec.AllUndefinedEmitsNothing(c, v[..idx]);
    }
  }

  lemma {:induction false} OnOutputKeepsDistinct(st: LazyState, f: Callable)
    requires LazyOk(st)
    ensures LazyOk(OnOutputLazy(st, f))
    ensures var r := OnOutputLazy(st, f).outFuncs; |r| > 0 && r[|r| - 1] == f
  {
    var s := st.outFuncs;
    RemoveCounts(s, f);
    CountZero(Remove(s, f), f);
    forall y ensures Count(Remove(s, f) + [f], y) <= 1 {
      CountAppend(Remove(s, f), [f], y);
      assert [f][..0] == [];
    }
  }

  lemma {:induction false} OffOutputKeepsDistinct(st: LazyState, f: Callable)
    requires LazyOk(st)
    ensures LazyOk(OffOutputLazy(st, f))
    ensures f !in OffOutputLazy(st, f).outFuncs
  {
    RemoveCounts(st.outFuncs, f);
    forall y ensures Count(Remove(st.outFuncs, f), y) <= 1 {
      if y == f {
        CountZero(Remove(st.outFuncs, f), f);
      }
    }
  }

  lemma AttemptKeepsQueue(st: LazyState)
    requires LazyOk(st) && st.pending > 0
    ensures LazyOk(AttemptLazy(st))
  {
    if |st.inputs| > 0 && |st.outFuncs| > 0 {
      ReplaysAppend(st.log, Replayed(st.func, st.outFuncs, st.inputs));
      ReplaysAppend(st.log, ReplayFailed);
    }
  }

  /** Registering the same consumer twice leaves the consumers as one registration does. */
  lemma {:induction false} OnOutputIdempotent(st: LazyState, f: Callable)
    ensures OnOutputLazy(OnOutputLazy(st, f), f).outFuncs == OnOutputLazy(st, f).outFuncs
  {
    var s := Remove(st.outFuncs, f);
    RemoveAppend(s, [f], f);
    RemoveIdempotent(st.outFuncs, f);
    assert Remove([f], f) == [] by {
      assert [f][..0] == [];
    }
  }

  /** An attempt with a queue and function consumers replays the whole queue, in arrival
      order, into every consumer; without a consumer the queue waits. */
  lemma AttemptReplaysQueue(st: LazyState)
    requires st.pending > 0
    ensures |st.outFuncs| == 0 ==> AttemptLazy(st).inputs == st.inputs && AttemptLazy(st).log == st.log
    ensures |st.inputs| > 0 && |st.outFuncs| > 0 && (forall i :: 0 <= i < |st.outFuncs| ==> st.outFuncs[i].Fn?) ==>
      AttemptLazy(st).inputs == [] && AttemptLazy(st).log == st.log + [Replayed(st.func, st.outFuncs, st.inputs)]
    ensures (exists i :: 0 <= i < |st.outFuncs| && st.outFuncs[i].NotFn?) && |st.inputs| > 0 ==>
      AttemptLazy(st).inputs == st.inputs && AttemptLazy(st).log == st.log + [ReplayFailed]
  {
  }

  /** Collected input values alone never trigger a replay: without a later `invoke`,
      `onOutput` or `offOutput`, no attempt is scheduled for them. */
  lemma CollectSchedulesNothing(st: LazyState, x: Value)
    ensures CollectLazy(st, x).pending == st.pending && CollectLazy(st, x).log == st.log
  {
  }

  // ---------------------------------------------------------------- the object

  class LazyNode {
    const func: Callable
    var inputs: seq<Args>
    var outFuncs: seq<Callable>
    var pending: nat
    ghost var received: seq<Args>
    var log: seq<LazyEvent>

    ghost function State(): LazyState
      reads this
    {
      LazyState(func, inputs, outFuncs, pending, received, log)
    }

    constructor(func: Callable)
      ensures State() == Initial(func)
    {
      this.func := func;
      inputs := [];
      outFuncs := [];
      pending := 0;
      received := [];
      log := [];
    }

    method Invoke(args: Args)
      modifies this
      ensures State() == InvokeLazy(old(State()), args)
    {
      inputs := inputs + [args];
      received := received + [args];
      pending := pending + 1;
    }

    /** The collector's consumer, called with what the collector output for `x`. */
    method Collect(x: Value)
      modifies this
      ensures State() == CollectLazy(old(State()), x)
    {
      var vals := if x == Undefined then [] else [x];
      inputs := inputs + [vals];
      received := received + [vals];
    }

    method OnOutput(f: Callable)
      modifies this
      ensures State() == OnOutputLazy(old(State()), f)
    {
      var kept := Without(outFuncs, f);
      outFuncs := kept + [f];
      pending := pending + 1;
    }

    method OffOutput(f: Callable)
      modifies this
      ensures State() == OffOutputLazy(old(State()), f)
    {
      outFuncs := Without(outFuncs, f);
      pending := pending + 1;
    }

    /** One timer turn of `attempt`. */
    method Attempt()
      requires pending > 0
      modifies this
      ensures State() == AttemptLazy(old(State()))
    {
      pending := pending - 1;
      if |inputs| > 0 && |outFuncs| > 0 {
        var i := 0;
        while i < |outFuncs|
          invariant 0 <= i <= |outFuncs|
          invariant forall k :: 0 <= k < i ==> outFuncs[k].Fn?
          invariant pending == old(pending) - 1 && inputs == old(inputs) && outFuncs == old(outFuncs)
          invariant log == old(log) && received == old(received)
        {
          if outFuncs[i].NotFn? {
            log := log + [ReplayFailed];
            return;
          }
          i := i + 1;
        }
        log := log + [Replayed(func, outFuncs, inputs)];
        inputs := [];
      }
    }
  }

  /** `_.reject(s, x => x === f)`, as a loop. */
  method Without(s: seq<Callable>, f: Callable) returns (r: seq<Callable>)
    ensures r == Remove(s, f)
  {
    r := [];
    var i := 0;
    while i < |s|
      invariant 0 <= i <= |s| && r == Remove(s[..i], f)
    {
      assert s[..i + 1][..i] == s[..i];
      if s[i] != f {
        r := r + [s[i]];
      }
      i := i + 1;
    }
    assert s[..i] == s;
  }
}
