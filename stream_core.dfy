/** The engine of test/riffleLib.js and riffle.js as an object: every node created by
    `stream(fn)` / `Stream(fn)` lives in one graph, the `setTimeout(…, 0)` turns wait in a
    FIFO queue, and what the nodes do is appended to a log. The two files differ only in
    `truncates` (test/riffleLib.js releases the ports beyond the argument count of `input`). */
module StreamCore {
  import opened JsValues
  import opened StreamSpec
  import opened StreamWiring

  /** The body `stream(fn)` installs: `fn` when it is a function, the default body otherwise. */
  function BodyOf(fn: Callable): (b: Body)
    ensures fn.Fn? <==> b.Script?
    ensures fn.Fn? ==> b == Script(fn.tag)
  {
    match fn
    case Fn(t) => Script(t)
    case NotFn(_) => Default
  }

  class Graph {
    /** What foreign bodies and callbacks do. */
    const foreign: Foreign
    /** Whether `input` releases the ports beyond its argument count (test/riffleLib.js). */
    const truncates: bool
    /** How many port hops one synchronous chain may take before the JavaScript stack ends it. */
    const stackLimit: nat

    var streams: seq<Node>
    /** Port closures created so far (each `wait` creates one). */
    var closures: nat
    /** Deferred turns, oldest first. */
    var tasks: seq<Task>
    var log: seq<Event>

    ghost predicate Valid()
      reads this
    {
      WellFormed(streams, closures) && forall t :: t in tasks ==> t.node < |streams|
    }

    constructor(foreign: Foreign, truncates: bool, stackLimit: nat)
      ensures Valid()
      ensures this.foreign == foreign && this.truncates == truncates && this.stackLimit == stackLimit
      ensures streams == [] && closures == 0 && tasks == [] && log == []
    {
      this.foreign := foreign;
      this.truncates := truncates;
      this.stackLimit := stackLimit;
      streams := [];
      closures := 0;
      tasks := [];
      log := [];
    }

    /** `stream(fn)`: a fresh node with no consumers and no ports. */
    method NewStream(fn: Callable) returns (n: NodeId)
      requires Valid()
      modifies this
      ensures Valid()
      ensures n == old(|streams|) && streams == old(streams) + [Node(BodyOf(fn), [], map[], map[], 0)]
      ensures closures == old(closures) && tasks == old(tasks) && log == old(log)
    {
      n := |streams|;
      streams := streams + [Node(BodyOf(fn), [], map[], map[], 0)];
      assert forall k :: 0 <= k < n ==> streams[k] == old(streams)[k];
      assert forall k :: 0 <= k < n ==> NodeOk(old(streams)[k], n, closures);
    }

    /** `onOutput(f)`: a function is appended to the consumers; anything else throws. */
    method OnOutput(n: NodeId, f: Callable) returns (o: Outcome)
      requires Valid() && n < |streams|
      modifies this
      ensures Valid()
      ensures f.NotFn? ==> o == Threw(Error("onOutput expecting callback function")) && streams == old(streams)
      ensures f.Fn? ==> (o == Done
        && streams == old(streams)[n := old(streams)[n].(outputFns := old(streams)[n].outputFns + [Callback(f.tag)])])
      ensures closures == old(closures) && tasks == old(tasks) && log == old(log)
    {
      if f.NotFn? {
        return Threw(Error("onOutput expecting callback function"));
      }
      streams := streams[n := streams[n].(outputFns := streams[n].outputFns + [Callback(f.tag)])];
      assert NodeOk(old(streams)[n], |streams|, closures);
      o := Done;
    }

    /** `offOutput(f)`: every registration of the function leaves the consumers; anything
        else throws. */
    method OffOutput(n: NodeId, f: Callable) returns (o: Outcome)
      requires Valid() && n < |streams|
      modifies this
      ensures Valid()
      ensures f.NotFn? ==> o == Threw(Error("offOutput expecting callback function")) && streams == old(streams)
      ensures f.Fn? ==> (o == Done
        && streams == old(streams)[n := old(streams)[n].(outputFns := Remove(old(streams)[n].outputFns, Callback(f.tag)))])
      ensures closures == old(closures) && tasks == old(tasks) && log == old(log)
    {
      if f.NotFn? {
        return Threw(Error("offOutput expecting callback function"));
      }
      RemoveSubset(streams[n].outputFns, Callback(f.tag));
      assert NodeOk(streams[n], |streams|, closures);
      streams := streams[n := streams[n].(outputFns := Remove(streams[n].outputFns, Callback(f.tag)))];
      o := Done;
    }

    // ---------------------------------------------------------------- invocation

    /** `invoke(args...)`: the node's body runs now; whatever it schedules joins the queue. */
    method Invoke(n: NodeId, args: Args)
      requires Valid() && n < |streams|
      modifies this
      ensures Valid()
      ensures streams == old(streams) && closures == old(closures)
      ensures Closed(streams)
      ensures tasks == old(tasks) + InvokeFx(streams, foreign, n, args, stackLimit).tasks
      ensures log == old(log) + InvokeFx(streams, foreign, n, args, stackLimit).events
    {
      WellFormedClosed(streams, closures);
      InvokeAt(n, args, stackLimit);
    }

    /** One turn of the queue: the oldest deferred output is fanned out to the consumers
        its node has now. */
    method Step() returns (ran: bool)
      requires Valid()
      modifies this
      ensures Valid()
      ensures streams == old(streams) && closures == old(closures)
      ensures ran <==> old(tasks) != []
      ensures !ran ==> tasks == old(tasks) && log == old(log)
      ensures ran ==> (Closed(streams) && old(tasks)[0].node < |streams|
        && TargetsIn(streams[old(tasks)[0].node].outputFns, |streams|)
        && tasks == old(tasks)[1..] + FanOutFx(streams, foreign, streams[old(tasks)[0].node].outputFns, old(tasks)[0].vals, stackLimit).tasks
        && log == old(log) + FanOutFx(streams, foreign, streams[old(tasks)[0].node].outputFns, old(tasks)[0].vals, stackLimit).events)
    {
      if tasks == [] {
        return false;
      }
      WellFormedClosed(streams, closures);
      var t := tasks[0];
      assert t in tasks;
      tasks := tasks[1..];
      FanOutAt(streams[t.node].outputFns, t.vals, stackLimit);
      ran := true;
    }

    method InvokeAt(n: NodeId, args: Args, depth: nat)
      requires Closed(streams) && n < |streams| && forall t :: t in tasks ==> t.node < |streams|
      modifies this
      ensures streams == old(streams) && closures == old(closures)
      ensures tasks == old(tasks) + InvokeFx(streams, foreign, n, args, depth).tasks
      ensures log == old(log) + InvokeFx(streams, foreign, n, args, depth).events
      ensures forall t :: t in tasks ==> t.node < |streams|
      decreases depth, 2, 0
    {
      ghost var t0, l0 := tasks, log;
      log := log + [Invoked(n, args)];
      match streams[n].body
      case Default =>
        RunDefault(n, args);
        assert [] + DefaultTasks(n, args) == DefaultTasks(n, args);
        assert [Invoked(n, args)] + [] == [Invoked(n, args)];
      case Script(tag) =>
        var run := foreign.run(tag, args);
        ghost var ex := EmitsFx(streams, foreign, streams[n].outputFns, run.emits, depth);
        EmitAll(streams[n].outputFns, run.emits, depth);
        ghost var thrown := if run.threw then [BodyThrew(n)] else [];
        if run.threw {
          log := log + [BodyThrew(n)];
        }
        assert log == ((l0 + [Invoked(n, args)]) + ex.events) + thrown;
        AppendAssoc(l0, [Invoked(n, args)], ex.events);
        AppendAssoc(l0, [Invoked(n, args)] + ex.events, thrown);
        assert ([] + ex.tasks) + [] == ex.tasks;
    }

    /** A script body's outputs, each fanned out to the node's consumers in turn. */
    method EmitAll(cs: seq<Consumer>, emits: seq<Args>, depth: nat)
      requires Closed(streams) && TargetsIn(cs, |streams|) && forall t :: t in tasks ==> t.node < |streams|
      modifies this
      ensures streams == old(streams) && closures == old(closures)
      ensures tasks == old(tasks) + EmitsFx(streams, foreign, cs, emits, depth).tasks
      ensures log == old(log) + EmitsFx(streams, foreign, cs, emits, depth).events
      ensures forall t :: t in tasks ==> t.node < |streams|
      decreases depth, 1, 2
    {
      ghost var st, t0, l0 := streams, tasks, log;
      var i := 0;
      while i < |emits|
        invariant 0 <= i <= |emits|
        invariant streams == st && closures == old(closures)
        invariant tasks == t0 + EmitsFx(st, foreign, cs, emits[..i], depth).tasks
        invariant log == l0 + EmitsFx(st, foreign, cs, emits[..i], depth).events
      {
        EmitStep(cs, emits, i, depth, st, t0, l0);
        i := i + 1;
      }
      assert emits[..i] == emits;
    }

    /** Output `i` of a script body, after the outputs before it. */
    method EmitStep(cs: seq<Consumer>, emits: seq<Args>, i: nat, depth: nat, ghost st: seq<Node>, ghost t0: seq<Task>, ghost l0: seq<Event>)
      requires Closed(st) && TargetsIn(cs, |st|) && i < |emits| && streams == st
      requires forall t :: t in t0 ==> t.node < |st|
      requires tasks == t0 + EmitsFx(st, foreign, cs, emits[..i], depth).tasks
      requires log == l0 + EmitsFx(st, foreign, cs, emits[..i], depth).events
      modifies this
      ensures streams == st && closures == old(closures)
      ensures tasks == t0 + EmitsFx(st, foreign, cs, emits[..i + 1], depth).tasks
      ensures log == l0 + EmitsFx(st, foreign, cs, emits[..i + 1], depth).events
      decreases depth, 1, 1
    {
      ghost var ex := EmitsFx(st, foreign, cs, emits[..i], depth);
      EmitsFxStep(st, foreign, cs, emits, i, depth);
      FanOutAt(cs, emits[i], depth);
      ghost var fx := FanOutFx(st, foreign, cs, emits[i], depth);
      AppendAssoc(t0, ex.tasks, fx.tasks);
      AppendAssoc(l0, ex.events, fx.events);
    }

    /** `defaultStreamFn`: one deferred empty output for a zero-argument call, else one
        deferred output per defined argument. */
    method RunDefault(n: NodeId, args: Args)
      requires n < |streams| && forall t :: t in tasks ==> t.node < |streams|
      modifies this
      ensures streams == old(streams) && closures == old(closures) && log == old(log)
      ensures tasks == old(tasks) + DefaultTasks(n, args)
      ensures forall t :: t in tasks ==> t.node < |streams|
    {
      if |args| == 0 {
        tasks := tasks + [Emit(n, [])];
        return;
      }
      var i := 0;
      while i < |args|
        invariant 0 <= i <= |args|
        invariant streams == old(streams) && closures == old(closures) && log == old(log)
        invariant tasks == old(tasks) + DefinedEmits(n, args[..i])
      {
        assert args[..i + 1][..i] == args[..i];
        if args[i] != Undefined {
          tasks := tasks + [Emit(n, [args[i]])];
        }
        i := i + 1;
      }
      assert args[..i] == args;
    }

    /** `outputAllFns(vals...)`: every consumer, in registration order. */
    method FanOutAt(cs: seq<Consumer>, vals: Args, depth: nat)
      requires Closed(streams) && TargetsIn(cs, |streams|) && forall t :: t in tasks ==> t.node < |streams|
      modifies this
      ensures streams == old(streams) && closures == old(closures)
      ensures tasks == old(tasks) + FanOutFx(streams, foreign, cs, vals, depth).tasks
      ensures log == old(log) + FanOutFx(streams, foreign, cs, vals, depth).events
      ensures forall t :: t in tasks ==> t.node < |streams|
      decreases depth, 0, |cs| + 1
    {
      ghost var st, t0, l0 := streams, tasks, log;
      var i := 0;
      while i < |cs|
        invariant 0 <= i <= |cs|
        invariant streams == st && closures == old(closures)
        invariant tasks == t0 + FanOutFx(st, foreign, cs[..i], vals, depth).tasks
        invariant log == l0 + FanOutFx(st, foreign, cs[..i], vals, depth).events
        invariant forall t :: t in tasks ==> t.node < |st|
      {
        FanOutStep(cs, vals, i, depth, st, t0, l0);
        i := i + 1;
      }
      assert cs[..i] == cs;
    }

    /** Consumer `i` of `outputAllFns`, after the consumers before it. */
    method FanOutStep(cs: seq<Consumer>, vals: Args, i: nat, depth: nat, ghost st: seq<Node>, ghost t0: seq<Task>, ghost l0: seq<Event>)
      requires Closed(st) && TargetsIn(cs, |st|) && i < |cs| && streams == st
      requires forall t :: t in tasks ==> t.node < |st|
      requires tasks == t0 + FanOutFx(st, foreign, cs[..i], vals, depth).tasks
      requires log == l0 + FanOutFx(st, foreign, cs[..i], vals, depth).events
      modifies this
      ensures streams == st && closures == old(closures)
      ensures tasks == t0 + FanOutFx(st, foreign, cs[..i + 1], vals, depth).tasks
      ensures log == l0 + FanOutFx(st, foreign, cs[..i + 1], vals, depth).events
      ensures forall t :: t in tasks ==> t.node < |st|
      decreases depth, 0, 1
    {
      ghost var fx := FanOutFx(st, foreign, cs[..i], vals, depth);
      FanOutFxStep(st, foreign, cs, vals, i, depth);
      assert cs[i] in cs;
      CallAt(cs[i], vals, depth);
      ghost var cx := CallFx(st, foreign, cs[i], vals, depth);
      AppendAssoc(t0, fx.tasks, cx.tasks);
      AppendAssoc(l0, fx.events, cx.events);
    }

    /** `applyArgsToFn(f, vals)` for one consumer: a callback is called (what it throws is
        absorbed); a port closure invokes its node with the port vector. */
    method CallAt(c: Consumer, vals: Args, depth: nat)
      requires Closed(streams) && (c.Listener? ==> c.target < |streams|)
      requires forall t :: t in tasks ==> t.node < |streams|
      modifies this
      ensures streams == old(streams) && closures == old(closures)
      ensures tasks == old(tasks) + CallFx(streams, foreign, c, vals, depth).tasks
      ensures log == old(log) + CallFx(streams, foreign, c, vals, depth).events
      ensures forall t :: t in tasks ==> t.node < |streams|
      decreases depth, 0, 0
    {
      match c
      case Callback(tag) =>
        log := log + [Called(tag, vals, foreign.raises(tag))];
      case Listener(m, idx, _) =>
        if depth == 0 {
          log := log + [StackOverflow(m)];
        } else {
          InvokeAt(m, PortVector(idx, ArgAt(vals, 0)), depth - 1);
        }
    }

    // ---------------------------------------------------------------- wiring

    /** The unbinding step of `wait` and of the truncation loop: the port's closure leaves
        each of its sources, and both per-port entries are deleted. */
    method Release(n: NodeId, idx: nat)
      requires Valid() && n < |streams|
      modifies this
      ensures Valid()
      ensures streams == UnbindPort(old(streams), n, idx)
      ensures closures == old(closures) && tasks == old(tasks) && log == old(log)
    {
      ghost var st0 := streams;
      if idx in streams[n].inputStreams && idx in streams[n].callbacks {
        var unbind := streams[n].inputStreams[idx];
        var c := streams[n].callbacks[idx];
        assert NodeOk(st0[n], |st0|, closures);
        assert forall s :: s in unbind ==> s < |st0|;
        var i := 0;
        while i < |unbind|
          invariant 0 <= i <= |unbind|
          invariant |streams| == |st0| && closures == old(closures) && tasks == old(tasks) && log == old(log)
          invariant streams == Unsubscribe(st0, unbind[..i], c)
        {
          assert unbind[..i + 1][..i] == unbind[..i];
          var s := unbind[i];
          assert s in unbind;
          streams := streams[s := streams[s].(outputFns := Remove(streams[s].outputFns, c))];
          i := i + 1;
        }
        assert unbind[..i] == unbind;
        streams := streams[n := DeletePort(streams[n], idx)];
      }
      UnbindPortWellFormed(st0, n, idx, closures);
    }

    /** `wait(sources, idx)`: release the port, subscribe one fresh closure to every new
        source, and record the closure and the sources for the port. */
    method WaitOn(n: NodeId, sources: seq<NodeId>, idx: nat)
      requires Valid() && n < |streams| && forall s :: s in sources ==> s < |streams|
      modifies this
      ensures Valid()
      ensures streams == Wait(old(streams), n, sources, idx, old(closures))
      ensures closures == old(closures) + 1 && tasks == old(tasks) && log == old(log)
    {
      ghost var st0 := streams;
      var c := Listener(n, idx, closures);
      Release(n, idx);
      ghost var u := streams;
      var j := 0;
      while j < |sources|
        invariant 0 <= j <= |sources|
        invariant |streams| == |st0| && closures == old(closures)
        invariant streams == Subscribe(u, sources[..j], c)
        invariant tasks == old(tasks) && log == old(log)
      {
        assert sources[..j + 1][..j] == sources[..j];
        var s := sources[j];
        assert s in sources;
        streams := streams[s := streams[s].(outputFns := streams[s].outputFns + [c])];
        j := j + 1;
      }
      assert sources[..j] == sources;
      streams := streams[n := SetPort(streams[n], idx, c, sources)];
      closures := closures + 1;
      WaitWellFormed(st0, n, sources, idx, old(closures));
    }

    /** `input(args...)`: argument i is bound to port i (a stream, or the streams of an
        array; any other argument leaves its port alone); with `truncates`, every port from
        the argument count up to `inputStreams.length` is then released. */
    method Input(n: NodeId, args: seq<InputArg>)
      requires Valid() && n < |streams| && forall a :: a in args ==> ArgInGraph(a, |streams|)
      modifies this
      ensures Valid()
      ensures (streams, closures) == StreamWiring.Input(old(streams), n, args, old(closures), truncates)
      ensures tasks == old(tasks) && log == old(log)
    {
      ghost var st0, g0 := streams, closures;
      var i := 0;
      while i < |args|
        invariant 0 <= i <= |args|
        invariant Valid() && |streams| == |st0|
        invariant (streams, closures) == BindArgs(st0, n, args[..i], g0)
        invariant tasks == old(tasks) && log == old(log)
      {
        BindArgsStep(st0, n, args, i, g0);
        assert args[i] in args;
        BindArg(n, args[i], i);
        i := i + 1;
      }
      assert args[..i] == args;
      if truncates {
        Truncate(n, |args|);
      }
    }

    /** Argument `idx` of `input`: a stream or an array waits on port `idx`, anything else
        leaves the port alone. */
    method BindArg(n: NodeId, a: InputArg, idx: nat)
      requires Valid() && n < |streams| && ArgInGraph(a, |streams|)
      modifies this
      ensures Valid()
      ensures (streams, closures) == match PortSources(a)
        case None => (old(streams), old(closures))
        case Some(srcs) => (Wait(old(streams), n, srcs, idx, old(closures)), old(closures) + 1)
      ensures tasks == old(tasks) && log == old(log)
    {
      match PortSources(a) {
        case Some(srcs) =>
          assert forall s :: s in srcs ==> s < |streams| by {
            if a.Many? { StreamsInGraph(a.vs, |streams|); }
          }
          WaitOn(n, srcs, idx);
        case None =>
      }
    }

    /** The truncation loop of test/riffleLib.js: every port from `lo` up to
        `inputStreams.length` is released (a port that is not bound is skipped). */
    method Truncate(n: NodeId, lo: nat)
      requires Valid() && n < |streams|
      modifies this
      ensures Valid()
      ensures streams == TruncateRange(old(streams), n, lo, old(streams)[n].portsLength)
      ensures closures == old(closures) && tasks == old(tasks) && log == old(log)
    {
      var hi := streams[n].portsLength;
      var j := lo;
      while j < hi
        invariant lo <= j && (j == lo || j <= hi)
        invariant Valid() && |streams| == |old(streams)| && closures == old(closures)
        invariant streams == TruncateRange(old(streams), n, lo, j)
        invariant tasks == old(tasks) && log == old(log)
      {
        Release(n, j);
        j := j + 1;
      }
    }
  }
}
