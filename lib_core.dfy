/** One stream system of lib/riffle.js (`riffle()`) as an object: its streams, its hook
    lists, the `tick` queue of deferred consumer calls, and a log of what hooks, bodies
    and foreign consumers observed. Streams are numbered in creation order, so a stream's
    number is its `id`. */
module LibCore {
  import opened JsValues
  import opened LibSupport
  import opened LibSpec
  import opened LibWiring

  /** The body `stream(streamFn)` installs: `streamFn` when it is a function, the default
      body otherwise. */
  function LibBodyOf(fn: Callable): (b: LibBody)
    ensures fn.Fn? <==> b.ScriptBody?
    ensures fn.Fn? ==> b == ScriptBody(fn.tag)
  {
    match fn
    case Fn(t) => ScriptBody(t)
    case NotFn(_) => DefaultBody
  }

  /** Every queued tick calls a consumer of this system. */
  predicate TicksIn(ts: seq<Tick>, n: nat)
  {
    forall t :: t in ts && t.consumer.PortInvoker? ==> t.consumer.target < n
  }

  /** The system invariant: every port closure targets a stream of the system, and every
      stream's ports line up with their listeners and its `pairs`. */
  ghost predicate Healthy(st: seq<LibNode>, rid: nat)
  {
    LibClosed(st) && forall k :: 0 <= k < |st| ==> WiringOk(st[k], rid)
  }

  /** A stream appended with no consumers and no ports keeps the system healthy, and every
      queued tick still calls a stream of the grown system. */
  lemma FreshNodeKeepsHealthy(st: seq<LibNode>, rid: nat, body: LibBody)
    requires Healthy(st, rid)
    ensures Healthy(st + [FreshNode(body)], rid)
    ensures forall ts :: TicksIn(ts, |st|) ==> TicksIn(ts, |st| + 1)
  {
    var r := st + [FreshNode(body)];
    forall k | 0 <= k < |r| ensures ConsumersIn(r[k].outputFns, |r|) && WiringOk(r[k], rid) {
      if k < |st| {
        assert r[k] == st[k];
        assert ConsumersIn(st[k].outputFns, |st|) && WiringOk(st[k], rid);
      } else {
        assert WiringOk(FreshNode(body), rid);
      }
    }
  }

  /** The per-stream hook lists. */
  datatype LocalHook = InvokeHook | OutputHook | InputHook | UnInputHook

  function LocalHooks(nd: LibNode, h: LocalHook): seq<nat>
  {
    match h
    case InvokeHook => nd.invokeHooks
    case OutputHook => nd.outputHooks
    case InputHook => nd.inputHooks
    case UnInputHook => nd.unInputHooks
  }

  /** The stream with one hook list replaced; everything else, wiring included, stays. */
  function WithLocalHooks(nd: LibNode, h: LocalHook, l: seq<nat>): (r: LibNode)
    ensures LocalHooks(r, h) == l
    ensures forall h' :: h' != h ==> LocalHooks(r, h') == LocalHooks(nd, h')
    ensures r.inputStreams == nd.inputStreams && r.invokers == nd.invokers && r.pairs == nd.pairs
    ensures r.outputFns == nd.outputFns && r.body == nd.body && r.debugFn == nd.debugFn && r.isAsync == nd.isAsync
  {
    match h
    case InvokeHook => nd.(invokeHooks := l)
    case OutputHook => nd.(outputHooks := l)
    case InputHook => nd.(inputHooks := l)
    case UnInputHook => nd.(unInputHooks := l)
  }

  /** The system-wide hook lists. */
  datatype SystemHook = CreateHook | SysInvokeHook | SysOutputHook | SysInputHook | SysUnInputHook

  function SystemHooks(g: GlobalHooks, h: SystemHook): seq<nat>
  {
    match h
    case CreateHook => g.create
    case SysInvokeHook => g.invoke
    case SysOutputHook => g.output
    case SysInputHook => g.input
    case SysUnInputHook => g.unInput
  }

  function WithSystemHooks(g: GlobalHooks, h: SystemHook, l: seq<nat>): (r: GlobalHooks)
    ensures SystemHooks(r, h) == l
    ensures forall h' :: h' != h ==> SystemHooks(r, h') == SystemHooks(g, h')
  {
    match h
    case CreateHook => g.(create := l)
    case SysInvokeHook => g.(invoke := l)
    case SysOutputHook => g.(output := l)
    case SysInputHook => g.(input := l)
    case SysUnInputHook => g.(unInput := l)
  }

  class Riffle {
    /** `riffleCount++` at construction. */
    const riffleId: nat
    /** What foreign bodies and callbacks do. */
    const foreign: LibForeign
    /** How many port hops one synchronous chain may take before the stack ends it. */
    const stackLimit: nat

    var nodes: seq<LibNode>
    var hooks: GlobalHooks
    /** `input` calls so far: each creates one `invokeOneArg` closure. */
    var closures: nat
    /** `tick` calls not yet run, oldest first. */
    var ticks: seq<Tick>
    var log: seq<LibEvent>

    ghost predicate Valid()
      reads this
    {
      Healthy(nodes, riffleId) && TicksIn(ticks, |nodes|)
    }

    /** `riffle()`: the next system number, no streams, no hooks. */
    constructor(reg: Registry, foreign: LibForeign, stackLimit: nat)
      modifies reg
      ensures Valid()
      ensures riffleId == old(reg.riffleCount) && reg.riffleCount == old(reg.riffleCount) + 1
      ensures this.foreign == foreign && this.stackLimit == stackLimit
      ensures nodes == [] && hooks == GlobalHooks([], [], [], [], []) && closures == 0 && ticks == [] && log == []
    {
      var rid := reg.NextRiffleId();
      riffleId := rid;
      this.foreign := foreign;
      this.stackLimit := stackLimit;
      nodes := [];
      hooks := GlobalHooks([], [], [], [], []);
      closures := 0;
      ticks := [];
      log := [];
    }

    /** `stream(streamFn)`: the next `id`, the create hooks called with it, and a fresh
        asynchronous stream. */
    method NewStream(fn: Callable) returns (n: NodeId)
      requires Valid()
      modifies this
      ensures Valid()
      ensures n == old(|nodes|) && nodes == old(nodes) + [FreshNode(LibBodyOf(fn))]
      ensures log == old(log) + OutputAllHooks(hooks.create, [], Created(Id(riffleId, n)), foreign.raises)
      ensures hooks == old(hooks) && closures == old(closures) && ticks == old(ticks)
    {
      n := AddNode(LibBodyOf(fn));
    }

    /** `emit(obj)`: a stream whose body outputs `obj` (or `true`) whatever it receives. */
    method NewEmit(obj: Value) returns (n: NodeId)
      requires Valid()
      modifies this
      ensures Valid()
      ensures n == old(|nodes|) && nodes == old(nodes) + [FreshNode(EmitBody(obj))]
      ensures log == old(log) + OutputAllHooks(hooks.create, [], Created(Id(riffleId, n)), foreign.raises)
      ensures hooks == old(hooks) && closures == old(closures) && ticks == old(ticks)
    {
      n := AddNode(EmitBody(obj));
    }

    method AddNode(body: LibBody) returns (n: NodeId)
      requires Valid()
      modifies this
      ensures Valid()
      ensures n == old(|nodes|) && nodes == old(nodes) + [FreshNode(body)]
      ensures log == old(log) + OutputAllHooks(hooks.create, [], Created(Id(riffleId, n)), foreign.raises)
      ensures hooks == old(hooks) && closures == old(closures) && ticks == old(ticks)
    {
      n := |nodes|;
      FreshNodeKeepsHealthy(nodes, riffleId, body);
      log := log + OutputAllHooks(hooks.create, [], Created(Id(riffleId, n)), foreign.raises);
      nodes := nodes + [FreshNode(body)];
    }

    // ---------------------------------------------------------------- settings and hooks

    /** `isAsync(isIt)`: any value is stored; its truthiness decides later outputs. */
    method SetAsync(n: NodeId, v: Value)
      requires Valid() && n < |nodes|
      modifies this
      ensures Valid()
      ensures nodes == old(nodes)[n := old(nodes)[n].(isAsync := v)]
      ensures hooks == old(hooks) && closures == old(closures) && ticks == old(ticks) && log == old(log)
    {
      nodes := nodes[n := nodes[n].(isAsync := v)];
      assert WiringOk(nodes[n], riffleId) by {
        assert WiringOk(old(nodes)[n], riffleId);
      }
    }

    /** `debug(f)`. */
    method SetDebug(n: NodeId, f: Callable)
      requires Valid() && n < |nodes|
      modifies this
      ensures Valid()
      ensures nodes == old(nodes)[n := old(nodes)[n].(debugFn := Debug(old(nodes)[n].debugFn, f))]
      ensures hooks == old(hooks) && closures == old(closures) && ticks == old(ticks) && log == old(log)
    {
      nodes := nodes[n := nodes[n].(debugFn := Debug(nodes[n].debugFn, f))];
      assert WiringOk(nodes[n], riffleId) by {
        assert WiringOk(old(nodes)[n], riffleId);
      }
    }

    /** `_onOutput(f)`: a function becomes a consumer (again, if it already is one);
        anything else throws. */
    method OnOutputFn(n: NodeId, f: Callable) returns (o: Outcome)
      requires Valid() && n < |nodes|
      modifies this
      ensures Valid()
      ensures o == AssertFunction(f)
      ensures f.NotFn? ==> nodes == old(nodes)
      ensures f.Fn? ==> nodes == old(nodes)[n := old(nodes)[n].(outputFns := old(nodes)[n].outputFns + [Callback(f.tag)])]
      ensures hooks == old(hooks) && closures == old(closures) && ticks == old(ticks) && log == old(log)
    {
      if f.NotFn? {
        return AssertFunction(f);
      }
      nodes := nodes[n := nodes[n].(outputFns := nodes[n].outputFns + [Callback(f.tag)])];
      assert WiringOk(nodes[n], riffleId) by {
        assert WiringOk(old(nodes)[n], riffleId);
      }
      o := Done;
    }

    /** `_offOutput(f)`: the first registration of a function leaves the consumers;
        anything else throws. */
    method OffOutputFn(n: NodeId, f: Callable) returns (o: Outcome)
      requires Valid() && n < |nodes|
      modifies this
      ensures Valid()
      ensures o == AssertFunction(f)
      ensures f.NotFn? ==> nodes == old(nodes)
      ensures f.Fn? ==> nodes == old(nodes)[n := old(nodes)[n].(outputFns := RemoveFirst(old(nodes)[n].outputFns, Callback(f.tag)))]
      ensures hooks == old(hooks) && closures == old(closures) && ticks == old(ticks) && log == old(log)
    {
      if f.NotFn? {
        return AssertFunction(f);
      }
      RemoveFirstKeeps(nodes[n].outputFns, Callback(f.tag));
      nodes := nodes[n := nodes[n].(outputFns := RemoveFirst(nodes[n].outputFns, Callback(f.tag)))];
      assert WiringOk(nodes[n], riffleId) by {
        assert WiringOk(old(nodes)[n], riffleId);
      }
      o := Done;
    }

    /** `chain.onInvoke` / `onOutput` / `onInput` / `onUnInput` (`on`) and their `off`
        partners: `hookFn` / `unhookFn` on the stream's own list. */
    method HookLocal(n: NodeId, h: LocalHook, f: Callable, on: bool) returns (o: Outcome)
      requires Valid() && n < |nodes|
      modifies this
      ensures Valid()
      ensures var l := LocalHooks(old(nodes)[n], h);
        var r := if on then HookOn(l, f) else HookOff(l, f);
        o == r.1 && nodes == old(nodes)[n := WithLocalHooks(old(nodes)[n], h, r.0)]
      ensures hooks == old(hooks) && closures == old(closures) && ticks == old(ticks) && log == old(log)
    {
      var l := LocalHooks(nodes[n], h);
      var r := if on then HookOn(l, f) else HookOff(l, f);
      nodes := nodes[n := WithLocalHooks(nodes[n], h, r.0)];
      assert WiringOk(nodes[n], riffleId) by {
        assert WiringOk(old(nodes)[n], riffleId);
      }
      o := r.1;
    }

    /** `stream.onCreate` … `stream.offUnInput`: the same on the system's lists. */
    method HookSystem(h: SystemHook, f: Callable, on: bool) returns (o: Outcome)
      modifies this
      ensures var l := SystemHooks(old(hooks), h);
        var r := if on then HookOn(l, f) else HookOff(l, f);
        o == r.1 && hooks == WithSystemHooks(old(hooks), h, r.0)
      ensures nodes == old(nodes) && closures == old(closures) && ticks == old(ticks) && log == old(log)
    {
      var l := SystemHooks(hooks, h);
      var r := if on then HookOn(l, f) else HookOff(l, f);
      hooks := WithSystemHooks(hooks, h, r.0);
      o := r.1;
    }

    // ---------------------------------------------------------------- invocation

    /** `chain.invoke(args...)`: hooks and body run now; asynchronous consumer calls join
        the tick queue. */
    method Invoke(n: NodeId, args: Args)
      requires Valid() && n < |nodes|
      modifies this
      ensures Valid()
      ensures nodes == old(nodes) && hooks == old(hooks) && closures == old(closures)
      ensures LibClosed(nodes)
      ensures ticks == old(ticks) + InvokeFx(nodes, hooks, foreign, riffleId, n, args, stackLimit).ticks
      ensures log == old(log) + InvokeFx(nodes, hooks, foreign, riffleId, n, args, stackLimit).events
    {
      InvokeTicksIn(nodes, hooks, foreign, riffleId, n, args, stackLimit);
      var fx := RunInvoke(nodes, hooks, foreign, riffleId, n, args, stackLimit);
      ticks := ticks + fx.ticks;
      log := log + fx.events;
    }

    /** One turn of the event loop: the oldest tick calls its consumer, the one captured
        when the output was made. */
    method Step() returns (ran: bool)
      requires Valid()
      modifies this
      ensures Valid()
      ensures nodes == old(nodes) && hooks == old(hooks) && closures == old(closures)
      ensures ran <==> old(ticks) != []
      ensures !ran ==> ticks == old(ticks) && log == old(log)
      ensures ran ==> (LibClosed(nodes) && (old(ticks)[0].consumer.PortInvoker? ==> old(ticks)[0].consumer.target < |nodes|)
        && ticks == old(ticks)[1..] + CallFx(nodes, hooks, foreign, riffleId, old(ticks)[0].consumer, old(ticks)[0].arg, stackLimit).ticks
        && log == old(log) + CallFx(nodes, hooks, foreign, riffleId, old(ticks)[0].consumer, old(ticks)[0].arg, stackLimit).events)
    {
      if ticks == [] {
        return false;
      }
      var t := ticks[0];
      assert t in ticks;
      CallTicksIn(nodes, hooks, foreign, riffleId, t.consumer, t.arg, stackLimit);
      var fx := RunCall(nodes, hooks, foreign, riffleId, t.consumer, t.arg, stackLimit);
      ticks := ticks[1..] + fx.ticks;
      log := log + fx.events;
      ran := true;
    }

    // ---------------------------------------------------------------- wiring

    /** `chain.input(inputs, idx)`: one new listener for the call; each stream among the
        inputs that is not yet on the port subscribes it and joins the port. */
    method Input(n: NodeId, a: InputArg, idx: nat)
      requires Valid() && n < |nodes| && ArgIn(a, |nodes|)
      modifies this
      ensures Valid()
      ensures closures == old(closures) + 1
      ensures var w := LibWiring.Input(old(nodes), hooks, foreign.raises, riffleId, n, a, idx, old(closures));
        nodes == w.nodes && log == old(log) + w.events
      ensures hooks == old(hooks) && ticks == old(ticks)
    {
      SourcesIn(a, |nodes|);
      var srcs := SourcesOf(Arrayify(a));
      InputAllKeepsHealthy(nodes, hooks, foreign.raises, riffleId, n, srcs, idx, closures);
      var w := RunInput(nodes, hooks, foreign.raises, riffleId, n, srcs, idx, closures);
      nodes := w.nodes;
      log := log + w.events;
      closures := closures + 1;
    }

    /** `chain.unInput(inputs, idx)`, with the listener taken from the source's own
        position: each stream among the inputs that is on the port leaves it and stops
        delivering to this stream. With the system invariant it never throws. */
    method UnInput(n: NodeId, a: InputArg, idx: nat)
      requires Valid() && n < |nodes| && ArgIn(a, |nodes|)
      modifies this
      ensures Valid()
      ensures var w := LibWiring.UnInput(old(nodes), hooks, foreign.raises, riffleId, n, a, idx, false);
        w.outcome == Done && nodes == w.nodes && log == old(log) + w.events
      ensures hooks == old(hooks) && ticks == old(ticks) && closures == old(closures)
    {
      SourcesIn(a, |nodes|);
      var srcs := SourcesOf(Arrayify(a));
      UnInputNeverThrows(nodes, hooks, foreign.raises, riffleId, n, srcs, idx);
      var w := RunUnInput(nodes, hooks, foreign.raises, riffleId, n, srcs, idx);
      nodes := w.nodes;
      log := log + w.events;
    }
    /** `chain.isInput(input)`: whether the source has a pairing on some port of stream
        `n`; before the stream's first `input` it throws. */
    method IsInputOf(n: NodeId, s: NodeId) returns (r: Result<bool>)
      requires Valid() && n < |nodes|
      ensures r == IsInput(nodes[n], riffleId, s)
      ensures r.Ok? ==> (r.value <==> Id(riffleId, s) in PairsOf(nodes[n].pairs))
      ensures r.Ok? ==> (r.value <==> exists i :: 0 <= i < |nodes[n].inputStreams| && s in nodes[n].inputStreams[i])
    {
      match nodes[n].pairs
      case None =>
        r := Err(TypeError("Cannot read properties of undefined (reading 'indexOf')"));
      case Some(p) =>
        assert WiringOk(nodes[n], riffleId);
        IsInputMeansBound(nodes[n], riffleId, s);
        r := Ok(IndexOf(p, Id(riffleId, s)) > -1);
    }
  }

  // ---------------------------------------------------------------- synchronous runs

  /** `chain.invoke(args...)` on the streams `st`: the invoke hooks, then the active body
      with `outputAllFns`; returns the ticks it leaves and what it was observed doing. */
  method RunInvoke(st: seq<LibNode>, g: GlobalHooks, f: LibForeign, rid: nat, n: NodeId, args: Args, depth: nat) returns (fx: LibEffects)
    requires LibClosed(st) && n < |st|
    ensures fx == InvokeFx(st, g, f, rid, n, args, depth)
    decreases depth, 4, 0
  {
    var pre := [Invoked(n, args)] + OutputAllHooks(g.invoke, st[n].invokeHooks, Invoking(Id(rid, n), args), f.raises);
    match ActiveBody(st[n])
    case DefaultBody =>
      var out := RunOutput(st, g, f, rid, n, ArgAt(args, 0), depth);
      fx := LibEffects(out.ticks, pre + out.events);
    case EmitBody(obj) =>
      var out := RunOutput(st, g, f, rid, n, EmitValue(obj), depth);
      fx := LibEffects(out.ticks, pre + out.events);
    case ScriptBody(t) =>
      var run := f.run(t, args);
      var outs := RunOuts(st, g, f, rid, n, run.outs, depth);
      fx := LibEffects(outs.ticks, pre + outs.events);
      if run.threw {
        fx := fx.(events := fx.events + [BodyThrew(n)]);
      }
  }

  /** The outputs a foreign body makes through `outputAllFns`, in order. */
  method RunOuts(st: seq<LibNode>, g: GlobalHooks, f: LibForeign, rid: nat, n: NodeId, outs: seq<Value>, depth: nat) returns (fx: LibEffects)
    requires LibClosed(st) && n < |st|
    ensures fx == OutsFx(st, g, f, rid, n, outs, depth)
    decreases depth, 3, 0
  {
    fx := LibEffects([], []);
    var i := 0;
    while i < |outs|
      invariant 0 <= i <= |outs|
      invariant fx == OutsFx(st, g, f, rid, n, outs[..i], depth)
    {
      assert outs[..i + 1][..i] == outs[..i];
      var out := RunOutput(st, g, f, rid, n, outs[i], depth);
      fx := Seq(fx, out);
      i := i + 1;
    }
    assert outs[..i] == outs;
  }

  /** `outputAllFns(arg)`: the output hooks, then each consumer on its own tick, or in
      turn now when the stream is synchronous. */
  method RunOutput(st: seq<LibNode>, g: GlobalHooks, f: LibForeign, rid: nat, n: NodeId, arg: Value, depth: nat) returns (fx: LibEffects)
    requires LibClosed(st) && n < |st|
    ensures fx == OutputFx(st, g, f, rid, n, arg, depth)
    decreases depth, 2, 0
  {
    var hooked := OutputAllHooks(g.output, st[n].outputHooks, Outputting(Id(rid, n), arg), f.raises);
    if Truthy(st[n].isAsync) {
      fx := LibEffects(Ticks(st[n].outputFns, arg), hooked);
    } else {
      var calls := RunFanOut(st, g, f, rid, st[n].outputFns, arg, depth);
      fx := LibEffects(calls.ticks, hooked + calls.events);
    }
  }

  /** The synchronous loop over the consumers. */
  method RunFanOut(st: seq<LibNode>, g: GlobalHooks, f: LibForeign, rid: nat, cs: seq<LibConsumer>, arg: Value, depth: nat) returns (fx: LibEffects)
    requires LibClosed(st) && ConsumersIn(cs, |st|)
    ensures fx == FanOutFx(st, g, f, rid, cs, arg, depth)
    decreases depth, 1, 0
  {
    fx := LibEffects([], []);
    var i := 0;
    while i < |cs|
      invariant 0 <= i <= |cs|
      invariant ConsumersIn(cs[..i], |st|)
      invariant fx == FanOutFx(st, g, f, rid, cs[..i], arg, depth)
    {
      assert cs[..i + 1][..i] == cs[..i];
      assert cs[i] in cs;
      var call := RunCall(st, g, f, rid, cs[i], arg, depth);
      fx := Seq(fx, call);
      i := i + 1;
    }
    assert cs[..i] == cs;
  }

  /** `applyArgsToFn(c, [arg])`: a foreign consumer is called and what it throws is
      absorbed; a port closure invokes its stream. */
  method RunCall(st: seq<LibNode>, g: GlobalHooks, f: LibForeign, rid: nat, c: LibConsumer, arg: Value, depth: nat) returns (fx: LibEffects)
    requires LibClosed(st) && (c.PortInvoker? ==> c.target < |st|)
    ensures fx == CallFx(st, g, f, rid, c, arg, depth)
    decreases depth, 0, 0
  {
    match c
    case Callback(t) =>
      fx := LibEffects([], [Called(t, arg, f.raises(t))]);
    case PortInvoker(m, idx, _) =>
      if depth == 0 {
        fx := LibEffects([], [StackOverflow(m)]);
      } else {
        fx := RunInvoke(st, g, f, rid, m, LibPortVector(idx, arg), depth - 1);
      }
  }

  // ---------------------------------------------------------------- wiring runs

  /** The loop of `input` over its sources, with the one closure `gen` of the call. */
  method RunInput(st: seq<LibNode>, g: GlobalHooks, raises: nat -> bool, rid: nat, n: NodeId, srcs: seq<NodeId>, idx: nat, gen: nat) returns (w: Wired)
    requires n < |st| && forall i :: 0 <= i < |srcs| ==> srcs[i] < |st|
    ensures w == InputAll(st, g, raises, rid, n, srcs, idx, gen)
  {
    var nodes := st;
    var events := [];
    var i := 0;
    while i < |srcs|
      invariant 0 <= i <= |srcs|
      invariant Wired(nodes, events) == InputAll(st, g, raises, rid, n, srcs[..i], idx, gen)
    {
      assert srcs[..i + 1][..i] == srcs[..i];
      var s := srcs[i];
      if s !in PortAt(nodes[n].inputStreams, idx) {
        var inv := PortInvoker(n, idx, gen);
        nodes := nodes[s := nodes[s].(outputFns := nodes[s].outputFns + [inv])];
        nodes := nodes[n := BindNode(nodes[n], rid, s, idx, inv)];
        events := events + OutputAllHooks(g.input, nodes[n].inputHooks, Inputting(Id(rid, n), idx, Id(rid, s)), raises);
      }
      i := i + 1;
    }
    assert srcs[..i] == srcs;
    w := Wired(nodes, events);
  }

  /** The loop of the intended `unInput` over its sources; a missing listener throws and
      ends the call. */
  method RunUnInput(st: seq<LibNode>, g: GlobalHooks, raises: nat -> bool, rid: nat, n: NodeId, srcs: seq<NodeId>, idx: nat) returns (w: UnWired)
    requires n < |st| && forall i :: 0 <= i < |srcs| ==> srcs[i] < |st|
    ensures w == UnInputAll(st, g, raises, rid, n, srcs, idx, false)
  {
    var nodes := st;
    var events := [];
    var i := 0;
    while i < |srcs|
      invariant 0 <= i <= |srcs|
      invariant UnWired(nodes, events, Done) == UnInputAll(st, g, raises, rid, n, srcs[..i], idx, false)
    {
      UnInputAllStep(st, g, raises, rid, n, srcs, i, idx);
      hide UnInputAll;
      var s := srcs[i];
      var k := IndexOf(PortAt(nodes[n].inputStreams, idx), s);
      if k >= 0 {
        if k >= |PortAt(nodes[n].invokers, idx)| {
          w := UnWired(nodes, events, AssertFunction(NotFn(Undefined)));
          UnInputAllStops(st, g, raises, rid, n, srcs, i + 1, idx, false);
          return;
        }
        var inv := nodes[n].invokers[idx][k];
        nodes := nodes[s := nodes[s].(outputFns := RemoveFirst(nodes[s].outputFns, inv))];
        nodes := nodes[n := UnbindNode(nodes[n], rid, s, idx, k)];
        events := events + OutputAllHooks(g.unInput, nodes[n].unInputHooks, UnInputting(Id(rid, n), idx, Id(rid, s)), raises);
      }
      i := i + 1;
    }
    assert srcs[..i] == srcs;
    w := UnWired(nodes, events, Done);
  }

  // ---------------------------------------------------------------- lemmas

  /** No tick ever calls a port closure outside the system. */
  lemma InvokeTicksIn(st: seq<LibNode>, g: GlobalHooks, f: LibForeign, rid: nat, n: NodeId, args: Args, depth: nat)
    requires LibClosed(st) && n < |st|
    ensures TicksIn(InvokeFx(st, g, f, rid, n, args, depth).ticks, |st|)
    decreases depth, 4, 0
  {
    match ActiveBody(st[n])
    case DefaultBody => OutputTicksIn(st, g, f, rid, n, ArgAt(args, 0), depth);
    case EmitBody(obj) => OutputTicksIn(st, g, f, rid, n, EmitValue(obj), depth);
    case ScriptBody(t) => OutsTicksIn(st, g, f, rid, n, f.run(t, args).outs, depth);
  }

  lemma OutsTicksIn(st: seq<LibNode>, g: GlobalHooks, f: LibForeign, rid: nat, n: NodeId, outs: seq<Value>, depth: nat)
    requires LibClosed(st) && n < |st|
    ensures TicksIn(OutsFx(st, g, f, rid, n, outs, depth).ticks, |st|)
    decreases depth, 3, |outs|
  {
    if outs != [] {
      OutsTicksIn(st, g, f, rid, n, outs[..|outs| - 1], depth);
      OutputTicksIn(st, g, f, rid, n, outs[|outs| - 1], depth);
    }
  }

  lemma OutputTicksIn(st: seq<LibNode>, g: GlobalHooks, f: LibForeign, rid: nat, n: NodeId, arg: Value, depth: nat)
    requires LibClosed(st) && n < |st|
    ensures TicksIn(OutputFx(st, g, f, rid, n, arg, depth).ticks, |st|)
    decreases depth, 2, 0
  {
    if Truthy(st[n].isAsync) {
      TicksTarget(st[n].outputFns, arg, |st|);
    } else {
      FanOutTicksIn(st, g, f, rid, st[n].outputFns, arg, depth);
    }
  }

  lemma FanOutTicksIn(st: seq<LibNode>, g: GlobalHooks, f: LibForeign, rid: nat, cs: seq<LibConsumer>, arg: Value, depth: nat)
    requires LibClosed(st) && ConsumersIn(cs, |st|)
    ensures TicksIn(FanOutFx(st, g, f, rid, cs, arg, depth).ticks, |st|)
    decreases depth, 1, |cs|
  {
    if cs != [] {
      assert cs[|cs| - 1] in cs;
      FanOutTicksIn(st, g, f, rid, cs[..|cs| - 1], arg, depth);
      CallTicksIn(st, g, f, rid, cs[|cs| - 1], arg, depth);
    }
  }

  lemma CallTicksIn(st: seq<LibNode>, g: GlobalHooks, f: LibForeign, rid: nat, c: LibConsumer, arg: Value, depth: nat)
    requires LibClosed(st) && (c.PortInvoker? ==> c.target < |st|)
    ensures TicksIn(CallFx(st, g, f, rid, c, arg, depth).ticks, |st|)
    decreases depth, 0, 0
  {
    if c.PortInvoker? && depth > 0 {
      InvokeTicksIn(st, g, f, rid, c.target, LibPortVector(c.port, arg), depth - 1);
    }
  }

  lemma TicksTarget(cs: seq<LibConsumer>, arg: Value, n: nat)
    requires ConsumersIn(cs, n)
    ensures TicksIn(Ticks(cs, arg), n)
  {
    forall t | t in Ticks(cs, arg) && t.consumer.PortInvoker? ensures t.consumer.target < n {
      var i :| 0 <= i < |Ticks(cs, arg)| && Ticks(cs, arg)[i] == t;
      assert cs[i] in cs;
    }
  }

  /** Removing one consumer never adds a target. */
  lemma RemoveFirstKeeps(cs: seq<LibConsumer>, c: LibConsumer)
    ensures forall d :: d in RemoveFirst(cs, c) ==> d in cs
  {
    RemoveFirstOnly(cs, c);
    forall d | d in RemoveFirst(cs, c) ensures d in cs {
      assert multiset(RemoveFirst(cs, c))[d] > 0;
    }
  }

  /** Under the invariant a port and its listeners have the same length. */
  lemma PortLengths(nd: LibNode, rid: nat, idx: nat)
    requires WiringOk(nd, rid)
    ensures |PortAt(nd.invokers, idx)| == |PortAt(nd.inputStreams, idx)|
    ensures idx < |nd.inputStreams| ==> idx < |nd.invokers|
  {
  }

  /** Replacing one stream by a healthy stream of the same system keeps the system healthy. */
  lemma HealthyUpdate(st: seq<LibNode>, rid: nat, j: NodeId, nd: LibNode)
    requires Healthy(st, rid) && j < |st| && ConsumersIn(nd.outputFns, |st|) && WiringOk(nd, rid)
    ensures Healthy(st[j := nd], rid)
  {
    var r := st[j := nd];
    forall k | 0 <= k < |r| ensures ConsumersIn(r[k].outputFns, |r|) && WiringOk(r[k], rid) {
      if k != j {
        assert r[k] == st[k];
        assert ConsumersIn(st[k].outputFns, |st|) && WiringOk(st[k], rid);
      }
    }
  }

  /** Binding one source keeps the system invariant. */
  lemma InputOneKeepsHealthy(st: seq<LibNode>, g: GlobalHooks, raises: nat -> bool, rid: nat, n: NodeId, s: NodeId, idx: nat, gen: nat)
    requires Healthy(st, rid) && n < |st| && s < |st|
    ensures Healthy(InputOne(st, g, raises, rid, n, s, idx, gen).nodes, rid)
  {
    if s !in PortAt(st[n].inputStreams, idx) {
      var inv := PortInvoker(n, idx, gen);
      var st1 := st[s := st[s].(outputFns := st[s].outputFns + [inv])];
      assert ConsumersIn(st[s].outputFns, |st|) && WiringOk(st[s], rid);
      assert WiringOk(st1[s], rid) by {
        assert st1[s].inputStreams == st[s].inputStreams && st1[s].invokers == st[s].invokers && st1[s].pairs == st[s].pairs;
      }
      HealthyUpdate(st, rid, s, st1[s]);
      assert WiringOk(st1[n], rid) && ConsumersIn(st1[n].outputFns, |st1|);
      BindNodeKeepsWiring(st1[n], rid, s, idx, inv);
      HealthyUpdate(st1, rid, n, BindNode(st1[n], rid, s, idx, inv));
    }
  }

  /** Unbinding one source keeps the system invariant. */
  lemma UnInputOneKeepsHealthy(st: seq<LibNode>, g: GlobalHooks, raises: nat -> bool, rid: nat, n: NodeId, s: NodeId, idx: nat)
    requires Healthy(st, rid) && n < |st| && s < |st|
    ensures Healthy(UnInputOne(st, g, raises, rid, n, s, idx).nodes, rid)
  {
    var port := PortAt(st[n].inputStreams, idx);
    var k := IndexOf(port, s);
    assert WiringOk(st[n], rid);
    PortLengths(st[n], rid, idx);
    if k >= 0 {
      var inv := st[n].invokers[idx][k];
      var st1 := st[s := st[s].(outputFns := RemoveFirst(st[s].outputFns, inv))];
      RemoveFirstKeeps(st[s].outputFns, inv);
      assert ConsumersIn(st[s].outputFns, |st|) && WiringOk(st[s], rid);
      assert WiringOk(st1[s], rid) by {
        assert st1[s].inputStreams == st[s].inputStreams && st1[s].invokers == st[s].invokers && st1[s].pairs == st[s].pairs;
      }
      HealthyUpdate(st, rid, s, st1[s]);
      UnInputOneKeepsWiring(st, g, raises, rid, n, s, idx);
      var r := UnInputOne(st, g, raises, rid, n, s, idx).nodes;
      assert r == st1[n := r[n]] && r[n].outputFns == st1[n].outputFns;
      assert ConsumersIn(st1[n].outputFns, |st1|);
      HealthyUpdate(st1, rid, n, r[n]);
    }
  }

  /** Under the invariant the intended `unInput` never throws, for any list of sources. */
  lemma {:induction false} UnInputNeverThrows(st: seq<LibNode>, g: GlobalHooks, raises: nat -> bool, rid: nat, n: NodeId, srcs: seq<NodeId>, idx: nat)
    requires Healthy(st, rid) && n < |st| && forall i :: 0 <= i < |srcs| ==> srcs[i] < |st|
    ensures UnInputAll(st, g, raises, rid, n, srcs, idx, false).outcome == Done
    ensures Healthy(UnInputAll(st, g, raises, rid, n, srcs, idx, false).nodes, rid)
  {
    if srcs != [] {
      var init := srcs[..|srcs| - 1];
      UnInputNeverThrows(st, g, raises, rid, n, init, idx);
      var w := UnInputAll(st, g, raises, rid, n, init, idx, false);
      var s := srcs[|srcs| - 1];
      PortLengths(w.nodes[n], rid, idx);
      UnInputOneKeepsHealthy(w.nodes, g, raises, rid, n, s, idx);
    }
  }

  /** One more source of the intended `unInput`, after a prefix that returned normally. */
  lemma UnInputAllStep(st: seq<LibNode>, g: GlobalHooks, raises: nat -> bool, rid: nat, n: NodeId, srcs: seq<NodeId>, i: nat, idx: nat)
    requires n < |st| && (forall j :: 0 <= j < |srcs| ==> srcs[j] < |st|) && i < |srcs|
    ensures var w := UnInputAll(st, g, raises, rid, n, srcs[..i], idx, false);
      var w2 := UnInputOne(w.nodes, g, raises, rid, n, srcs[i], idx);
      w.outcome == Done ==>
        UnInputAll(st, g, raises, rid, n, srcs[..i + 1], idx, false) == UnWired(w2.nodes, w.events + w2.events, w2.outcome)
  {
    assert srcs[..i + 1][..i] == srcs[..i];
  }

  /** A throw ends `unInput`: the sources after it are not looked at. */
  lemma {:induction false} UnInputAllStops(st: seq<LibNode>, g: GlobalHooks, raises: nat -> bool, rid: nat, n: NodeId, srcs: seq<NodeId>, j: nat, idx: nat, asWritten: bool)
    requires n < |st| && (forall i :: 0 <= i < |srcs| ==> srcs[i] < |st|) && j <= |srcs|
    requires UnInputAll(st, g, raises, rid, n, srcs[..j], idx, asWritten).outcome.Threw?
    ensures UnInputAll(st, g, raises, rid, n, srcs, idx, asWritten) == UnInputAll(st, g, raises, rid, n, srcs[..j], idx, asWritten)
    decreases |srcs| - j
  {
    if j == |srcs| {
      assert srcs[..j] == srcs;
    } else {
      assert srcs[..j + 1][..j] == srcs[..j];
      UnInputAllStops(st, g, raises, rid, n, srcs, j + 1, idx, asWritten);
    }
  }

  /** Every `input` call keeps the system invariant. */
  lemma {:induction false} InputAllKeepsHealthy(st: seq<LibNode>, g: GlobalHooks, raises: nat -> bool, rid: nat, n: NodeId, srcs: seq<NodeId>, idx: nat, gen: nat)
    requires Healthy(st, rid) && n < |st| && forall i :: 0 <= i < |srcs| ==> srcs[i] < |st|
    ensures Healthy(InputAll(st, g, raises, rid, n, srcs, idx, gen).nodes, rid)
  {
    if srcs != [] {
      var init := srcs[..|srcs| - 1];
      InputAllKeepsHealthy(st, g, raises, rid, n, init, idx, gen);
      var w := InputAll(st, g, raises, rid, n, init, idx, gen);
      InputOneKeepsHealthy(w.nodes, g, raises, rid, n, srcs[|srcs| - 1], idx, gen);
    }
  }

  /** Within one system, distinct streams have distinct ids. */
  lemma StreamIdsDistinct(rid: nat, i: nat, j: nat)
    requires i != j
    ensures Id(rid, i) != Id(rid, j)
  {
    IdInjective(rid, i, rid, j);
  }
}
