/** The stream engine of lib/riffle.js as pure functions: what one invocation of a node
    does synchronously (hooks, body, output to the consumers) and what it leaves for
    later ticks. Bodies receive `outputAllFns`, which forwards only its first argument;
    every consumer call is wrapped so that exceptions are absorbed. */
module LibSpec {
  import opened JsValues
  import opened LibSupport

  /** A registered `_onOutput` consumer: a foreign function known by its tag, or the
      `invokeOneArg` closure that one `input(…, idx)` call creates for node `target`. */
  datatype LibConsumer = Callback(tag: nat) | PortInvoker(target: NodeId, port: nat, gen: nat)

  /** The body `stream(streamFn)` installs: a foreign function, the default body, or the
      body `emit(obj)` builds. */
  datatype LibBody = DefaultBody | ScriptBody(tag: nat) | EmitBody(obj: Value)

  /** What one run of a foreign body does synchronously: the values it passes to its
      output continuation, in order, and whether it then throws. */
  datatype Run = Run(outs: seq<Value>, threw: bool)

  /** The behaviour of foreign code, fixed for a run of the model. */
  datatype LibForeign = LibForeign(raises: nat -> bool, run: (nat, Args) -> Run)

  /** One stream: its body and `debugFn`, `isAsync`, its consumers and local hooks, and
      the per-port `inputStreams` / `invokers` arrays (a hole reads as an empty port;
      `pairs[chain._id()]` is `None` until the first input). */
  datatype LibNode = LibNode(
    body: LibBody,
    debugFn: Option<nat>,
    isAsync: Value,
    outputFns: seq<LibConsumer>,
    invokeHooks: seq<nat>,
    outputHooks: seq<nat>,
    inputStreams: seq<seq<NodeId>>,
    invokers: seq<seq<LibConsumer>>,
    pairs: Option<seq<string>>,
    inputHooks: seq<nat>,
    unInputHooks: seq<nat>)

  /** A fresh stream: asynchronous, no debug body, no consumers, hooks or ports. */
  function FreshNode(body: LibBody): LibNode
  {
    LibNode(body, None, Bool(true), [], [], [], [], [], None, [], [])
  }

  /** The hook lists of a stream system (`createHooks`, `invokeHooks`, …). */
  datatype GlobalHooks = GlobalHooks(
    create: seq<nat>, invoke: seq<nat>, output: seq<nat>, input: seq<nat>, unInput: seq<nat>)

  /** A deferred call `tick(() => applyArgsToFn(f, [arg]))`. */
  datatype Tick = Tick(consumer: LibConsumer, arg: Value)

  datatype LibEffects = LibEffects(ticks: seq<Tick>, events: seq<LibEvent>)

  function Seq(a: LibEffects, b: LibEffects): LibEffects
  {
    LibEffects(a.ticks + b.ticks, a.events + b.events)
  }

  predicate ConsumersIn(cs: seq<LibConsumer>, n: nat)
  {
    forall c :: c in cs && c.PortInvoker? ==> c.target < n
  }

  /** Every port closure registered anywhere points at a stream of the system. */
  predicate LibClosed(st: seq<LibNode>)
  {
    forall k :: 0 <= k < |st| ==> ConsumersIn(st[k].outputFns, |st|)
  }

  /** The value `emit(obj)` outputs: `obj` unless it is `undefined`, then `true`. */
  function EmitValue(obj: Value): (v: Value)
    ensures v != Undefined
    ensures obj != Undefined ==> v == obj
  {
    if obj == Undefined then Bool(true) else obj
  }

  /** The arguments `invokeOneArg(x)` passes: `outputs[idx] = x` on an empty array, so
      the vector always has length `idx + 1`, even for `undefined`. */
  function LibPortVector(idx: nat, x: Value): (r: Args)
    ensures |r| == idx + 1 && r[idx] == x
    ensures forall k :: 0 <= k < idx ==> r[k] == Undefined
  {
    Repeat(Undefined, idx) + [x]
  }

  /** `debug(f)`: a function becomes the body override, `null` clears it, anything else
      keeps the current one. */
  function Debug(current: Option<nat>, f: Callable): (r: Option<nat>)
    ensures f.Fn? ==> r == Some(f.tag)
    ensures f == NotFn(Null) ==> r == None
    ensures f.NotFn? && f.v != Null ==> r == current
  {
    if f.Fn? then Some(f.tag) else if f.v == Null then None else current
  }

  /** The body that `invoke` runs: `debugFn` when it is set, else the stream's own. */
  function ActiveBody(node: LibNode): (b: LibBody)
    ensures node.debugFn.Some? ==> b == ScriptBody(node.debugFn.value)
    ensures node.debugFn.None? ==> b == node.body
  {
    match node.debugFn
    case Some(t) => ScriptBody(t)
    case None => node.body
  }

  /** One tick per consumer, in registration order. */
  function Ticks(cs: seq<LibConsumer>, arg: Value): (r: seq<Tick>)
    ensures |r| == |cs| && forall i :: 0 <= i < |cs| ==> r[i] == Tick(cs[i], arg)
  {
    if cs == [] then [] else Ticks(cs[..|cs| - 1], arg) + [Tick(cs[|cs| - 1], arg)]
  }

  // ---------------------------------------------------------------- synchronous effects

  /** `chain.invoke(args...)`: invoke hooks (global, then local), then the body with
      `outputAllFns` prepended. A chain of synchronous port hops longer than `depth` is
      cut off, as the JavaScript stack would cut it. */
  function InvokeFx(st: seq<LibNode>, g: GlobalHooks, f: LibForeign, rid: nat, n: NodeId, args: Args, depth: nat): (r: LibEffects)
    requires LibClosed(st) && n < |st|
    ensures |r.events| >= 1 && r.events[0] == Invoked(n, args)
    decreases depth, 4, 0
  {
    var pre := LibEffects([], [Invoked(n, args)] + OutputAllHooks(g.invoke, st[n].invokeHooks, Invoking(Id(rid, n), args), f.raises));
    match ActiveBody(st[n])
    case DefaultBody => Seq(pre, OutputFx(st, g, f, rid, n, ArgAt(args, 0), depth))
    case EmitBody(obj) => Seq(pre, OutputFx(st, g, f, rid, n, EmitValue(obj), depth))
    case ScriptBody(t) =>
      var run := f.run(t, args);
      Seq(Seq(pre, OutsFx(st, g, f, rid, n, run.outs, depth)), LibEffects([], if run.threw then [BodyThrew(n)] else []))
  }

  /** The outputs a foreign body makes, one after the other. */
  function OutsFx(st: seq<LibNode>, g: GlobalHooks, f: LibForeign, rid: nat, n: NodeId, outs: seq<Value>, depth: nat): (r: LibEffects)
    requires LibClosed(st) && n < |st|
    decreases depth, 3, |outs|
  {
    if outs == [] then LibEffects([], [])
    else Seq(OutsFx(st, g, f, rid, n, outs[..|outs| - 1], depth), OutputFx(st, g, f, rid, n, outs[|outs| - 1], depth))
  }

  /** `outputAllFns(arg)`: output hooks (global, then local), then every consumer, each on
      its own tick when `isAsync` is truthy and synchronously otherwise. */
  function OutputFx(st: seq<LibNode>, g: GlobalHooks, f: LibForeign, rid: nat, n: NodeId, arg: Value, depth: nat): (r: LibEffects)
    requires LibClosed(st) && n < |st|
    ensures Truthy(st[n].isAsync) ==> |r.ticks| == |st[n].outputFns|
    decreases depth, 2, 0
  {
    var hooks := LibEffects([], OutputAllHooks(g.output, st[n].outputHooks, Outputting(Id(rid, n), arg), f.raises));
    if Truthy(st[n].isAsync) then Seq(hooks, LibEffects(Ticks(st[n].outputFns, arg), []))
    else Seq(hooks, FanOutFx(st, g, f, rid, st[n].outputFns, arg, depth))
  }

  /** The synchronous loop over the consumers. */
  function FanOutFx(st: seq<LibNode>, g: GlobalHooks, f: LibForeign, rid: nat, cs: seq<LibConsumer>, arg: Value, depth: nat): (r: LibEffects)
    requires LibClosed(st) && ConsumersIn(cs, |st|)
    decreases depth, 1, |cs|
  {
    if cs == [] then LibEffects([], [])
    else Seq(FanOutFx(st, g, f, rid, cs[..|cs| - 1], arg, depth), CallFx(st, g, f, rid, cs[|cs| - 1], arg, depth))
  }

  /** `applyArgsToFn(c, [arg])`: a foreign consumer is called (what it throws is
      absorbed); a port closure invokes its stream with the port vector. */
  function CallFx(st: seq<LibNode>, g: GlobalHooks, f: LibForeign, rid: nat, c: LibConsumer, arg: Value, depth: nat): (r: LibEffects)
    requires LibClosed(st) && (c.PortInvoker? ==> c.target < |st|)
    ensures c.Callback? ==> r.ticks == [] && |r.events| == 1
    ensures c.PortInvoker? && depth > 0 ==> r.events != [] && r.events[0] == Invoked(c.target, LibPortVector(c.port, arg))
    decreases depth, 0, 0
  {
    match c
    case Callback(t) => LibEffects([], [Called(t, arg, f.raises(t))])
    case PortInvoker(m, idx, _) =>
      if depth == 0 then LibEffects([], [StackOverflow(m)])
      else InvokeFx(st, g, f, rid, m, LibPortVector(idx, arg), depth - 1)
  }

  // ---------------------------------------------------------------- properties

  /** The default body forwards only its first argument, synchronously: one output. */
  lemma DefaultForwardsFirstArgument(st: seq<LibNode>, g: GlobalHooks, f: LibForeign, rid: nat, n: NodeId, args: Args, depth: nat)
    requires LibClosed(st) && n < |st| && st[n].body == DefaultBody && st[n].debugFn.None?
    ensures InvokeFx(st, g, f, rid, n, args, depth) == Seq(
      LibEffects([], [Invoked(n, args)] + OutputAllHooks(g.invoke, st[n].invokeHooks, Invoking(Id(rid, n), args), f.raises)),
      OutputFx(st, g, f, rid, n, ArgAt(args, 0), depth))
  {
  }

  /** `emit(obj)` outputs `obj`, or `true` for `undefined`, whatever it is invoked with. */
  lemma EmitIgnoresArguments(st: seq<LibNode>, g: GlobalHooks, f: LibForeign, rid: nat, n: NodeId, a1: Args, a2: Args, depth: nat)
    requires LibClosed(st) && n < |st| && st[n].body.EmitBody? && st[n].debugFn.None?
    ensures InvokeFx(st, g, f, rid, n, a1, depth).ticks == InvokeFx(st, g, f, rid, n, a2, depth).ticks
  {
  }

  /** A debug body replaces the stream's own until it is cleared with `null`. */
  lemma DebugOverridesBody(node: LibNode, t: nat, v: Value)
    requires v != Null
    ensures ActiveBody(node.(debugFn := Debug(node.debugFn, Fn(t)))) == ScriptBody(t)
    ensures ActiveBody(node.(debugFn := Debug(Debug(node.debugFn, Fn(t)), NotFn(v)))) == ScriptBody(t)
    ensures ActiveBody(node.(debugFn := Debug(node.debugFn, NotFn(Null)))) == node.body
  {
  }

  /** An asynchronous output runs the output hooks now and defers every consumer to its
      own tick, in registration order; no consumer runs synchronously. */
  lemma AsyncOutputDefersConsumers(st: seq<LibNode>, g: GlobalHooks, f: LibForeign, rid: nat, n: NodeId, arg: Value, depth: nat)
    requires LibClosed(st) && n < |st| && Truthy(st[n].isAsync)
    ensures var r := OutputFx(st, g, f, rid, n, arg, depth);
      r.events == OutputAllHooks(g.output, st[n].outputHooks, Outputting(Id(rid, n), arg), f.raises)
      && |r.ticks| == |st[n].outputFns|
      && forall i :: 0 <= i < |r.ticks| ==> r.ticks[i] == Tick(st[n].outputFns[i], arg)
  {
  }

  /** The synchronous loop calls each foreign consumer once, in registration order; one
      that throws does not stop the ones after it. */
  lemma {:induction false} SyncCallsEveryCallback(st: seq<LibNode>, g: GlobalHooks, f: LibForeign, rid: nat, cs: seq<LibConsumer>, arg: Value, depth: nat)
    requires LibClosed(st) && forall c :: c in cs ==> c.Callback?
    ensures var r := FanOutFx(st, g, f, rid, cs, arg, depth);
      r.ticks == [] && |r.events| == |cs|
      && forall i :: 0 <= i < |cs| ==> r.events[i] == Called(cs[i].tag, arg, f.raises(cs[i].tag))
  {
    if cs != [] {
      var init := cs[..|cs| - 1];
      assert forall c :: c in init ==> c in cs;
      SyncCallsEveryCallback(st, g, f, rid, init, arg, depth);
    }
  }

  /** A port closure invokes its stream with a vector of length `port + 1` whose last
      entry is the output value and whose other entries are `undefined`. */
  lemma PortInvokerDelivers(st: seq<LibNode>, g: GlobalHooks, f: LibForeign, rid: nat, m: NodeId, idx: nat, gen: nat, arg: Value, depth: nat)
    requires LibClosed(st) && m < |st| && depth > 0
    ensures CallFx(st, g, f, rid, PortInvoker(m, idx, gen), arg, depth) == InvokeFx(st, g, f, rid, m, LibPortVector(idx, arg), depth - 1)
    ensures InvokeFx(st, g, f, rid, m, LibPortVector(idx, arg), depth - 1).events[0] == Invoked(m, LibPortVector(idx, arg))
  {
  }
}
