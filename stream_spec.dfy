/** The node engine shared by test/riffleLib.js and riffle.js, stated as pure functions:
    what one invocation, one fan-out and one port (re)binding do to a graph of nodes.
    The class in StreamCore runs these steps imperatively and is proved against them. */
module StreamSpec {
  import opened JsValues

  type NodeId = nat

  /** The properties that `isStream` requires to be truthy. */
  const StreamMembers: set<string> := {"invoke", "onOutput", "offOutput", "input"}

  /** `isStream(x)`: a capability check, not an identity check. */
  predicate IsStream(v: Value)
  {
    v.Obj? && StreamMembers <= v.members
  }

  /** A node of the engine, as a JavaScript value (`chain`). */
  function NodeValue(id: NodeId): (v: Value)
    ensures IsStream(v) && v.handle == id
  {
    Obj(id, StreamMembers)
  }

  /** A registered output function: a foreign callback known by its tag, or the
      `invokeWithOneArg` closure that `wait` creates for one port of `target`
      (`gen` tells apart closures created by different calls). */
  datatype Consumer = Callback(tag: nat) | Listener(target: NodeId, port: nat, gen: nat)

  /** A node body: the default body, or a foreign function known by its tag. */
  datatype Body = Default | Script(tag: nat)

  /** What one run of a foreign body does synchronously: the outputs it emits, in
      order, and whether it then throws. */
  datatype BodyRun = BodyRun(emits: seq<Args>, threw: bool)

  /** The behaviour of foreign code, fixed for a run of the model. */
  datatype Foreign = Foreign(raises: nat -> bool, run: (nat, Args) -> BodyRun)

  /** One node: its body, `outputFns`, and the per-port `callbacks` and `inputStreams`
      arrays (`portsLength` is the JavaScript length of `inputStreams`, which `delete`
      does not shrink). */
  datatype Node = Node(
    body: Body,
    outputFns: seq<Consumer>,
    callbacks: map<nat, Consumer>,
    inputStreams: map<nat, seq<NodeId>>,
    portsLength: nat)

  /** A deferred turn: `setTimeout(function () { output(vals...) }, 0)` of the default body. */
  datatype Task = Emit(node: NodeId, vals: Args)

  /** What can be observed: invocations, calls of foreign callbacks (and whether they
      raised, an exception that the engine absorbs), absorbed body exceptions, and a
      synchronous chain cut by the JavaScript stack limit. */
  datatype Event =
    | Invoked(node: NodeId, args: Args)
    | Called(tag: nat, vals: Args, raised: bool)
    | BodyThrew(node: NodeId)
    | StackOverflow(node: NodeId)

  /** The deferred turns scheduled and the events produced by a synchronous step. */
  datatype Effects = Effects(tasks: seq<Task>, events: seq<Event>)

  const NoEffects := Effects([], [])

  function Then(a: Effects, b: Effects): Effects
  {
    Effects(a.tasks + b.tasks, a.events + b.events)
  }

  /** An argument of `input(...)`: a single value or an array of values. */
  datatype InputArg = Single(v: Value) | Many(vs: seq<Value>)

  // ---------------------------------------------------------------- well-formedness

  predicate TargetsIn(cs: seq<Consumer>, n: nat)
  {
    forall c :: c in cs && c.Listener? ==> c.target < n
  }

  /** Every port closure registered anywhere points at a node of the graph. */
  predicate Closed(st: seq<Node>)
  {
    forall k :: 0 <= k < |st| ==> TargetsIn(st[k].outputFns, |st|)
  }

  predicate ConsumerOk(c: Consumer, n: nat, closures: nat)
  {
    c.Listener? ==> c.target < n && c.gen < closures
  }

  /** The two per-port arrays are set and deleted together. */
  predicate Paired(node: Node)
  {
    node.inputStreams.Keys == node.callbacks.Keys
  }

  predicate PortsOk(node: Node, n: nat, closures: nat)
  {
    && Paired(node)
    && (forall idx :: idx in node.inputStreams ==> idx < node.portsLength)
    && (forall idx, s :: idx in node.inputStreams && s in node.inputStreams[idx] ==> s < n)
    && (forall idx :: idx in node.callbacks ==> node.callbacks[idx].Listener? && node.callbacks[idx].gen < closures)
  }

  predicate NodeOk(node: Node, n: nat, closures: nat)
  {
    (forall c :: c in node.outputFns ==> ConsumerOk(c, n, closures)) && PortsOk(node, n, closures)
  }

  /** The graph invariant: closures point into the graph and were created before the
      counter `closures`; the two per-port arrays are set and deleted together. */
  predicate WellFormed(st: seq<Node>, closures: nat)
  {
    forall k :: 0 <= k < |st| ==> NodeOk(st[k], |st|, closures)
  }

  lemma WellFormedClosed(st: seq<Node>, closures: nat)
    requires WellFormed(st, closures)
    ensures Closed(st)
  {
  }

  // ---------------------------------------------------------------- the default body

  /** `defaultStreamFn`: a zero-argument call schedules one empty output; otherwise each
      defined argument gets its own deferred output, in argument order. */
  function DefaultTasks(n: NodeId, args: Args): (r: seq<Task>)
    ensures forall t :: t in r ==> t.node == n
  {
    if |args| == 0 then [Emit(n, [])] else DefinedEmits(n, args)
  }

  function DefinedEmits(n: NodeId, args: Args): (r: seq<Task>)
    ensures forall t :: t in r ==> t.node == n
  {
    if args == [] then []
    else DefinedEmits(n, args[..|args| - 1]) + (if args[|args| - 1] != Undefined then [Emit(n, [args[|args| - 1]])] else [])
  }

  /** One single-value output per value, in order. */
  function EmitEach(n: NodeId, vs: Args): (r: seq<Task>)
    ensures |r| == |vs| && forall i :: 0 <= i < |vs| ==> r[i] == Emit(n, [vs[i]])
  {
    if vs == [] then [] else EmitEach(n, vs[..|vs| - 1]) + [Emit(n, [vs[|vs| - 1]])]
  }

  lemma {:induction false} DefinedEmitsAreDefinedArgs(n: NodeId, args: Args)
    ensures DefinedEmits(n, args) == EmitEach(n, Remove(args, Undefined))
  {
    if args != [] {
      var init := args[..|args| - 1];
      DefinedEmitsAreDefinedArgs(n, init);
      var x := args[|args| - 1];
      if x != Undefined {
        var vs := Remove(init, Undefined);
        assert Remove(args, Undefined) == vs + [x];
        assert (vs + [x])[..|vs + [x]| - 1] == vs;
      }
    }
  }

  /** The default body schedules exactly one empty output for a zero-argument call, and
      otherwise one output per defined argument, carrying that argument alone, in argument
      order, with every `undefined` dropped. */
  lemma DefaultBodySchedules(n: NodeId, args: Args)
    ensures |args| == 0 ==> DefaultTasks(n, args) == [Emit(n, [])]
    ensures |args| > 0 ==> DefaultTasks(n, args) == EmitEach(n, Remove(args, Undefined))
    ensures |args| > 0 ==> |DefaultTasks(n, args)| == |args| - Count(args, Undefined)
  {
    if |args| > 0 {
      DefinedEmitsAreDefinedArgs(n, args);
      RemoveCounts(args, Undefined);
    }
  }

  // ---------------------------------------------------------------- invocation and fan-out

  /** `invokeWithOneArg(x)`: a vector of length idx+1 with x at idx, or no arguments
      at all when x is undefined. */
  function PortVector(idx: nat, x: Value): Args
  {
    if x == Undefined then [] else seq(idx + 1, i requires 0 <= i <= idx => if i == idx then x else Undefined)
  }

  /** `invoke(args...)`: the body runs inside `applyArgsToFn`, so an exception it throws
      is absorbed after whatever it emitted. */
  function InvokeFx(st: seq<Node>, f: Foreign, n: NodeId, args: Args, depth: nat): (r: Effects)
    requires Closed(st) && n < |st|
    ensures forall t :: t in r.tasks ==> t.node < |st|
    decreases depth, 2, 0
  {
    var pre := Effects([], [Invoked(n, args)]);
    match st[n].body
    case Default => Then(pre, Effects(DefaultTasks(n, args), []))
    case Script(t) =>
      var run := f.run(t, args);
      Then(Then(pre, EmitsFx(st, f, st[n].outputFns, run.emits, depth)),
           Effects([], if run.threw then [BodyThrew(n)] else []))
  }

  /** The outputs of one body run, each fanned out in turn. */
  function EmitsFx(st: seq<Node>, f: Foreign, cs: seq<Consumer>, emits: seq<Args>, depth: nat): (r: Effects)
    requires Closed(st) && TargetsIn(cs, |st|)
    ensures forall t :: t in r.tasks ==> t.node < |st|
    decreases depth, 1, |emits|
  {
    if emits == [] then NoEffects
    else Then(EmitsFx(st, f, cs, emits[..|emits| - 1], depth), FanOutFx(st, f, cs, emits[|emits| - 1], depth))
  }

  /** `outputAllFns(vals...)`: every registered function, in registration order, each
      inside `applyArgsToFn`. */
  function FanOutFx(st: seq<Node>, f: Foreign, cs: seq<Consumer>, vals: Args, depth: nat): (r: Effects)
    requires Closed(st) && TargetsIn(cs, |st|)
    ensures forall t :: t in r.tasks ==> t.node < |st|
    decreases depth, 0, |cs| + 1
  {
    if cs == [] then NoEffects
    else Then(FanOutFx(st, f, cs[..|cs| - 1], vals, depth), CallFx(st, f, cs[|cs| - 1], vals, depth))
  }

  /** One more output of a script body adds its fan-out after the earlier ones'. */
  lemma EmitsFxStep(st: seq<Node>, f: Foreign, cs: seq<Consumer>, emits: seq<Args>, i: nat, depth: nat)
    requires Closed(st) && TargetsIn(cs, |st|) && i < |emits|
    ensures EmitsFx(st, f, cs, emits[..i + 1], depth)
      == Then(EmitsFx(st, f, cs, emits[..i], depth), FanOutFx(st, f, cs, emits[i], depth))
  {
    assert emits[..i + 1][..i] == emits[..i];
  }

  /** One more consumer adds its call after the earlier consumers' calls. */
  lemma FanOutFxStep(st: seq<Node>, f: Foreign, cs: seq<Consumer>, vals: Args, i: nat, depth: nat)
    requires Closed(st) && TargetsIn(cs, |st|) && i < |cs|
    ensures TargetsIn(cs[..i], |st|) && TargetsIn(cs[..i + 1], |st|)
    ensures FanOutFx(st, f, cs[..i + 1], vals, depth)
      == Then(FanOutFx(st, f, cs[..i], vals, depth), CallFx(st, f, cs[i], vals, depth))
  {
    assert cs[..i + 1][..i] == cs[..i];
    assert forall c :: c in cs[..i + 1] ==> c in cs;
  }

  /** One output function called with `vals`: a callback is logged with whether it raised;
      a port closure invokes its node with the port vector of the first value. */
  function CallFx(st: seq<Node>, f: Foreign, c: Consumer, vals: Args, depth: nat): (r: Effects)
    requires Closed(st) && (c.Listener? ==> c.target < |st|)
    ensures forall t :: t in r.tasks ==> t.node < |st|
    decreases depth, 0, 0
  {
    match c
    case Callback(t) => Effects([], [Called(t, vals, f.raises(t))])
    case Listener(m, idx, _) =>
      if depth == 0 then Effects([], [StackOverflow(m)])
      else InvokeFx(st, f, m, PortVector(idx, ArgAt(vals, 0)), depth - 1)
  }

  /** Fan-out to a concatenation is the fan-out to the first part followed by the fan-out
      to the second: each consumer's effects come whole, in registration order. */
  lemma {:induction false} FanOutAppend(st: seq<Node>, f: Foreign, cs: seq<Consumer>, ds: seq<Consumer>, vals: Args, depth: nat)
    requires Closed(st) && TargetsIn(cs, |st|) && TargetsIn(ds, |st|)
    ensures TargetsIn(cs + ds, |st|)
    ensures FanOutFx(st, f, cs + ds, vals, depth) == Then(FanOutFx(st, f, cs, vals, depth), FanOutFx(st, f, ds, vals, depth))
    decreases |ds|
  {
    if ds == [] {
      assert cs + ds == cs;
    } else {
      var init, last := ds[..|ds| - 1], ds[|ds| - 1];
      assert (cs + ds)[..|cs + ds| - 1] == cs + init;
      assert (cs + ds)[|cs + ds| - 1] == last;
      assert TargetsIn(init, |st|) && (last.Listener? ==> last.target < |st|) by {
        assert forall c :: c in init ==> c in ds;
        assert last in ds;
      }
      FanOutAppend(st, f, cs, init, vals, depth);
      assert TargetsIn(cs + ds, |st|) by {
        assert forall c :: c in cs + ds ==> c in cs || c in ds;
      }
      var a, b, c := FanOutFx(st, f, cs, vals, depth), FanOutFx(st, f, init, vals, depth), CallFx(st, f, last, vals, depth);
      assert FanOutFx(st, f, ds, vals, depth) == Then(b, c);
      assert FanOutFx(st, f, cs + ds, vals, depth) == Then(Then(a, b), c);
      assert (a.tasks + b.tasks) + c.tasks == a.tasks + (b.tasks + c.tasks);
      assert (a.events + b.events) + c.events == a.events + (b.events + c.events);
    }
  }

  /** Isolation: when every consumer is a callback, each of them is called exactly once,
      in registration order, with the same values, whatever the earlier ones raised. */
  lemma {:induction false} FanOutCallsEveryCallback(st: seq<Node>, f: Foreign, cs: seq<Consumer>, vals: Args, depth: nat)
    requires Closed(st) && forall c :: c in cs ==> c.Callback?
    ensures TargetsIn(cs, |st|)
    ensures FanOutFx(st, f, cs, vals, depth).tasks == []
    ensures FanOutFx(st, f, cs, vals, depth).events
         == seq(|cs|, i requires 0 <= i < |cs| => Called(cs[i].tag, vals, f.raises(cs[i].tag)))
  {
    if cs != [] {
      FanOutCallsEveryCallback(st, f, cs[..|cs| - 1], vals, depth);
    }
  }

  lemma {:induction false} AllUndefinedEmitsNothing(n: NodeId, args: Args)
    requires forall i :: 0 <= i < |args| ==> args[i] == Undefined
    ensures DefinedEmits(n, args) == []
  {
    if args != [] {
      AllUndefinedEmitsNothing(n, args[..|args| - 1]);
    }
  }

  /** A port closure invoking a node with the default body: the node is invoked with the
      port vector (length idx+1, the value at idx, `undefined` below it) and forwards the
      value on one deferred turn; an undefined value invokes with no arguments and
      schedules one empty output. */
  lemma ListenerForwardsToDefault(st: seq<Node>, f: Foreign, m: NodeId, idx: nat, g: nat, vals: Args, depth: nat)
    requires Closed(st) && m < |st| && st[m].body == Default && depth > 0
    ensures var x := ArgAt(vals, 0);
      x != Undefined ==>
        (&& |PortVector(idx, x)| == idx + 1 && PortVector(idx, x)[idx] == x
         && forall i :: 0 <= i < idx ==> PortVector(idx, x)[i] == Undefined)
    ensures var x := ArgAt(vals, 0);
      CallFx(st, f, Listener(m, idx, g), vals, depth)
        == if x == Undefined then Effects([Emit(m, [])], [Invoked(m, [])])
           else Effects([Emit(m, [x])], [Invoked(m, PortVector(idx, x))])
  {
    var x := ArgAt(vals, 0);
    if x != Undefined {
      var v := PortVector(idx, x);
      assert v[..idx] + [x] == v;
      AllUndefinedEmitsNothing(m, v[..idx]);
      assert DefinedEmits(m, v) == [Emit(m, [x])];
    }
  }
}
