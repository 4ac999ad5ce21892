/** Port wiring of lib/riffle.js: `input` adds sources to a port (a source already on
    that port is skipped), `unInput` takes one source off a port and unsubscribes its
    listener, `isInput` asks the `pairs` list. Ports keep a union of sources, and a hole
    in the `inputStreams` / `invokers` arrays behaves as an empty port. */
module LibWiring {
  import opened JsValues
  import opened LibSupport
  import opened LibSpec

  /** `inputStreams[idx]` (or `invokers[idx]`), a hole read as empty. */
  function PortAt<T>(ports: seq<seq<T>>, idx: nat): seq<T>
  {
    if idx < |ports| then ports[idx] else []
  }

  /** `ports[idx] = ports[idx] || []; ports[idx].push(x)`: the array grows with holes to
      reach `idx`. */
  function AppendAt<T>(ports: seq<seq<T>>, idx: nat, x: T): (r: seq<seq<T>>)
    ensures |r| == Max(|ports|, idx + 1)
    ensures r[idx] == PortAt(ports, idx) + [x]
    ensures forall i :: 0 <= i < |r| && i != idx ==> r[i] == PortAt(ports, i)
  {
    if idx < |ports| then ports[idx := ports[idx] + [x]]
    else ports + Repeat([], idx - |ports|) + [[x]]
  }

  function PairsOf(p: Option<seq<string>>): seq<string>
  {
    match p
    case None => []
    case Some(l) => l
  }

  /** The stream's side of binding source `s` with listener `inv` on port `idx`. */
  function BindNode(nd: LibNode, rid: nat, s: NodeId, idx: nat, inv: LibConsumer): LibNode
  {
    nd.(inputStreams := AppendAt(nd.inputStreams, idx, s),
        invokers := AppendAt(nd.invokers, idx, inv),
        pairs := Some(PairsOf(nd.pairs) + [Id(rid, s)]))
  }

  /** The stream's side of the intended unbinding of the source at position `k`. */
  function UnbindNode(nd: LibNode, rid: nat, s: NodeId, idx: nat, k: nat): LibNode
    requires idx < |nd.inputStreams| && idx < |nd.invokers| && k < |nd.inputStreams[idx]| && k < |nd.invokers[idx]|
  {
    nd.(inputStreams := nd.inputStreams[idx := RemoveAt(nd.inputStreams[idx], k)],
        invokers := nd.invokers[idx := RemoveAt(nd.invokers[idx], k)],
        pairs := if nd.pairs.Some? then Some(RemoveFirst(nd.pairs.value, Id(rid, s))) else nd.pairs)
  }

  /** The result of wiring: the streams and what the hooks observed. */
  datatype Wired = Wired(nodes: seq<LibNode>, events: seq<LibEvent>)

  /** One source of `input(…, idx)` on stream `n`, with the call's closure `gen`. */
  function InputOne(st: seq<LibNode>, g: GlobalHooks, raises: nat -> bool, rid: nat, n: NodeId, s: NodeId, idx: nat, gen: nat): (r: Wired)
    requires n < |st| && s < |st|
    ensures |r.nodes| == |st|
  {
    if s in PortAt(st[n].inputStreams, idx) then Wired(st, [])
    else
      var inv := PortInvoker(n, idx, gen);
      var st1 := st[s := st[s].(outputFns := st[s].outputFns + [inv])];
      var nd := BindNode(st1[n], rid, s, idx, inv);
      Wired(st1[n := nd], OutputAllHooks(g.input, nd.inputHooks, Inputting(Id(rid, n), idx, Id(rid, s)), raises))
  }

  /** The loop over the sources of one `input` call, all sharing one closure. */
  function InputAll(st: seq<LibNode>, g: GlobalHooks, raises: nat -> bool, rid: nat, n: NodeId, srcs: seq<NodeId>, idx: nat, gen: nat): (r: Wired)
    requires n < |st| && forall i :: 0 <= i < |srcs| ==> srcs[i] < |st|
    ensures |r.nodes| == |st|
  {
    if srcs == [] then Wired(st, [])
    else
      var w := InputAll(st, g, raises, rid, n, srcs[..|srcs| - 1], idx, gen);
      var w2 := InputOne(w.nodes, g, raises, rid, n, srcs[|srcs| - 1], idx, gen);
      Wired(w2.nodes, w.events + w2.events)
  }

  /** The stream values of an argument refer to streams of this system. */
  predicate ArgIn(a: InputArg, n: nat)
  {
    forall v :: v in Arrayify(a) && IsLibStream(v) ==> v.handle < n
  }

  lemma SourcesIn(a: InputArg, n: nat)
    requires ArgIn(a, n)
    ensures forall i :: 0 <= i < |SourcesOf(Arrayify(a))| ==> SourcesOf(Arrayify(a))[i] < n
  {
    var srcs := SourcesOf(Arrayify(a));
    forall i | 0 <= i < |srcs| ensures srcs[i] < n {
      assert srcs[i] in srcs;
    }
  }

  /** `chain.input(inputs, portIdx)` with `portIdx || 0` already taken as `idx`. */
  function Input(st: seq<LibNode>, g: GlobalHooks, raises: nat -> bool, rid: nat, n: NodeId, a: InputArg, idx: nat, gen: nat): (r: Wired)
    requires n < |st| && ArgIn(a, |st|)
    ensures |r.nodes| == |st|
  {
    SourcesIn(a, |st|);
    InputAll(st, g, raises, rid, n, SourcesOf(Arrayify(a)), idx, gen)
  }

  // ---------------------------------------------------------------- unInput

  /** The outcome of taking sources off a port. */
  datatype UnWired = UnWired(nodes: seq<LibNode>, events: seq<LibEvent>, outcome: Outcome)

  /** One source of `unInput(…, idx)`, as intended: the source and its own listener leave
      the port at the same position, and one pairing of the source is dropped. A port
      whose listener is missing makes `_offOutput(undefined)` throw. */
  function UnInputOne(st: seq<LibNode>, g: GlobalHooks, raises: nat -> bool, rid: nat, n: NodeId, s: NodeId, idx: nat): (r: UnWired)
    requires n < |st| && s < |st|
    ensures |r.nodes| == |st|
  {
    var port := PortAt(st[n].inputStreams, idx);
    var invs := PortAt(st[n].invokers, idx);
    var k := IndexOf(port, s);
    if k < 0 then UnWired(st, [], Done)
    else if k >= |invs| then UnWired(st, [], AssertFunction(NotFn(Undefined)))
    else
      var inv := invs[k];
      var st1 := st[s := st[s].(outputFns := RemoveFirst(st[s].outputFns, inv))];
      var nd := UnbindNode(st1[n], rid, s, idx, k);
      UnWired(st1[n := nd], OutputAllHooks(g.unInput, nd.unInputHooks, UnInputting(Id(rid, n), idx, Id(rid, s)), raises), Done)
  }

  /** One source of `unInput(…, idx)` as lib/riffle.js:243-272 writes it: `removeItem`
      drops every copy of the listener, of the source and of its id. */
  function UnInputOneAsWritten(st: seq<LibNode>, g: GlobalHooks, raises: nat -> bool, rid: nat, n: NodeId, s: NodeId, idx: nat): (r: UnWired)
    requires n < |st| && s < |st|
    ensures |r.nodes| == |st|
  {
    var port := PortAt(st[n].inputStreams, idx);
    var invs := PortAt(st[n].invokers, idx);
    var k := IndexOf(port, s);
    if k < 0 then UnWired(st, [], Done)
    else if k >= |invs| then UnWired(st, [], AssertFunction(NotFn(Undefined)))
    else
      var inv := invs[k];
      var st1 := st[s := st[s].(outputFns := RemoveFirst(st[s].outputFns, inv))];
      var nd := st1[n].(inputStreams := st1[n].inputStreams[idx := Remove(port, s)],
                        invokers := st1[n].invokers[idx := Remove(invs, inv)],
                        pairs := if st1[n].pairs.Some? then Some(Remove(st1[n].pairs.value, Id(rid, s))) else st1[n].pairs);
      UnWired(st1[n := nd], OutputAllHooks(g.unInput, nd.unInputHooks, UnInputting(Id(rid, n), idx, Id(rid, s)), raises), Done)
  }

  /** The loop over the sources of one `unInput` call; a throw ends the call. */
  function UnInputAll(st: seq<LibNode>, g: GlobalHooks, raises: nat -> bool, rid: nat, n: NodeId, srcs: seq<NodeId>, idx: nat, asWritten: bool): (r: UnWired)
    requires n < |st| && forall i :: 0 <= i < |srcs| ==> srcs[i] < |st|
    ensures |r.nodes| == |st|
  {
    if srcs == [] then UnWired(st, [], Done)
    else
      var w := UnInputAll(st, g, raises, rid, n, srcs[..|srcs| - 1], idx, asWritten);
      if w.outcome.Threw? then w
      else
        var s := srcs[|srcs| - 1];
        var w2 := if asWritten then UnInputOneAsWritten(w.nodes, g, raises, rid, n, s, idx)
                  else UnInputOne(w.nodes, g, raises, rid, n, s, idx);
        UnWired(w2.nodes, w.events + w2.events, w2.outcome)
  }

  /** `chain.unInput(inputs, portIdx)`, as intended (`asWritten` false) or as written. */
  function UnInput(st: seq<LibNode>, g: GlobalHooks, raises: nat -> bool, rid: nat, n: NodeId, a: InputArg, idx: nat, asWritten: bool): (r: UnWired)
    requires n < |st| && ArgIn(a, |st|)
    ensures |r.nodes| == |st|
  {
    SourcesIn(a, |st|);
    UnInputAll(st, g, raises, rid, n, SourcesOf(Arrayify(a)), idx, asWritten)
  }

  /** `chain.isInput(input)`: whether the source's id is in `pairs`; before the first
      input `pairs[chain._id()]` is undefined and reading `indexOf` of it throws. */
  function IsInput(node: LibNode, rid: nat, s: NodeId): (r: Result<bool>)
    ensures node.pairs.None? <==> r.Err?
    ensures r.Err? ==> r.error.TypeError?
    ensures r.Ok? ==> (r.value <==> Id(rid, s) in node.pairs.value)
  {
    match node.pairs
    case None => Err(TypeError("Cannot read properties of undefined (reading 'indexOf')"))
    case Some(p) => Ok(IndexOf(p, Id(rid, s)) > -1)
  }

  // ---------------------------------------------------------------- invariants

  /** How many ports hold `s`. */
  function PortCount(ports: seq<seq<NodeId>>, s: NodeId): (c: nat)
    ensures c <= |ports|
  {
    if ports == [] then 0 else PortCount(ports[..|ports| - 1], s) + (if s in ports[|ports| - 1] then 1 else 0)
  }

  lemma {:induction false} PortCountPositive(ports: seq<seq<NodeId>>, s: NodeId)
    ensures PortCount(ports, s) > 0 <==> exists i :: 0 <= i < |ports| && s in ports[i]
  {
    if ports != [] {
      var init := ports[..|ports| - 1];
      PortCountPositive(init, s);
      if exists i :: 0 <= i < |init| && s in init[i] {
        var i :| 0 <= i < |init| && s in init[i];
        assert ports[i] == init[i];
      }
      if exists i :: 0 <= i < |ports| && s in ports[i] {
        var i :| 0 <= i < |ports| && s in ports[i];
        if i < |init| {
          assert init[i] == ports[i];
        }
      }
    }
  }

  /** Replacing one port changes the count by what that port held and now holds. */
  lemma {:induction false} PortCountUpdate(ports: seq<seq<NodeId>>, idx: nat, p: seq<NodeId>, s: NodeId)
    requires idx < |ports|
    ensures PortCount(ports[idx := p], s) + (if s in ports[idx] then 1 else 0) == PortCount(ports, s) + (if s in p then 1 else 0)
  {
    var last := |ports| - 1;
    if idx == last {
      assert ports[idx := p][..last] == ports[..last];
    } else {
      assert ports[idx := p][..last] == ports[..last][idx := p];
      PortCountUpdate(ports[..last], idx, p, s);
    }
  }

  lemma {:induction false} PortCountEmptyPorts(ports: seq<seq<NodeId>>, k: nat, s: NodeId)
    ensures PortCount(ports + Repeat([], k), s) == PortCount(ports, s)
  {
    if k > 0 {
      assert (ports + Repeat([], k))[..|ports| + k - 1] == ports + Repeat([], k - 1);
      PortCountEmptyPorts(ports, k - 1, s);
    } else {
      assert ports + Repeat([], k) == ports;
    }
  }

  /** Adding a source that was not on the port counts it once more. */
  lemma PortCountAppendAt(ports: seq<seq<NodeId>>, idx: nat, x: NodeId, s: NodeId)
    requires x !in PortAt(ports, idx)
    ensures PortCount(AppendAt(ports, idx, x), s) == PortCount(ports, s) + (if s == x then 1 else 0)
  {
    if idx < |ports| {
      PortCountUpdate(ports, idx, ports[idx] + [x], s);
    } else {
      var padded := ports + Repeat([], idx - |ports|);
      PortCountEmptyPorts(ports, idx - |ports|, s);
      assert AppendAt(ports, idx, x)[..|padded|] == padded;
    }
  }

  /** No source twice on one port. */
  predicate PortDistinct(port: seq<NodeId>)
  {
    forall i, j :: 0 <= i < j < |port| ==> port[i] != port[j]
  }

  /** The wiring invariant of one stream: `invokers` and `inputStreams` line up port by
      port, no port holds a source twice, and `pairs` holds each source's id once per
      port it is on. */
  ghost predicate Aligned(ports: seq<seq<NodeId>>, invokers: seq<seq<LibConsumer>>, pairs: Option<seq<string>>, rid: nat)
  {
    && |invokers| == |ports|
    && (forall i :: 0 <= i < |ports| ==> |invokers[i]| == |ports[i]| && PortDistinct(ports[i]))
    && (forall s :: multiset(PairsOf(pairs))[Id(rid, s)] == PortCount(ports, s))
  }

  ghost predicate WiringOk(nd: LibNode, rid: nat)
  {
    Aligned(nd.inputStreams, nd.invokers, nd.pairs, rid)
  }

  lemma BindNodeKeepsWiring(nd: LibNode, rid: nat, s: NodeId, idx: nat, inv: LibConsumer)
    requires WiringOk(nd, rid) && s !in PortAt(nd.inputStreams, idx)
    ensures WiringOk(BindNode(nd, rid, s, idx, inv), rid)
  {
    var r := BindNode(nd, rid, s, idx, inv);
    forall i | 0 <= i < |r.inputStreams| ensures |r.invokers[i]| == |r.inputStreams[i]| && PortDistinct(r.inputStreams[i]) {
      if i == idx {
        AppendDistinct(PortAt(nd.inputStreams, idx), s);
      }
    }
    forall t ensures multiset(PairsOf(r.pairs))[Id(rid, t)] == PortCount(r.inputStreams, t) {
      PortCountAppendAt(nd.inputStreams, idx, s, t);
      IdInjective(rid, s, rid, t);
    }
  }

  /** Input keeps the wiring invariant of the stream it binds. */
  lemma InputOneKeepsWiring(st: seq<LibNode>, g: GlobalHooks, raises: nat -> bool, rid: nat, n: NodeId, s: NodeId, idx: nat, gen: nat)
    requires n < |st| && s < |st| && WiringOk(st[n], rid)
    ensures WiringOk(InputOne(st, g, raises, rid, n, s, idx, gen).nodes[n], rid)
  {
    if s !in PortAt(st[n].inputStreams, idx) {
      var st1 := st[s := st[s].(outputFns := st[s].outputFns + [PortInvoker(n, idx, gen)])];
      assert WiringOk(st1[n], rid);
      BindNodeKeepsWiring(st1[n], rid, s, idx, PortInvoker(n, idx, gen));
    }
  }

  lemma RemoveAtDistinct(port: seq<NodeId>, k: nat)
    requires k < |port| && PortDistinct(port)
    ensures PortDistinct(RemoveAt(port, k))
    ensures forall t :: t in RemoveAt(port, k) <==> t in port && t != port[k]
  {
    var r := RemoveAt(port, k);
    forall t | t in port && t != port[k] ensures t in r {
      var i :| 0 <= i < |port| && port[i] == t;
      if i < k {
        assert r[i] == t;
      } else {
        assert r[i - 1] == t;
      }
    }
  }

  lemma UnbindNodeKeepsWiring(nd: LibNode, rid: nat, s: NodeId, idx: nat, k: nat)
    requires WiringOk(nd, rid) && idx < |nd.inputStreams| && k < |nd.inputStreams[idx]| && nd.inputStreams[idx][k] == s
    ensures WiringOk(UnbindNode(nd, rid, s, idx, k), rid)
  {
    var r := UnbindNode(nd, rid, s, idx, k);
    var port := nd.inputStreams[idx];
    RemoveAtDistinct(port, k);
    PortCountPositive(nd.inputStreams, s);
    RemoveFirstOnly(PairsOf(nd.pairs), Id(rid, s));
    assert PairsOf(r.pairs) == RemoveFirst(PairsOf(nd.pairs), Id(rid, s));
    forall t ensures multiset(PairsOf(r.pairs))[Id(rid, t)] == PortCount(r.inputStreams, t) {
      PortCountUpdate(nd.inputStreams, idx, RemoveAt(port, k), t);
      IdInjective(rid, s, rid, t);
    }
  }

  /** The intended unInput keeps the wiring invariant. */
  lemma UnInputOneKeepsWiring(st: seq<LibNode>, g: GlobalHooks, raises: nat -> bool, rid: nat, n: NodeId, s: NodeId, idx: nat)
    requires n < |st| && s < |st| && WiringOk(st[n], rid)
    ensures WiringOk(UnInputOne(st, g, raises, rid, n, s, idx).nodes[n], rid)
  {
    var port := PortAt(st[n].inputStreams, idx);
    var k := IndexOf(port, s);
    if k >= 0 {
      var inv := st[n].invokers[idx][k];
      var st1 := st[s := st[s].(outputFns := RemoveFirst(st[s].outputFns, inv))];
      assert WiringOk(st1[n], rid);
      UnbindNodeKeepsWiring(st1[n], rid, s, idx, k);
    }
  }

  // ---------------------------------------------------------------- properties

  /** A source already on the port is skipped: no second listener, no second delivery. */
  lemma InputSkipsBoundSource(st: seq<LibNode>, g: GlobalHooks, raises: nat -> bool, rid: nat, n: NodeId, s: NodeId, idx: nat, gen: nat)
    requires n < |st| && s < |st| && s in PortAt(st[n].inputStreams, idx)
    ensures InputOne(st, g, raises, rid, n, s, idx, gen) == Wired(st, [])
  {
  }

  /** A new source joins the port after the ones already there (a union, not a
      replacement), and its consumers gain exactly the port's listener. */
  lemma InputUnionsPort(st: seq<LibNode>, g: GlobalHooks, raises: nat -> bool, rid: nat, n: NodeId, s: NodeId, idx: nat, gen: nat)
    requires n < |st| && s < |st| && s !in PortAt(st[n].inputStreams, idx)
    ensures var r := InputOne(st, g, raises, rid, n, s, idx, gen).nodes;
      PortAt(r[n].inputStreams, idx) == PortAt(st[n].inputStreams, idx) + [s]
      && PortAt(r[n].invokers, idx) == PortAt(st[n].invokers, idx) + [PortInvoker(n, idx, gen)]
      && r[s].outputFns == st[s].outputFns + [PortInvoker(n, idx, gen)]
      && r[n].pairs == Some(PairsOf(st[n].pairs) + [Id(rid, s)])
  {
  }

  /** Binding a source leaves the other ports of the stream as they were… */
  lemma InputOneOtherPort(st: seq<LibNode>, g: GlobalHooks, raises: nat -> bool, rid: nat, n: NodeId, s: NodeId, idx: nat, gen: nat, i: nat)
    requires n < |st| && s < |st| && i != idx
    ensures var r := InputOne(st, g, raises, rid, n, s, idx, gen).nodes;
      PortAt(r[n].inputStreams, i) == PortAt(st[n].inputStreams, i) && PortAt(r[n].invokers, i) == PortAt(st[n].invokers, i)
  {
  }

  /** …and every stream other than the two it connects. */
  lemma InputOneElsewhere(st: seq<LibNode>, g: GlobalHooks, raises: nat -> bool, rid: nat, n: NodeId, s: NodeId, idx: nat, gen: nat, j: NodeId)
    requires n < |st| && s < |st| && j < |st| && j != n && j != s
    ensures InputOne(st, g, raises, rid, n, s, idx, gen).nodes[j] == st[j]
  {
  }

  /** What one source does to the port it is bound on. */
  lemma InputOnePort(st: seq<LibNode>, g: GlobalHooks, raises: nat -> bool, rid: nat, n: NodeId, s: NodeId, idx: nat, gen: nat)
    requires n < |st| && s < |st|
    ensures var p := PortAt(st[n].inputStreams, idx);
      PortAt(InputOne(st, g, raises, rid, n, s, idx, gen).nodes[n].inputStreams, idx) == if s in p then p else p + [s]
  {
  }

  lemma AppendDistinct(p: seq<NodeId>, s: NodeId)
    requires PortDistinct(p) && s !in p
    ensures PortDistinct(p + [s])
  {
  }

  /** After one `input` call every listed source is on the port exactly once, beside the
      sources that were there before, which keep their places. */
  lemma {:induction false} InputAllPort(st: seq<LibNode>, g: GlobalHooks, raises: nat -> bool, rid: nat, n: NodeId, srcs: seq<NodeId>, idx: nat, gen: nat)
    requires n < |st| && (forall i :: 0 <= i < |srcs| ==> srcs[i] < |st|) && PortDistinct(PortAt(st[n].inputStreams, idx))
    ensures var p := PortAt(InputAll(st, g, raises, rid, n, srcs, idx, gen).nodes[n].inputStreams, idx);
      PortDistinct(p) && (forall t :: t in p <==> t in PortAt(st[n].inputStreams, idx) || t in srcs)
      && |p| >= |PortAt(st[n].inputStreams, idx)| && p[..|PortAt(st[n].inputStreams, idx)|] == PortAt(st[n].inputStreams, idx)
  {
    if srcs != [] {
      var q := PortAt(st[n].inputStreams, idx);
      var init := srcs[..|srcs| - 1];
      var s := srcs[|srcs| - 1];
      assert srcs == init + [s];
      InputAllPort(st, g, raises, rid, n, init, idx, gen);
      var w := InputAll(st, g, raises, rid, n, init, idx, gen);
      var p0 := PortAt(w.nodes[n].inputStreams, idx);
      InputOnePort(w.nodes, g, raises, rid, n, s, idx, gen);
      if s !in p0 {
        AppendDistinct(p0, s);
        assert (p0 + [s])[..|q|] == p0[..|q|];
      }
    }
  }

  /** `unInput` of a source that is not on the port changes nothing. */
  lemma UnInputAbsentIsNoOp(st: seq<LibNode>, g: GlobalHooks, raises: nat -> bool, rid: nat, n: NodeId, s: NodeId, idx: nat)
    requires n < |st| && s < |st| && s !in PortAt(st[n].inputStreams, idx)
    ensures UnInputOne(st, g, raises, rid, n, s, idx) == UnWired(st, [], Done)
    ensures UnInputOneAsWritten(st, g, raises, rid, n, s, idx) == UnWired(st, [], Done)
  {
  }

  /** With the invariant, `unInput` of a bound source succeeds: exactly that source and
      the listener at its position leave the port, one copy of that listener leaves the
      source's consumers, and the other ports stay. */
  lemma UnInputRemovesSource(st: seq<LibNode>, g: GlobalHooks, raises: nat -> bool, rid: nat, n: NodeId, s: NodeId, idx: nat)
    requires n < |st| && s < |st| && n != s && WiringOk(st[n], rid) && s in PortAt(st[n].inputStreams, idx)
    ensures var port := PortAt(st[n].inputStreams, idx);
      var inv := st[n].invokers[idx][IndexOf(port, s)];
      var r := UnInputOne(st, g, raises, rid, n, s, idx);
      r.outcome == Done
      && (forall t :: t in PortAt(r.nodes[n].inputStreams, idx) <==> t in port && t != s)
      && |PortAt(r.nodes[n].invokers, idx)| == |port| - 1
      && multiset(r.nodes[s].outputFns) == multiset(st[s].outputFns) - multiset{inv}
      && (forall i :: 0 <= i < |st[n].inputStreams| && i != idx ==> r.nodes[n].inputStreams[i] == st[n].inputStreams[i])
  {
    var port := PortAt(st[n].inputStreams, idx);
    RemoveAtDistinct(port, IndexOf(port, s));
    RemoveFirstOnly(st[s].outputFns, st[n].invokers[idx][IndexOf(port, s)]);
  }

  /** With the invariant, `isInput` answers whether the source is on some port. */
  lemma IsInputMeansBound(nd: LibNode, rid: nat, s: NodeId)
    requires WiringOk(nd, rid) && nd.pairs.Some?
    ensures IsInput(nd, rid, s) == Ok(exists i :: 0 <= i < |nd.inputStreams| && s in nd.inputStreams[i])
  {
    PortCountPositive(nd.inputStreams, s);
  }

  // ---------------------------------------------------------------- findings

  /** The loop of `input` ends with its last source. */
  lemma InputAllSnoc(st: seq<LibNode>, g: GlobalHooks, raises: nat -> bool, rid: nat, n: NodeId, srcs: seq<NodeId>, s: NodeId, idx: nat, gen: nat)
    requires n < |st| && s < |st| && forall i :: 0 <= i < |srcs| ==> srcs[i] < |st|
    ensures InputAll(st, g, raises, rid, n, srcs + [s], idx, gen).nodes
      == InputOne(InputAll(st, g, raises, rid, n, srcs, idx, gen).nodes, g, raises, rid, n, s, idx, gen).nodes
  {
    assert (srcs + [s])[..|srcs|] == srcs;
  }

  /** `unInput` of a single source is one step of the loop. */
  lemma UnInputAllSingle(st: seq<LibNode>, g: GlobalHooks, raises: nat -> bool, rid: nat, n: NodeId, s: NodeId, idx: nat, asWritten: bool)
    requires n < |st| && s < |st|
    ensures var r := UnInputAll(st, g, raises, rid, n, [s], idx, asWritten);
      var o := if asWritten then UnInputOneAsWritten(st, g, raises, rid, n, s, idx) else UnInputOne(st, g, raises, rid, n, s, idx);
      r.nodes == o.nodes && r.outcome == o.outcome
  {
    assert [s][..0] == [];
  }

  /** What `unInput` as written does to one bound source with a listener at its position:
      every copy of the source, of its listener and of its id leaves the port. */
  lemma UnInputOneAsWrittenFacts(st: seq<LibNode>, g: GlobalHooks, raises: nat -> bool, rid: nat, n: NodeId, s: NodeId, idx: nat)
    requires n < |st| && s < |st| && n != s
    requires s in PortAt(st[n].inputStreams, idx)
    requires IndexOf(PortAt(st[n].inputStreams, idx), s) < |PortAt(st[n].invokers, idx)|
    ensures var port := PortAt(st[n].inputStreams, idx);
      var invs := PortAt(st[n].invokers, idx);
      var k := IndexOf(port, s);
      var r := UnInputOneAsWritten(st, g, raises, rid, n, s, idx);
      r.outcome == Done
      && PortAt(r.nodes[n].inputStreams, idx) == Remove(port, s)
      && PortAt(r.nodes[n].invokers, idx) == Remove(invs, invs[k])
      && PairsOf(r.nodes[n].pairs) == Remove(PairsOf(st[n].pairs), Id(rid, s))
      && r.nodes[s].outputFns == RemoveFirst(st[s].outputFns, invs[k])
  {
  }

  /** The same for the intended `unInput`: only the position of the source changes. */
  lemma UnInputOneFacts(st: seq<LibNode>, g: GlobalHooks, raises: nat -> bool, rid: nat, n: NodeId, s: NodeId, idx: nat)
    requires n < |st| && s < |st| && n != s
    requires s in PortAt(st[n].inputStreams, idx)
    requires IndexOf(PortAt(st[n].inputStreams, idx), s) < |PortAt(st[n].invokers, idx)|
    ensures var port := PortAt(st[n].inputStreams, idx);
      var invs := PortAt(st[n].invokers, idx);
      var k := IndexOf(port, s);
      var r := UnInputOne(st, g, raises, rid, n, s, idx);
      r.outcome == Done
      && PortAt(r.nodes[n].inputStreams, idx) == RemoveAt(port, k)
      && PortAt(r.nodes[n].invokers, idx) == RemoveAt(invs, k)
      && PairsOf(r.nodes[n].pairs) == RemoveFirst(PairsOf(st[n].pairs), Id(rid, s))
      && r.nodes[s].outputFns == RemoveFirst(st[s].outputFns, invs[k])
  {
  }

  /** Either `unInput` leaves the other ports of the stream as they were… */
  lemma UnInputOneOtherPort(st: seq<LibNode>, g: GlobalHooks, raises: nat -> bool, rid: nat, n: NodeId, s: NodeId, idx: nat, i: nat)
    requires n < |st| && s < |st| && n != s && i != idx
    ensures PortAt(UnInputOneAsWritten(st, g, raises, rid, n, s, idx).nodes[n].inputStreams, i) == PortAt(st[n].inputStreams, i)
    ensures PortAt(UnInputOne(st, g, raises, rid, n, s, idx).nodes[n].inputStreams, i) == PortAt(st[n].inputStreams, i)
  {
  }

  /** …and every stream other than the two it disconnects. */
  lemma UnInputOneElsewhere(st: seq<LibNode>, g: GlobalHooks, raises: nat -> bool, rid: nat, n: NodeId, s: NodeId, idx: nat, j: NodeId)
    requires n < |st| && s < |st| && j < |st| && j != n && j != s
    ensures UnInputOneAsWritten(st, g, raises, rid, n, s, idx).nodes[j] == st[j]
    ensures UnInputOne(st, g, raises, rid, n, s, idx).nodes[j] == st[j]
  {
  }

  /** Two sources bound by one call on an empty port share the call's listener. */
  lemma InputTwoOnEmptyPort(st: seq<LibNode>, g: GlobalHooks, raises: nat -> bool, rid: nat, n: NodeId, a: NodeId, b: NodeId, idx: nat, gen: nat)
    requires n < |st| && a < |st| && b < |st| && n != a && n != b && a != b
    requires PortAt(st[n].inputStreams, idx) == [] && PortAt(st[n].invokers, idx) == []
    ensures var r := InputAll(st, g, raises, rid, n, [a, b], idx, gen).nodes;
      var inv := PortInvoker(n, idx, gen);
      PortAt(r[n].inputStreams, idx) == [a, b] && PortAt(r[n].invokers, idx) == [inv, inv]
      && r[a].outputFns == st[a].outputFns + [inv] && r[b].outputFns == st[b].outputFns + [inv]
  {
    InputAllSingle(st, g, raises, rid, n, a, idx, gen);
    InputAllSnoc(st, g, raises, rid, n, [a], b, idx, gen);
    assert [a] + [b] == [a, b];
    var w1 := InputOne(st, g, raises, rid, n, a, idx, gen).nodes;
    InputUnionsPort(st, g, raises, rid, n, a, idx, gen);
    InputOneElsewhere(st, g, raises, rid, n, a, idx, gen, b);
    InputUnionsPort(w1, g, raises, rid, n, b, idx, gen);
    InputOneElsewhere(w1, g, raises, rid, n, b, idx, gen, a);
  }

  lemma InputAllSingle(st: seq<LibNode>, g: GlobalHooks, raises: nat -> bool, rid: nat, n: NodeId, s: NodeId, idx: nat, gen: nat)
    requires n < |st| && s < |st|
    ensures InputAll(st, g, raises, rid, n, [s], idx, gen).nodes == InputOne(st, g, raises, rid, n, s, idx, gen).nodes
  {
    assert [s][..0] == [];
  }

  /** `s.input([a, b], idx)` gives both sources the same listener, so the port's
      `invokers` holds it twice. As written, `s.unInput(a, idx)` drops both copies;
      `s.unInput(b, idx)` then finds no listener at the position of `b`, calls
      `_offOutput(undefined)` and throws, and `b` keeps delivering to `s`. */
  lemma SharedListenerUnInputThrows(st: seq<LibNode>, g: GlobalHooks, raises: nat -> bool, rid: nat, n: NodeId, a: NodeId, b: NodeId, idx: nat, gen: nat)
    requires n < |st| && a < |st| && b < |st| && n != a && n != b && a != b
    requires PortAt(st[n].inputStreams, idx) == [] && PortAt(st[n].invokers, idx) == []
    ensures var w1 := InputAll(st, g, raises, rid, n, [a, b], idx, gen);
      var w2 := UnInputAll(w1.nodes, g, raises, rid, n, [a], idx, true);
      var w3 := UnInputAll(w2.nodes, g, raises, rid, n, [b], idx, true);
      w3.outcome == Threw(Error("expecting function")) && PortInvoker(n, idx, gen) in w3.nodes[b].outputFns
  {
    InputTwoOnEmptyPort(st, g, raises, rid, n, a, b, idx, gen);
    SharedListenerUnInputThrowsFrom(InputAll(st, g, raises, rid, n, [a, b], idx, gen).nodes, g, raises, rid, n, a, b, idx, PortInvoker(n, idx, gen));
  }

  /** The `unInput` half of `SharedListenerUnInputThrows`, from any port holding two
      sources with one shared listener. */
  lemma SharedListenerUnInputThrowsFrom(w1: seq<LibNode>, g: GlobalHooks, raises: nat -> bool, rid: nat, n: NodeId, a: NodeId, b: NodeId, idx: nat, inv: LibConsumer)
    requires n < |w1| && a < |w1| && b < |w1| && n != a && n != b && a != b
    requires PortAt(w1[n].inputStreams, idx) == [a, b] && PortAt(w1[n].invokers, idx) == [inv, inv]
    requires inv in w1[b].outputFns
    ensures var w2 := UnInputAll(w1, g, raises, rid, n, [a], idx, true);
      var w3 := UnInputAll(w2.nodes, g, raises, rid, n, [b], idx, true);
      w3.outcome == Threw(Error("expecting function")) && inv in w3.nodes[b].outputFns
  {
    UnInputAllSingle(w1, g, raises, rid, n, a, idx, true);
    UnInputOneAsWrittenFacts(w1, g, raises, rid, n, a, idx);
    UnInputOneElsewhere(w1, g, raises, rid, n, a, idx, b);
    var w2 := UnInputAll(w1, g, raises, rid, n, [a], idx, true).nodes;
    assert Remove([inv, inv], inv) == [] by {
      assert [inv, inv][..1] == [inv] && [inv][..0] == [];
    }
    assert Remove([a, b], a) == [b] by {
      assert [a, b][..1] == [a] && [a][..0] == [];
    }
    UnInputAllSingle(w2, g, raises, rid, n, b, idx, true);
  }

  /** The intended `unInput` removes the listener at the source's own position, so the
      same calls succeed and leave the port empty and neither source delivering to `s`. */
  lemma SharedListenerUnInputIntended(st: seq<LibNode>, g: GlobalHooks, raises: nat -> bool, rid: nat, n: NodeId, a: NodeId, b: NodeId, idx: nat, gen: nat)
    requires n < |st| && a < |st| && b < |st| && n != a && n != b && a != b
    requires PortAt(st[n].inputStreams, idx) == [] && PortAt(st[n].invokers, idx) == []
    requires PortInvoker(n, idx, gen) !in st[a].outputFns && PortInvoker(n, idx, gen) !in st[b].outputFns
    ensures var w1 := InputAll(st, g, raises, rid, n, [a, b], idx, gen);
      var w2 := UnInputAll(w1.nodes, g, raises, rid, n, [a], idx, false);
      var w3 := UnInputAll(w2.nodes, g, raises, rid, n, [b], idx, false);
      w3.outcome == Done && PortAt(w3.nodes[n].inputStreams, idx) == [] && PortAt(w3.nodes[n].invokers, idx) == []
      && w3.nodes[a].outputFns == st[a].outputFns && w3.nodes[b].outputFns == st[b].outputFns
  {
    var inv := PortInvoker(n, idx, gen);
    InputTwoOnEmptyPort(st, g, raises, rid, n, a, b, idx, gen);
    SharedListenerUnInputIntendedFrom(InputAll(st, g, raises, rid, n, [a, b], idx, gen).nodes, g, raises, rid, n, a, b, idx, inv);
    RemoveFirstLast(st[a].outputFns, inv);
    RemoveFirstLast(st[b].outputFns, inv);
  }

  /** The `unInput` half of `SharedListenerUnInputIntended`. */
  lemma SharedListenerUnInputIntendedFrom(w1: seq<LibNode>, g: GlobalHooks, raises: nat -> bool, rid: nat, n: NodeId, a: NodeId, b: NodeId, idx: nat, inv: LibConsumer)
    requires n < |w1| && a < |w1| && b < |w1| && n != a && n != b && a != b
    requires PortAt(w1[n].inputStreams, idx) == [a, b] && PortAt(w1[n].invokers, idx) == [inv, inv]
    ensures var w2 := UnInputAll(w1, g, raises, rid, n, [a], idx, false);
      var w3 := UnInputAll(w2.nodes, g, raises, rid, n, [b], idx, false);
      w3.outcome == Done && PortAt(w3.nodes[n].inputStreams, idx) == [] && PortAt(w3.nodes[n].invokers, idx) == []
      && w3.nodes[a].outputFns == RemoveFirst(w1[a].outputFns, inv) && w3.nodes[b].outputFns == RemoveFirst(w1[b].outputFns, inv)
  {
    UnInputAllSingle(w1, g, raises, rid, n, a, idx, false);
    UnInputOneFacts(w1, g, raises, rid, n, a, idx);
    UnInputOneElsewhere(w1, g, raises, rid, n, a, idx, b);
    var w2 := UnInputAll(w1, g, raises, rid, n, [a], idx, false).nodes;
    assert RemoveAt([a, b], 0) == [b] && RemoveAt([inv, inv], 0) == [inv];
    UnInputAllSingle(w2, g, raises, rid, n, b, idx, false);
    UnInputOneFacts(w2, g, raises, rid, n, b, idx);
    UnInputOneElsewhere(w2, g, raises, rid, n, b, idx, a);
    assert RemoveAt([b], 0) == [] && RemoveAt([inv], 0) == [];
  }

  /** Removing the first copy of a value appended to a list without it. */
  lemma RemoveFirstLast<T>(s: seq<T>, x: T)
    requires x !in s
    ensures RemoveFirst(s + [x], x) == s
  {
    assert (s + [x])[..|s|] == s;
  }

  /** `s.input(a, 0)` then `s.input(a, 1)` pairs `a` twice. As written, `s.unInput(a, 0)`
      drops both pairings, so `s.isInput(a)` answers false while `a` still feeds port 1. */
  lemma TwoPortsIsInputLost(st: seq<LibNode>, g: GlobalHooks, raises: nat -> bool, rid: nat, n: NodeId, a: NodeId)
    requires n < |st| && a < |st| && n != a
    requires PortAt(st[n].inputStreams, 0) == [] && PortAt(st[n].inputStreams, 1) == []
    ensures var w1 := InputAll(st, g, raises, rid, n, [a], 0, 0);
      var w2 := InputAll(w1.nodes, g, raises, rid, n, [a], 1, 1);
      var w3 := UnInputAll(w2.nodes, g, raises, rid, n, [a], 0, true);
      a in PortAt(w3.nodes[n].inputStreams, 1) && IsInput(w3.nodes[n], rid, a) == Ok(false)
  {
    var id := Id(rid, a);
    var w2 := TwoPortsInput(st, g, raises, rid, n, a);
    UnInputAllSingle(w2, g, raises, rid, n, a, 0, true);
    UnInputOneAsWrittenFacts(w2, g, raises, rid, n, a, 0);
    UnInputOneOtherPort(w2, g, raises, rid, n, a, 0, 1);
    RemoveCounts(PairsOf(w2[n].pairs), id);
  }

  /** The same source bound on ports 0 and 1 of a stream whose ports 0 and 1 are empty. */
  lemma TwoPortsInput(st: seq<LibNode>, g: GlobalHooks, raises: nat -> bool, rid: nat, n: NodeId, a: NodeId) returns (w2: seq<LibNode>)
    requires n < |st| && a < |st| && n != a
    requires PortAt(st[n].inputStreams, 0) == [] && PortAt(st[n].inputStreams, 1) == []
    ensures var w1 := InputAll(st, g, raises, rid, n, [a], 0, 0);
      w2 == InputAll(w1.nodes, g, raises, rid, n, [a], 1, 1).nodes
    ensures |w2| == |st|
    ensures PortAt(w2[n].inputStreams, 0) == [a] && PortAt(w2[n].inputStreams, 1) == [a]
    ensures |PortAt(w2[n].invokers, 0)| > 0
    ensures PairsOf(w2[n].pairs) == PairsOf(st[n].pairs) + [Id(rid, a), Id(rid, a)]
  {
    InputAllSingle(st, g, raises, rid, n, a, 0, 0);
    var w1 := InputOne(st, g, raises, rid, n, a, 0, 0).nodes;
    InputUnionsPort(st, g, raises, rid, n, a, 0, 0);
    InputOneOtherPort(st, g, raises, rid, n, a, 0, 0, 1);
    InputAllSingle(w1, g, raises, rid, n, a, 1, 1);
    InputUnionsPort(w1, g, raises, rid, n, a, 1, 1);
    InputOneOtherPort(w1, g, raises, rid, n, a, 1, 1, 0);
    w2 := InputOne(w1, g, raises, rid, n, a, 1, 1).nodes;
  }

  /** The intended `unInput` drops one pairing per port, so `isInput` stays true while the
      source feeds another port (in general: `IsInputMeansBound`). */
  lemma TwoPortsIsInputIntended(st: seq<LibNode>, g: GlobalHooks, raises: nat -> bool, rid: nat, n: NodeId, a: NodeId)
    requires n < |st| && a < |st| && n != a
    requires PortAt(st[n].inputStreams, 0) == [] && PortAt(st[n].inputStreams, 1) == []
    ensures var w1 := InputAll(st, g, raises, rid, n, [a], 0, 0);
      var w2 := InputAll(w1.nodes, g, raises, rid, n, [a], 1, 1);
      var w3 := UnInputAll(w2.nodes, g, raises, rid, n, [a], 0, false);
      a in PortAt(w3.nodes[n].inputStreams, 1) && IsInput(w3.nodes[n], rid, a) == Ok(true)
  {
    var w2 := TwoPortsInput(st, g, raises, rid, n, a);
    KeepsOtherPairing(w2, g, raises, rid, n, a);
  }

  /** The `unInput` half of `TwoPortsIsInputIntended`. */
  lemma KeepsOtherPairing(w2: seq<LibNode>, g: GlobalHooks, raises: nat -> bool, rid: nat, n: NodeId, a: NodeId)
    requires n < |w2| && a < |w2| && n != a
    requires PortAt(w2[n].inputStreams, 0) == [a] && PortAt(w2[n].inputStreams, 1) == [a]
    requires |PortAt(w2[n].invokers, 0)| > 0 && multiset(PairsOf(w2[n].pairs))[Id(rid, a)] >= 2
    ensures var w3 := UnInputAll(w2, g, raises, rid, n, [a], 0, false);
      a in PortAt(w3.nodes[n].inputStreams, 1) && IsInput(w3.nodes[n], rid, a) == Ok(true)
  {
    var id := Id(rid, a);
    UnInputAllSingle(w2, g, raises, rid, n, a, 0, false);
    UnInputOneFacts(w2, g, raises, rid, n, a, 0);
    UnInputOneOtherPort(w2, g, raises, rid, n, a, 0, 1);
    RemoveFirstOnly(PairsOf(w2[n].pairs), id);
    assert w2[n].pairs.Some?;
    assert multiset(RemoveFirst(PairsOf(w2[n].pairs), id))[id] >= 1;
  }
}
