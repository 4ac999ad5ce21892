/** Port wiring of the engine shared by test/riffleLib.js and riffle.js: `wait`, which
    rebinds one input port, and `input`, which binds one port per argument (and, in
    test/riffleLib.js, releases every port beyond the argument count). */
module StreamWiring {
  import opened JsValues
  import opened StreamSpec

  /** `s.offOutput(c)` for each listed source, in order. */
  function Unsubscribe(st: seq<Node>, sources: seq<NodeId>, c: Consumer): (r: seq<Node>)
    ensures |r| == |st|
  {
    if sources == [] then st
    else
      var u := Unsubscribe(st, sources[..|sources| - 1], c);
      var s := sources[|sources| - 1];
      if s < |u| then u[s := u[s].(outputFns := Remove(u[s].outputFns, c))] else u
  }

  /** `s.onOutput(c)` for each listed source, in order. */
  function Subscribe(st: seq<Node>, sources: seq<NodeId>, c: Consumer): (r: seq<Node>)
    ensures |r| == |st|
  {
    if sources == [] then st
    else
      var u := Subscribe(st, sources[..|sources| - 1], c);
      var s := sources[|sources| - 1];
      if s < |u| then u[s := u[s].(outputFns := u[s].outputFns + [c])] else u
  }

  /** `delete callbacks[idx]; delete inputStreams[idx]` (the array length is kept). */
  function DeletePort(node: Node, idx: nat): Node
  {
    node.(callbacks := node.callbacks - {idx}, inputStreams := node.inputStreams - {idx})
  }

  /** `callbacks[idx] = c; inputStreams[idx] = sources`. */
  function SetPort(node: Node, idx: nat, c: Consumer, sources: seq<NodeId>): Node
  {
    node.(callbacks := node.callbacks[idx := c],
          inputStreams := node.inputStreams[idx := sources],
          portsLength := Max(node.portsLength, idx + 1))
  }

  /** Whether port idx of node n holds sources (and so a closure). */
  predicate Bound(st: seq<Node>, n: NodeId, idx: nat)
    requires n < |st|
  {
    idx in st[n].inputStreams && idx in st[n].callbacks
  }

  /** A bound port released: its closure taken off every source of that port, and both
      per-port entries deleted. An unbound port is left alone. */
  function UnbindPort(st: seq<Node>, n: NodeId, idx: nat): (r: seq<Node>)
    requires n < |st|
    ensures |r| == |st|
  {
    if Bound(st, n, idx) then
      var u := Unsubscribe(st, st[n].inputStreams[idx], st[n].callbacks[idx]);
      u[n := DeletePort(u[n], idx)]
    else st
  }

  /** `wait(streams, idx)`: release what port idx held, subscribe a fresh closure to each
      new source, and record the closure and the sources for the port. */
  function Wait(st: seq<Node>, n: NodeId, sources: seq<NodeId>, idx: nat, gen: nat): (r: seq<Node>)
    requires n < |st|
    ensures |r| == |st|
  {
    var c := Listener(n, idx, gen);
    var s := Subscribe(UnbindPort(st, n, idx), sources, c);
    s[n := SetPort(s[n], idx, c, sources)]
  }

  /** The node ids of the stream values among `vs`, in order (`_.reject(…, !isStream)`). */
  function StreamsIn(vs: seq<Value>): (r: seq<NodeId>)
    ensures forall s :: s in r ==> exists v :: v in vs && IsStream(v) && v.handle == s
    ensures forall v :: v in vs && IsStream(v) ==> v.handle in r
  {
    if vs == [] then []
    else
      var last := vs[|vs| - 1];
      assert vs == vs[..|vs| - 1] + [last];
      StreamsIn(vs[..|vs| - 1]) + (if IsStream(last) then [last.handle] else [])
  }

  /** `StreamsIn` keeps order and multiplicity: it distributes over concatenation, and
      a single value contributes its node once if it is a stream and nothing otherwise. */
  lemma {:induction false} StreamsInAppend(a: seq<Value>, b: seq<Value>)
    ensures StreamsIn(a + b) == StreamsIn(a) + StreamsIn(b)
    decreases |b|
  {
    if b == [] {
      assert a + b == a;
    } else {
      var init := b[..|b| - 1];
      var last := b[|b| - 1];
      assert (a + b)[..|a + b| - 1] == a + init;
      assert b[..|b| - 1] == init;
      StreamsInAppend(a, init);
    }
  }

  lemma StreamsInOne(v: Value)
    ensures StreamsIn([v]) == if IsStream(v) then [v.handle] else []
  {
    assert [v][..0] == [];
  }

  /** The sources one argument of `input` binds to its port: a lone stream is wrapped in
      a one-element array, an array keeps its streams, anything else binds nothing. */
  function PortSources(a: InputArg): Option<seq<NodeId>>
  {
    match a
    case Single(v) => if IsStream(v) then Some([v.handle]) else None
    case Many(vs) => Some(StreamsIn(vs))
  }

  /** The stream values in one argument refer to nodes of the graph. */
  predicate ArgInGraph(a: InputArg, n: nat)
  {
    match a
    case Single(v) => IsStream(v) ==> v.handle < n
    case Many(vs) => forall v :: v in vs && IsStream(v) ==> v.handle < n
  }

  /** The binding loop of `input`: argument i is waited on port i, one fresh closure per
      waited port. Returns the graph and the next closure number. */
  function BindArgs(st: seq<Node>, n: NodeId, args: seq<InputArg>, gen: nat): (r: (seq<Node>, nat))
    requires n < |st|
    ensures |r.0| == |st| && r.1 >= gen
  {
    if args == [] then (st, gen)
    else
      var (s1, g1) := BindArgs(st, n, args[..|args| - 1], gen);
      match PortSources(args[|args| - 1])
      case None => (s1, g1)
      case Some(srcs) => (Wait(s1, n, srcs, |args| - 1, g1), g1 + 1)
  }

  /** Ports lo..hi-1 released in ascending order (the truncation loop of test/riffleLib.js,
      with an index that holds nothing skipped). */
  function TruncateRange(st: seq<Node>, n: NodeId, lo: nat, hi: nat): (r: seq<Node>)
    requires n < |st|
    ensures |r| == |st|
    decreases hi
  {
    if hi <= lo then st else UnbindPort(TruncateRange(st, n, lo, hi - 1), n, hi - 1)
  }

  /** `input(args...)`: bind every argument to its port; in test/riffleLib.js (`truncates`)
      also release every port at or beyond the argument count. */
  function Input(st: seq<Node>, n: NodeId, args: seq<InputArg>, gen: nat, truncates: bool): (r: (seq<Node>, nat))
    requires n < |st|
    ensures |r.0| == |st| && r.1 >= gen
  {
    var (b, g) := BindArgs(st, n, args, gen);
    if truncates then (TruncateRange(b, n, |args|, b[n].portsLength), g) else (b, g)
  }

  /** The truncation loop as test/riffleLib.js writes it: it visits every index from the
      argument count to `inputStreams.length`, and `_.each` (which tests `obj === null`)
      throws a TypeError on an index that an earlier `delete` emptied. */
  function TruncateAsWritten(st: seq<Node>, n: NodeId, lo: nat, hi: nat): (r: (seq<Node>, Outcome))
    requires n < |st|
    ensures |r.0| == |st|
    decreases hi
  {
    if hi <= lo then (st, Done)
    else
      var (s1, o) := TruncateAsWritten(st, n, lo, hi - 1);
      if o.Threw? then (s1, o)
      else if hi - 1 !in s1[n].inputStreams then (s1, Threw(TypeError("Cannot read property 'forEach' of undefined")))
      else (UnbindPort(s1, n, hi - 1), Done)
  }

  /** `input(args...)` of test/riffleLib.js as written. */
  function InputAsWritten(st: seq<Node>, n: NodeId, args: seq<InputArg>, gen: nat): (r: (seq<Node>, Outcome))
    requires n < |st|
    ensures |r.0| == |st|
  {
    var (b, g) := BindArgs(st, n, args, gen);
    TruncateAsWritten(b, n, |args|, b[n].portsLength)
  }

  // ---------------------------------------------------------------- closed forms

  /** Unsubscribing from a list of sources removes every copy of `c` from each listed
      node, whatever the order or repetition of the list, and touches nothing else. */
  lemma {:induction false} UnsubscribeAt(st: seq<Node>, sources: seq<NodeId>, c: Consumer, k: NodeId)
    requires k < |st|
    ensures Unsubscribe(st, sources, c)[k]
         == if k in sources then st[k].(outputFns := Remove(st[k].outputFns, c)) else st[k]
  {
    if sources != [] {
      var init := sources[..|sources| - 1];
      UnsubscribeAt(st, init, c, k);
      assert sources == init + [sources[|sources| - 1]];
      if sources[|sources| - 1] == k && k in init {
        RemoveIdempotent(st[k].outputFns, c);
      }
    }
  }

  /** Subscribing appends one copy of `c` to a node per listing of that node. */
  lemma {:induction false} SubscribeAt(st: seq<Node>, sources: seq<NodeId>, c: Consumer, k: NodeId)
    requires k < |st|
    ensures Subscribe(st, sources, c)[k]
         == st[k].(outputFns := st[k].outputFns + Repeat(c, Count(sources, k)))
  {
    if sources == [] {
      assert st[k].outputFns + [] == st[k].outputFns;
    } else {
      var init := sources[..|sources| - 1];
      SubscribeAt(st, init, c, k);
      if sources[|sources| - 1] == k {
        var m := Count(init, k);
        assert Repeat(c, m + 1) == Repeat(c, m) + [c];
        assert st[k].outputFns + Repeat(c, m) + [c] == st[k].outputFns + (Repeat(c, m) + [c]);
      }
    }
  }

  /** Releasing a port: each old source of the port loses every copy of the port's closure,
      both per-port entries of the node go, and nothing else changes. */
  lemma UnbindPortAt(st: seq<Node>, n: NodeId, idx: nat, k: NodeId)
    requires n < |st| && k < |st| && Paired(st[n])
    ensures var r := UnbindPort(st, n, idx);
      && r[k].outputFns
         == (if Bound(st, n, idx) && k in st[n].inputStreams[idx]
             then Remove(st[k].outputFns, st[n].callbacks[idx]) else st[k].outputFns)
      && (k != n ==> r[k] == st[k].(outputFns := r[k].outputFns))
      && r[n] == DeletePort(st[n], idx).(outputFns := r[n].outputFns)
  {
    if Bound(st, n, idx) {
      UnsubscribeAt(st, st[n].inputStreams[idx], st[n].callbacks[idx], k);
      UnsubscribeAt(st, st[n].inputStreams[idx], st[n].callbacks[idx], n);
    } else {
      assert st[n].inputStreams - {idx} == st[n].inputStreams;
      assert st[n].callbacks - {idx} == st[n].callbacks;
    }
  }

  /** The node list after `wait`: each old source of the port loses the port's old closure,
      each new source gains one copy of the fresh closure per listing, the port of node n
      is set, and nothing else changes. */
  lemma WaitAt(st: seq<Node>, n: NodeId, sources: seq<NodeId>, idx: nat, gen: nat, k: NodeId)
    requires n < |st| && k < |st| && Paired(st[n])
    ensures var r := Wait(st, n, sources, idx, gen);
      && r[k].outputFns
         == (if Bound(st, n, idx) && k in st[n].inputStreams[idx]
             then Remove(st[k].outputFns, st[n].callbacks[idx]) else st[k].outputFns)
            + Repeat(Listener(n, idx, gen), Count(sources, k))
      && (k != n ==> r[k] == st[k].(outputFns := r[k].outputFns))
      && r[n] == SetPort(DeletePort(st[n], idx), idx, Listener(n, idx, gen), sources).(outputFns := r[n].outputFns)
  {
    var u := UnbindPort(st, n, idx);
    UnbindPortAt(st, n, idx, k);
    UnbindPortAt(st, n, idx, n);
    SubscribeAt(u, sources, Listener(n, idx, gen), k);
    SubscribeAt(u, sources, Listener(n, idx, gen), n);
  }

  // ---------------------------------------------------------------- rebinding

  /** `wait` rebinds a port: each new source holds the fresh closure once per listing, and
      each old source of the port no longer holds the old closure. */
  lemma WaitRebinds(st: seq<Node>, n: NodeId, sources: seq<NodeId>, idx: nat, gen: nat, k: NodeId)
    requires WellFormed(st, gen) && n < |st| && k < |st|
    ensures var r := Wait(st, n, sources, idx, gen);
      Count(r[k].outputFns, Listener(n, idx, gen)) == Count(sources, k)
    ensures var r := Wait(st, n, sources, idx, gen);
      Bound(st, n, idx) && k in st[n].inputStreams[idx] ==> st[n].callbacks[idx] !in r[k].outputFns
  {
    var c := Listener(n, idx, gen);
    WaitAt(st, n, sources, idx, gen, k);
    var released := Bound(st, n, idx) && k in st[n].inputStreams[idx];
    var kept := if released then Remove(st[k].outputFns, st[n].callbacks[idx]) else st[k].outputFns;
    assert NodeOk(st[k], |st|, gen);
    assert !ConsumerOk(c, |st|, gen);
    CountZero(st[k].outputFns, c);
    if released {
      assert NodeOk(st[n], |st|, gen);
      RemoveCounts(st[k].outputFns, st[n].callbacks[idx]);
      RemoveSubset(st[k].outputFns, st[n].callbacks[idx]);
      assert st[n].callbacks[idx] != c;
    }
    CountZero(kept, c);
    CountAppend(kept, Repeat(c, Count(sources, k)), c);
    CountRepeat(c, Count(sources, k), c);
  }

  /** `wait` keeps every registration other than the port's old and new closures, with
      its multiplicity, on every node. */
  lemma WaitKeepsOthers(st: seq<Node>, n: NodeId, sources: seq<NodeId>, idx: nat, gen: nat, k: NodeId, d: Consumer)
    requires n < |st| && k < |st| && Paired(st[n])
    requires d != Listener(n, idx, gen) && !(idx in st[n].callbacks && d == st[n].callbacks[idx])
    ensures Count(Wait(st, n, sources, idx, gen)[k].outputFns, d) == Count(st[k].outputFns, d)
  {
    var c := Listener(n, idx, gen);
    WaitAt(st, n, sources, idx, gen, k);
    var released := Bound(st, n, idx) && k in st[n].inputStreams[idx];
    var kept := if released then Remove(st[k].outputFns, st[n].callbacks[idx]) else st[k].outputFns;
    if released {
      RemoveCounts(st[k].outputFns, st[n].callbacks[idx]);
    }
    CountAppend(kept, Repeat(c, Count(sources, k)), d);
    CountRepeat(c, Count(sources, k), d);
  }

  /** `wait` writes the port's closure and sources into the node's two per-port maps and
      grows `inputStreams.length` to cover the port. */
  lemma WaitPortMaps(st: seq<Node>, n: NodeId, sources: seq<NodeId>, idx: nat, gen: nat)
    requires n < |st| && Paired(st[n])
    ensures var r := Wait(st, n, sources, idx, gen);
      && r[n].inputStreams == st[n].inputStreams[idx := sources]
      && r[n].callbacks == st[n].callbacks[idx := Listener(n, idx, gen)]
      && Paired(r[n])
      && r[n].portsLength == Max(st[n].portsLength, idx + 1)
  {
    WaitAt(st, n, sources, idx, gen, n);
    assert (st[n].inputStreams - {idx})[idx := sources] == st[n].inputStreams[idx := sources];
    assert (st[n].callbacks - {idx})[idx := Listener(n, idx, gen)] == st[n].callbacks[idx := Listener(n, idx, gen)];
  }

  lemma UnbindPortWellFormed(st: seq<Node>, n: NodeId, idx: nat, closures: nat)
    requires WellFormed(st, closures) && n < |st|
    ensures WellFormed(UnbindPort(st, n, idx), closures)
  {
    var r := UnbindPort(st, n, idx);
    assert NodeOk(st[n], |st|, closures);
    forall k | 0 <= k < |r| ensures NodeOk(r[k], |r|, closures) {
      assert NodeOk(st[k], |st|, closures);
      UnbindPortAt(st, n, idx, k);
      if Bound(st, n, idx) {
        RemoveSubset(st[k].outputFns, st[n].callbacks[idx]);
      }
    }
  }

  lemma WaitNodeOk(st: seq<Node>, n: NodeId, sources: seq<NodeId>, idx: nat, gen: nat, k: NodeId)
    requires WellFormed(st, gen) && n < |st| && k < |st| && forall s :: s in sources ==> s < |st|
    ensures NodeOk(Wait(st, n, sources, idx, gen)[k], |st|, gen + 1)
  {
    hide Wait;
    var c := Listener(n, idx, gen);
    var r := Wait(st, n, sources, idx, gen);
    assert NodeOk(st[n], |st|, gen);
    assert NodeOk(st[k], |st|, gen);
    WaitAt(st, n, sources, idx, gen, k);
    if Bound(st, n, idx) {
      RemoveSubset(st[k].outputFns, st[n].callbacks[idx]);
    }
    assert forall d :: d in r[k].outputFns ==> d in st[k].outputFns || d == c;
  }

  lemma WaitWellFormed(st: seq<Node>, n: NodeId, sources: seq<NodeId>, idx: nat, gen: nat)
    requires WellFormed(st, gen) && n < |st| && forall s :: s in sources ==> s < |st|
    ensures WellFormed(Wait(st, n, sources, idx, gen), gen + 1)
  {
    forall k | 0 <= k < |st| ensures NodeOk(Wait(st, n, sources, idx, gen)[k], |st|, gen + 1) {
      WaitNodeOk(st, n, sources, idx, gen, k);
    }
  }

  // ---------------------------------------------------------------- input

  /** One more than the highest index that an argument list binds (0 if none binds). */
  function PortsReach(args: seq<InputArg>): (r: nat)
    ensures r <= |args|
  {
    if args == [] then 0
    else if PortSources(args[|args| - 1]).Some? then |args|
    else PortsReach(args[..|args| - 1])
  }

  /** The port map that `input(args...)` leaves, stated directly: each argument that binds
      replaces its own index, every other index keeps what it held, and with truncation
      nothing at or beyond the argument count survives. */
  function PortsAfterInput(m: map<nat, seq<NodeId>>, args: seq<InputArg>, truncates: bool): map<nat, seq<NodeId>>
  {
    map i | i in m.Keys + BindingIndices(args) && (!truncates || i < |args|) ::
      if i in BindingIndices(args) then PortSources(args[i]).value else m[i]
  }

  /** The indices of the arguments that bind a port. */
  function BindingIndices(args: seq<InputArg>): (r: set<nat>)
    ensures forall i: nat :: i in r <==> i < |args| && PortSources(args[i]).Some?
  {
    set i: nat | i < |args| && PortSources(args[i]).Some?
  }

  /** One more argument changes the port map at its own index only, and only if it binds. */
  lemma PortsAfterInputStep(m: map<nat, seq<NodeId>>, args: seq<InputArg>)
    requires args != []
    ensures PortSources(args[|args| - 1]).None? ==>
      PortsAfterInput(m, args, false) == PortsAfterInput(m, args[..|args| - 1], false)
    ensures PortSources(args[|args| - 1]).Some? ==>
      PortsAfterInput(m, args, false)
        == PortsAfterInput(m, args[..|args| - 1], false)[|args| - 1 := PortSources(args[|args| - 1]).value]
  {
    hide PortsAfterInput;
    var init := args[..|args| - 1];
    var last := |args| - 1;
    var o := PortSources(args[last]);
    var a := PortsAfterInput(m, args, false);
    var b := PortsAfterInput(m, init, false);
    var b' := if o.Some? then b[last := o.value] else b;
    assert a == b' by {
      forall i: nat ensures (i in a <==> i in b') && (i in a ==> a[i] == b'[i]) {
        PortsAfterInputStepAt(m, args, i);
      }
      MapsAgree(a, b');
    }
  }

  /** `PortsAfterInputStep` at one index. */
  lemma PortsAfterInputStepAt(m: map<nat, seq<NodeId>>, args: seq<InputArg>, i: nat)
    requires args != []
    ensures var last := |args| - 1;
      var a := PortsAfterInput(m, args, false);
      var b := PortsAfterInput(m, args[..last], false);
      var o := PortSources(args[last]);
      var b' := if o.Some? then b[last := o.value] else b;
      (i in a <==> i in b') && (i in a ==> a[i] == b'[i])
  {
    var init := args[..|args| - 1];
    PortsAfterInputAt(m, args, i);
    PortsAfterInputAt(m, init, i);
    if i < |init| { assert init[i] == args[i]; }
  }

  /** What the untruncated port map holds at one index. */
  lemma PortsAfterInputAt(m: map<nat, seq<NodeId>>, args: seq<InputArg>, i: nat)
    ensures var binds := i < |args| && PortSources(args[i]).Some?;
      && (i in PortsAfterInput(m, args, false) <==> i in m || binds)
      && (i in PortsAfterInput(m, args, false) ==>
            PortsAfterInput(m, args, false)[i] == if binds then PortSources(args[i]).value else m[i])
  {
  }

  /** Two maps that agree on their keys and on every value are equal. */
  lemma MapsAgree<V>(a: map<nat, V>, b: map<nat, V>)
    requires forall i: nat :: (i in a <==> i in b) && (i in a ==> a[i] == b[i])
    ensures a == b
  {
    assert a.Keys == b.Keys;
  }


  lemma StreamsInGraph(vs: seq<Value>, n: nat)
    requires forall v :: v in vs && IsStream(v) ==> v.handle < n
    ensures forall s :: s in StreamsIn(vs) ==> s < n
  {
  }

  lemma {:induction false} BindArgsWellFormed(st: seq<Node>, n: NodeId, args: seq<InputArg>, gen: nat)
    requires WellFormed(st, gen) && n < |st| && forall a :: a in args ==> ArgInGraph(a, |st|)
    ensures WellFormed(BindArgs(st, n, args, gen).0, BindArgs(st, n, args, gen).1)
  {
    if args != [] {
      var init := args[..|args| - 1];
      assert forall a :: a in init ==> a in args;
      BindArgsWellFormed(st, n, init, gen);
      var (s1, g1) := BindArgs(st, n, init, gen);
      var last := |args| - 1;
      if PortSources(args[last]).Some? {
        var srcs := PortSources(args[last]).value;
        assert ArgInGraph(args[last], |st|);
        assert forall s :: s in srcs ==> s < |st| by {
          if args[last].Many? { StreamsInGraph(args[last].vs, |st|); }
        }
        WaitWellFormed(s1, n, srcs, last, g1);
      }
    }
  }

  /** One more argument of the binding loop: it waits on its own port if it binds, and
      leaves the graph and the closure counter alone otherwise. */
  lemma BindArgsStep(st: seq<Node>, n: NodeId, args: seq<InputArg>, i: nat, gen: nat)
    requires n < |st| && i < |args|
    ensures var (s1, g1) := BindArgs(st, n, args[..i], gen);
      BindArgs(st, n, args[..i + 1], gen)
        == match PortSources(args[i])
           case None => (s1, g1)
           case Some(srcs) => (Wait(s1, n, srcs, i, g1), g1 + 1)
  {
    assert args[..i + 1][..i] == args[..i];
  }

  /** The binding loop leaves the node's port map as `PortsAfterInput` says, and grows
      `inputStreams.length` to the highest bound index. */
  lemma {:induction false} BindArgsPorts(st: seq<Node>, n: NodeId, args: seq<InputArg>, gen: nat)
    requires n < |st| && Paired(st[n])
    ensures var r := BindArgs(st, n, args, gen).0;
      && Paired(r[n])
      && r[n].inputStreams == PortsAfterInput(st[n].inputStreams, args, false)
      && r[n].portsLength == Max(st[n].portsLength, PortsReach(args))
  {
    var m := st[n].inputStreams;
    if args == [] {
      assert PortsAfterInput(m, args, false) == m;
    } else {
      var init := args[..|args| - 1];
      BindArgsPorts(st, n, init, gen);
      var (s1, g1) := BindArgs(st, n, init, gen);
      var last := |args| - 1;
      PortsAfterInputStep(m, args);
      if PortSources(args[last]).Some? {
        WaitPortMaps(s1, n, PortSources(args[last]).value, last, g1);
      }
    }
  }

  lemma {:induction false} TruncateRangeWellFormed(st: seq<Node>, n: NodeId, lo: nat, hi: nat, closures: nat)
    requires WellFormed(st, closures) && n < |st|
    ensures WellFormed(TruncateRange(st, n, lo, hi), closures)
    decreases hi
  {
    if hi > lo {
      TruncateRangeWellFormed(st, n, lo, hi - 1, closures);
      UnbindPortWellFormed(TruncateRange(st, n, lo, hi - 1), n, hi - 1, closures);
    }
  }

  /** Releasing ports lo..hi-1 deletes exactly those indices from the node's port map. */
  lemma {:induction false} TruncateRangePorts(st: seq<Node>, n: NodeId, lo: nat, hi: nat)
    requires n < |st| && Paired(st[n])
    ensures var r := TruncateRange(st, n, lo, hi);
      && Paired(r[n])
      && r[n].inputStreams == (map i | i in st[n].inputStreams && !(lo <= i < hi) :: st[n].inputStreams[i])
      && r[n].portsLength == st[n].portsLength
    decreases hi
  {
    hide UnbindPort, Unsubscribe;
    var m := st[n].inputStreams;
    if hi > lo {
      var t := TruncateRange(st, n, lo, hi - 1);
      TruncateRangePorts(st, n, lo, hi - 1);
      UnbindPortAt(t, n, hi - 1, n);
      assert (map i | i in m && !(lo <= i < hi) :: m[i]) == (map i | i in m && !(lo <= i < hi - 1) :: m[i]) - {hi - 1};
    } else {
      assert (map i | i in m && !(lo <= i < hi) :: m[i]) == m;
    }
  }

  /** `input(args...)` keeps the graph well formed, leaves the node's ports as
      `PortsAfterInput` says, and grows `inputStreams.length` to the highest bound index. */
  lemma InputPorts(st: seq<Node>, n: NodeId, args: seq<InputArg>, gen: nat, truncates: bool)
    requires WellFormed(st, gen) && n < |st| && forall a :: a in args ==> ArgInGraph(a, |st|)
    ensures var (r, g) := Input(st, n, args, gen, truncates);
      && WellFormed(r, g)
      && r[n].inputStreams == PortsAfterInput(st[n].inputStreams, args, truncates)
      && r[n].portsLength == Max(st[n].portsLength, PortsReach(args))
  {
    assert NodeOk(st[n], |st|, gen);
    BindArgsWellFormed(st, n, args, gen);
    BindArgsPorts(st, n, args, gen);
    var (b, g) := BindArgs(st, n, args, gen);
    if truncates {
      TruncateRangeWellFormed(b, n, |args|, b[n].portsLength, g);
      TruncateRangePorts(b, n, |args|, b[n].portsLength);
      assert NodeOk(b[n], |b|, g);
      var m := b[n].inputStreams;
      assert (map i | i in m && !(|args| <= i < b[n].portsLength) :: m[i])
          == PortsAfterInput(st[n].inputStreams, args, true);
    }
  }

  // ---------------------------------------------------------------- truncation as written

  /** Where every index of the range is bound, the loop as written does what
      `TruncateRange` does and returns normally. */
  lemma {:induction false} TruncateAsWrittenAgrees(st: seq<Node>, n: NodeId, lo: nat, hi: nat)
    requires n < |st| && Paired(st[n])
    requires forall j :: lo <= j < hi ==> j in st[n].inputStreams
    ensures TruncateAsWritten(st, n, lo, hi) == (TruncateRange(st, n, lo, hi), Done)
    decreases hi
  {
    if hi > lo {
      TruncateAsWrittenAgrees(st, n, lo, hi - 1);
      TruncateRangePorts(st, n, lo, hi - 1);
    }
  }

  /** `t.input(a, b); t.input(c); t.input(c)` on a fresh node `t`: as written, the third call
      visits index 1, which the second call's truncation emptied, and throws a TypeError;
      the first two calls return normally. */
  lemma TruncationHoleThrows(st: seq<Node>, gen: nat, t: NodeId, a: NodeId, b: NodeId, c: NodeId)
    requires t < |st| && a < |st| && b < |st| && c < |st|
    requires st[t].inputStreams == map[] && st[t].callbacks == map[] && st[t].portsLength == 0
    ensures var args1 := [Single(NodeValue(a)), Single(NodeValue(b))];
      var args2 := [Single(NodeValue(c))];
      var (s1, g1) := Input(st, t, args1, gen, true);
      var (s2, g2) := Input(s1, t, args2, g1, true);
      && InputAsWritten(st, t, args1, gen) == (s1, Done)
      && InputAsWritten(s1, t, args2, g1) == (s2, Done)
      && InputAsWritten(s2, t, args2, g2).1.Threw?
  {
    HoleFirstInput(st, gen, t, a, b);
    var (s1, g1) := Input(st, t, [Single(NodeValue(a)), Single(NodeValue(b))], gen, true);
    HoleSecondInput(s1, g1, t, c);
    var (s2, g2) := Input(s1, t, [Single(NodeValue(c))], g1, true);
    HoleThirdInput(s2, g2, t, c);
  }

  /** `t.input(a, b)` on a fresh node returns normally and binds ports 0 and 1. */
  lemma HoleFirstInput(st: seq<Node>, gen: nat, t: NodeId, a: NodeId, b: NodeId)
    requires t < |st| && a < |st| && b < |st|
    requires st[t].inputStreams == map[] && st[t].callbacks == map[] && st[t].portsLength == 0
    ensures var args := [Single(NodeValue(a)), Single(NodeValue(b))];
      var (s, g) := Input(st, t, args, gen, true);
      && InputAsWritten(st, t, args, gen) == (s, Done)
      && Paired(s[t]) && s[t].portsLength == 2 && 1 in s[t].inputStreams
  {
    var args := [Single(NodeValue(a)), Single(NodeValue(b))];
    BindArgsPorts(st, t, args, gen);
    assert PortsReach(args) == 2;
    PortsAfterInputAt(st[t].inputStreams, args, 1);
    var (b1, h1) := BindArgs(st, t, args, gen);
    TruncateRangePorts(b1, t, 2, 2);
  }

  /** A one-argument `input` on a node with two ports, the second bound, returns normally
      and releases the second port. */
  lemma HoleSecondInput(s: seq<Node>, g: nat, t: NodeId, c: NodeId)
    requires t < |s| && c < |s| && Paired(s[t]) && s[t].portsLength == 2 && 1 in s[t].inputStreams
    ensures var args := [Single(NodeValue(c))];
      var (s', g') := Input(s, t, args, g, true);
      && InputAsWritten(s, t, args, g) == (s', Done)
      && Paired(s'[t]) && s'[t].portsLength == 2 && 1 !in s'[t].inputStreams
  {
    var args := [Single(NodeValue(c))];
    BindArgsPorts(s, t, args, g);
    assert PortsReach(args) == 1;
    PortsAfterInputAt(s[t].inputStreams, args, 1);
    var (b, h) := BindArgs(s, t, args, g);
    assert b[t].portsLength == 2 && 1 in b[t].inputStreams;
    TruncateAsWrittenAgrees(b, t, 1, 2);
    TruncateRangePorts(b, t, 1, 2);
  }

  /** A one-argument `input` as written, on a node whose `inputStreams.length` is 2 but
      whose second port is empty, throws. */
  lemma HoleThirdInput(s: seq<Node>, g: nat, t: NodeId, c: NodeId)
    requires t < |s| && c < |s| && Paired(s[t]) && s[t].portsLength == 2 && 1 !in s[t].inputStreams
    ensures InputAsWritten(s, t, [Single(NodeValue(c))], g).1.Threw?
  {
    var args := [Single(NodeValue(c))];
    BindArgsPorts(s, t, args, g);
    assert PortsReach(args) == 1;
    PortsAfterInputAt(s[t].inputStreams, args, 1);
    var (b, h) := BindArgs(s, t, args, g);
    assert b[t].portsLength == 2 && 1 !in b[t].inputStreams;
  }
}
