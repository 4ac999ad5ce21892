/** Chain wiring of lib/riffle.js: `o.splice(streams)` makes each element an input of
    the next (`[stream, portIdx]` naming the port), `o.split(streams)` takes the same
    links apart with `unInput`, and `o.spliceMask(pipe, mask)` rewires a chain keeping
    only the elements whose mask entry is truthy. */
module LibChain {
  import opened JsValues
  import opened LibSupport
  import opened LibSpec
  import opened LibWiring
  import opened LibCore

  /** An element of a chain array: a stream, a `[stream, portIdx]` pair, a falsy value,
      or a truthy value that is neither (it has no `input` method). */
  datatype ChainElem = Node(n: NodeId) | Pair(n: NodeId, port: nat) | Falsy | Junk

  predicate ElemIn(e: ChainElem, count: nat)
  {
    (e.Node? || e.Pair?) ==> e.n < count
  }

  predicate ElemsIn(es: seq<ChainElem>, count: nat)
  {
    forall i :: 0 <= i < |es| ==> ElemIn(es[i], count)
  }

  /** The element as the argument of `input` / `unInput`: an array pair is kept as an
      array, so only its stream is a source. */
  function SourceArg(x: ChainElem): (a: InputArg)
    ensures SourcesOf(Arrayify(a)) == (if x.Node? || x.Pair? then [x.n] else [])
    ensures forall count :: ElemIn(x, count) ==> ArgIn(a, count)
  {
    match x
    case Node(n) => Single(LibNodeValue(n))
    case Pair(n, p) =>
      assert [LibNodeValue(n), Num(p)][..1] == [LibNodeValue(n)];
      Many([LibNodeValue(n), Num(p)])
    case Falsy => Single(Null)
    case Junk => Single(Obj(0, {}))
  }

  /** The first element (`streams.shift()`, `undefined` for an empty array). */
  function Head(es: seq<ChainElem>): (h: ChainElem)
    ensures forall count :: ElemsIn(es, count) ==> ElemIn(h, count)
  {
    if es == [] then Falsy else es[0]
  }

  function Tail(es: seq<ChainElem>): (t: seq<ChainElem>)
    ensures forall count :: ElemsIn(es, count) ==> ElemsIn(t, count)
  {
    if es == [] then [] else
      assert forall i :: 0 <= i < |es[1..]| ==> es[1..][i] == es[i + 1];
      es[1..]
  }

  /** What a chain operation did: the streams, the hook events, the closure count and
      how it ended. */
  datatype ChainRun = ChainRun(nodes: seq<LibNode>, events: seq<LibEvent>, closures: nat, outcome: Outcome)

  /** One element of a chain walk: the streams, events and closure count after it, the
      next `x`, and whether it threw. */
  datatype Step = Step(nodes: seq<LibNode>, events: seq<LibEvent>, closures: nat, x: ChainElem, outcome: Outcome)

  /** One element `s` of `o.splice`: `s[0].input(x, s[1])` then `x = s[0]` for a pair;
      `s.input(x)` then `x = s` for a stream; only `x = s` for a falsy value; a throw for
      anything else. */
  function SpliceStep(st: seq<LibNode>, g: GlobalHooks, raises: nat -> bool, rid: nat, gen: nat, x: ChainElem, s: ChainElem): (t: Step)
    requires ElemIn(x, |st|) && ElemIn(s, |st|)
    ensures |t.nodes| == |st| && ElemIn(t.x, |st|)
    ensures t.closures == (if s.Node? || s.Pair? then gen + 1 else gen)
  {
    match s
    case Pair(m, p) =>
      var w := Input(st, g, raises, rid, m, SourceArg(x), p, gen);
      Step(w.nodes, w.events, gen + 1, Node(m), Done)
    case Node(m) =>
      var w := Input(st, g, raises, rid, m, SourceArg(x), 0, gen);
      Step(w.nodes, w.events, gen + 1, s, Done)
    case Falsy => Step(st, [], gen, Falsy, Done)
    case Junk => Step(st, [], gen, x, Threw(TypeError("s.input is not a function")))
  }

  /** One element of `o.split`: the same, with the intended `unInput`. */
  function SplitStep(st: seq<LibNode>, g: GlobalHooks, raises: nat -> bool, rid: nat, x: ChainElem, s: ChainElem): (t: Step)
    requires ElemIn(x, |st|) && ElemIn(s, |st|)
    ensures |t.nodes| == |st| && ElemIn(t.x, |st|) && t.closures == 0
  {
    match s
    case Pair(m, p) =>
      var w := UnInput(st, g, raises, rid, m, SourceArg(x), p, false);
      Step(w.nodes, w.events, 0, Node(m), w.outcome)
    case Node(m) =>
      var w := UnInput(st, g, raises, rid, m, SourceArg(x), 0, false);
      Step(w.nodes, w.events, 0, s, w.outcome)
    case Falsy => Step(st, [], 0, Falsy, Done)
    case Junk => Step(st, [], 0, x, Threw(TypeError("s.unInput is not a function")))
  }

  /** A chain walk so far: what it did and the current `x`. */
  datatype Walk = Walk(run: ChainRun, x: ChainElem)

  /** `o.splice`'s loop over the elements `xs` after the first one, `x0`; a throw ends
      it. */
  function SpliceWalk(st: seq<LibNode>, g: GlobalHooks, raises: nat -> bool, rid: nat, gen: nat, x0: ChainElem, xs: seq<ChainElem>): (w: Walk)
    requires ElemIn(x0, |st|) && ElemsIn(xs, |st|)
    ensures |w.run.nodes| == |st| && ElemIn(w.x, |st|) && w.run.closures >= gen
  {
    if xs == [] then Walk(ChainRun(st, [], gen, Done), x0)
    else
      var w := SpliceWalk(st, g, raises, rid, gen, x0, xs[..|xs| - 1]);
      if w.run.outcome.Threw? then w
      else
        var t := SpliceStep(w.run.nodes, g, raises, rid, w.run.closures, w.x, xs[|xs| - 1]);
        Walk(ChainRun(t.nodes, w.run.events + t.events, t.closures, t.outcome), t.x)
  }

  /** `o.split`'s loop. */
  function SplitWalk(st: seq<LibNode>, g: GlobalHooks, raises: nat -> bool, rid: nat, x0: ChainElem, xs: seq<ChainElem>): (w: Walk)
    requires ElemIn(x0, |st|) && ElemsIn(xs, |st|)
    ensures |w.run.nodes| == |st| && ElemIn(w.x, |st|) && w.run.closures == 0
  {
    if xs == [] then Walk(ChainRun(st, [], 0, Done), x0)
    else
      var w := SplitWalk(st, g, raises, rid, x0, xs[..|xs| - 1]);
      if w.run.outcome.Threw? then w
      else
        var t := SplitStep(w.run.nodes, g, raises, rid, w.x, xs[|xs| - 1]);
        Walk(ChainRun(t.nodes, w.run.events + t.events, 0, t.outcome), t.x)
  }

  /** `o.splice(streams)` as a function of the stream system. */
  function SpliceAll(st: seq<LibNode>, g: GlobalHooks, raises: nat -> bool, rid: nat, gen: nat, chain: seq<ChainElem>): (r: ChainRun)
    requires ElemsIn(chain, |st|)
    ensures |r.nodes| == |st|
  {
    SpliceWalk(st, g, raises, rid, gen, Head(chain), Tail(chain)).run
  }

  /** `o.split(streams)` as a function of the stream system. */
  function SplitAll(st: seq<LibNode>, g: GlobalHooks, raises: nat -> bool, rid: nat, chain: seq<ChainElem>): (r: ChainRun)
    requires ElemsIn(chain, |st|)
    ensures |r.nodes| == |st|
  {
    SplitWalk(st, g, raises, rid, Head(chain), Tail(chain)).run
  }

  /** A throw ends the walk: the elements after it are not looked at. */
  lemma {:induction false} SpliceWalkStops(st: seq<LibNode>, g: GlobalHooks, raises: nat -> bool, rid: nat, gen: nat, x0: ChainElem, xs: seq<ChainElem>, j: nat)
    requires ElemIn(x0, |st|) && ElemsIn(xs, |st|) && j <= |xs|
    requires SpliceWalk(st, g, raises, rid, gen, x0, xs[..j]).run.outcome.Threw?
    ensures SpliceWalk(st, g, raises, rid, gen, x0, xs) == SpliceWalk(st, g, raises, rid, gen, x0, xs[..j])
    decreases |xs| - j
  {
    if j == |xs| {
      assert xs[..j] == xs;
    } else {
      assert xs[..j + 1][..j] == xs[..j];
      SpliceWalkStops(st, g, raises, rid, gen, x0, xs, j + 1);
    }
  }

  lemma {:induction false} SplitWalkStops(st: seq<LibNode>, g: GlobalHooks, raises: nat -> bool, rid: nat, x0: ChainElem, xs: seq<ChainElem>, j: nat)
    requires ElemIn(x0, |st|) && ElemsIn(xs, |st|) && j <= |xs|
    requires SplitWalk(st, g, raises, rid, x0, xs[..j]).run.outcome.Threw?
    ensures SplitWalk(st, g, raises, rid, x0, xs) == SplitWalk(st, g, raises, rid, x0, xs[..j])
    decreases |xs| - j
  {
    if j == |xs| {
      assert xs[..j] == xs;
    } else {
      assert xs[..j + 1][..j] == xs[..j];
      SplitWalkStops(st, g, raises, rid, x0, xs, j + 1);
    }
  }
  /** The walk after one more element, when it has not thrown yet. */
  lemma SpliceWalkNext(st: seq<LibNode>, g: GlobalHooks, raises: nat -> bool, rid: nat, gen: nat, x0: ChainElem, xs: seq<ChainElem>, i: nat)
    requires ElemIn(x0, |st|) && ElemsIn(xs, |st|) && i < |xs|
    requires SpliceWalk(st, g, raises, rid, gen, x0, xs[..i]).run.outcome == Done
    ensures var w := SpliceWalk(st, g, raises, rid, gen, x0, xs[..i]);
      var t := SpliceStep(w.run.nodes, g, raises, rid, w.run.closures, w.x, xs[i]);
      SpliceWalk(st, g, raises, rid, gen, x0, xs[..i + 1]) == Walk(ChainRun(t.nodes, w.run.events + t.events, t.closures, t.outcome), t.x)
  {
    assert xs[..i + 1][..i] == xs[..i];
  }

  lemma SplitWalkNext(st: seq<LibNode>, g: GlobalHooks, raises: nat -> bool, rid: nat, x0: ChainElem, xs: seq<ChainElem>, i: nat)
    requires ElemIn(x0, |st|) && ElemsIn(xs, |st|) && i < |xs|
    requires SplitWalk(st, g, raises, rid, x0, xs[..i]).run.outcome == Done
    ensures var w := SplitWalk(st, g, raises, rid, x0, xs[..i]);
      var t := SplitStep(w.run.nodes, g, raises, rid, w.x, xs[i]);
      SplitWalk(st, g, raises, rid, x0, xs[..i + 1]) == Walk(ChainRun(t.nodes, w.run.events + t.events, 0, t.outcome), t.x)
  {
    assert xs[..i + 1][..i] == xs[..i];
  }

  // ---------------------------------------------------------------- the system invariant

  lemma SpliceStepKeepsHealthy(st: seq<LibNode>, g: GlobalHooks, raises: nat -> bool, rid: nat, gen: nat, x: ChainElem, s: ChainElem)
    requires Healthy(st, rid) && ElemIn(x, |st|) && ElemIn(s, |st|)
    ensures Healthy(SpliceStep(st, g, raises, rid, gen, x, s).nodes, rid)
  {
    if s.Node? || s.Pair? {
      SourcesIn(SourceArg(x), |st|);
      InputAllKeepsHealthy(st, g, raises, rid, s.n, SourcesOf(Arrayify(SourceArg(x))), if s.Pair? then s.port else 0, gen);
    }
  }

  /** With the system invariant `unInput` never throws, so only an element without an
      `unInput` method ends a split. */
  lemma SplitStepKeepsHealthy(st: seq<LibNode>, g: GlobalHooks, raises: nat -> bool, rid: nat, x: ChainElem, s: ChainElem)
    requires Healthy(st, rid) && ElemIn(x, |st|) && ElemIn(s, |st|)
    ensures Healthy(SplitStep(st, g, raises, rid, x, s).nodes, rid)
    ensures SplitStep(st, g, raises, rid, x, s).outcome.Threw? <==> s.Junk?
  {
    if s.Node? || s.Pair? {
      var a := SourceArg(x);
      var idx := if s.Pair? then s.port else 0;
      SourcesIn(a, |st|);
      var w := UnInput(st, g, raises, rid, s.n, a, idx, false);
      UnInputNeverThrows(st, g, raises, rid, s.n, SourcesOf(Arrayify(a)), idx);
      assert w.outcome == Done && Healthy(w.nodes, rid);
    }
  }

  lemma {:induction false} SpliceWalkKeepsHealthy(st: seq<LibNode>, g: GlobalHooks, raises: nat -> bool, rid: nat, gen: nat, x0: ChainElem, xs: seq<ChainElem>)
    requires Healthy(st, rid) && ElemIn(x0, |st|) && ElemsIn(xs, |st|)
    ensures Healthy(SpliceWalk(st, g, raises, rid, gen, x0, xs).run.nodes, rid)
  {
    if xs != [] {
      var init := xs[..|xs| - 1];
      SpliceWalkKeepsHealthy(st, g, raises, rid, gen, x0, init);
      var w := SpliceWalk(st, g, raises, rid, gen, x0, init);
      if !w.run.outcome.Threw? {
        SpliceStepKeepsHealthy(w.run.nodes, g, raises, rid, w.run.closures, w.x, xs[|xs| - 1]);
      }
    }
  }

  lemma {:induction false} SplitWalkKeepsHealthy(st: seq<LibNode>, g: GlobalHooks, raises: nat -> bool, rid: nat, x0: ChainElem, xs: seq<ChainElem>)
    requires Healthy(st, rid) && ElemIn(x0, |st|) && ElemsIn(xs, |st|)
    ensures Healthy(SplitWalk(st, g, raises, rid, x0, xs).run.nodes, rid)
  {
    if xs != [] {
      var init := xs[..|xs| - 1];
      SplitWalkKeepsHealthy(st, g, raises, rid, x0, init);
      var w := SplitWalk(st, g, raises, rid, x0, init);
      if !w.run.outcome.Threw? {
        SplitStepKeepsHealthy(w.run.nodes, g, raises, rid, w.x, xs[|xs| - 1]);
      }
    }
  }

  /** A split walk ends in a throw exactly when one of its elements (after the first)
      has no `unInput` method. */
  lemma {:induction false} SplitWalkThrows(st: seq<LibNode>, g: GlobalHooks, raises: nat -> bool, rid: nat, x0: ChainElem, xs: seq<ChainElem>)
    requires Healthy(st, rid) && ElemIn(x0, |st|) && ElemsIn(xs, |st|)
    ensures SplitWalk(st, g, raises, rid, x0, xs).run.outcome.Threw? <==> exists i :: 0 <= i < |xs| && xs[i].Junk?
  {
    hide SplitStep;
    if xs != [] {
      var init := xs[..|xs| - 1];
      SplitWalkThrows(st, g, raises, rid, x0, init);
      var w := SplitWalk(st, g, raises, rid, x0, init);
      if !w.run.outcome.Threw? {
        SplitWalkKeepsHealthy(st, g, raises, rid, x0, init);
        SplitStepKeepsHealthy(w.run.nodes, g, raises, rid, w.x, xs[|xs| - 1]);
      } else {
        var i :| 0 <= i < |init| && init[i].Junk?;
        assert xs[i] == init[i];
      }
      if exists i :: 0 <= i < |xs| && xs[i].Junk? {
        var i :| 0 <= i < |xs| && xs[i].Junk?;
        if i < |init| {
          assert init[i] == xs[i];
        }
      }
    }
  }

  // ---------------------------------------------------------------- links of a whole chain

  /** Every source on every port of `st` is still on that port in `r`. */
  ghost predicate PortsGrow(st: seq<LibNode>, r: seq<LibNode>)
  {
    |r| == |st|
    && forall j, i, x :: 0 <= j < |st| && x in PortAt(st[j].inputStreams, i) ==> x in PortAt(r[j].inputStreams, i)
  }

  lemma PortsGrowTrans(a: seq<LibNode>, b: seq<LibNode>, c: seq<LibNode>)
    requires PortsGrow(a, b) && PortsGrow(b, c)
    ensures PortsGrow(a, c)
  {
  }

  /** `input` of one source only ever adds to ports. */
  lemma InputOneGrows(st: seq<LibNode>, g: GlobalHooks, raises: nat -> bool, rid: nat, n: NodeId, s: NodeId, idx: nat, gen: nat)
    requires n < |st| && s < |st|
    ensures PortsGrow(st, InputOne(st, g, raises, rid, n, s, idx, gen).nodes)
  {
    var r := InputOne(st, g, raises, rid, n, s, idx, gen).nodes;
    if s !in PortAt(st[n].inputStreams, idx) {
      forall j, i, x | 0 <= j < |st| && x in PortAt(st[j].inputStreams, i)
        ensures x in PortAt(r[j].inputStreams, i)
      {
        if j != n {
          assert r[j].inputStreams == st[j].inputStreams;
        } else if i == idx {
          InputUnionsPort(st, g, raises, rid, n, s, idx, gen);
        } else {
          InputOneOtherPort(st, g, raises, rid, n, s, idx, gen, i);
        }
      }
    }
  }

  lemma {:induction false} InputAllGrows(st: seq<LibNode>, g: GlobalHooks, raises: nat -> bool, rid: nat, n: NodeId, srcs: seq<NodeId>, idx: nat, gen: nat)
    requires n < |st| && forall i :: 0 <= i < |srcs| ==> srcs[i] < |st|
    ensures PortsGrow(st, InputAll(st, g, raises, rid, n, srcs, idx, gen).nodes)
  {
    if srcs != [] {
      var init := srcs[..|srcs| - 1];
      InputAllGrows(st, g, raises, rid, n, init, idx, gen);
      var w := InputAll(st, g, raises, rid, n, init, idx, gen);
      InputOneGrows(w.nodes, g, raises, rid, n, srcs[|srcs| - 1], idx, gen);
      PortsGrowTrans(st, w.nodes, InputAll(st, g, raises, rid, n, srcs, idx, gen).nodes);
    }
  }

  /** A splice step only adds to ports, returns normally unless the element is junk,
      moves `x` to the element's stream (or `null`), and links the element to `x`. */
  lemma SpliceStepLinks(st: seq<LibNode>, g: GlobalHooks, raises: nat -> bool, rid: nat, gen: nat, x: ChainElem, s: ChainElem)
    requires ElemIn(x, |st|) && ElemIn(s, |st|)
    ensures var t := SpliceStep(st, g, raises, rid, gen, x, s);
      PortsGrow(st, t.nodes) && (t.outcome == Done <==> !s.Junk?)
      && (!s.Junk? ==> SameStream(t.x, s))
      && Linked(t.nodes, x, s)
  {
    if s.Node? || s.Pair? {
      var a := SourceArg(x);
      SourcesIn(a, |st|);
      var srcs := SourcesOf(Arrayify(a));
      InputAllGrows(st, g, raises, rid, s.n, srcs, PortOf(s), gen);
      if x.Node? || x.Pair? {
        assert srcs == [x.n];
        InputAllSingle(st, g, raises, rid, s.n, x.n, PortOf(s), gen);
        InputOnePort(st, g, raises, rid, s.n, x.n, PortOf(s), gen);
      }
    }
  }

  /** Two chain elements name the same stream, or neither names one. */
  predicate SameStream(a: ChainElem, b: ChainElem)
  {
    ((a.Node? || a.Pair?) <==> (b.Node? || b.Pair?)) && ((a.Node? || a.Pair?) ==> a.n == b.n)
  }

  /** Element `e` of a chain is an input of the element `prev` before it: when both are
      streams, `prev`'s stream is on the port `e` names. */
  predicate Linked(nodes: seq<LibNode>, prev: ChainElem, e: ChainElem)
  {
    (prev.Node? || prev.Pair?) && (e.Node? || e.Pair?) ==>
      e.n < |nodes| && prev.n in PortAt(nodes[e.n].inputStreams, PortOf(e))
  }

  /** The element before position `k` of the walk's elements. */
  function Prev(x0: ChainElem, xs: seq<ChainElem>, k: nat): ChainElem
    requires k <= |xs|
  {
    if k == 0 then x0 else xs[k - 1]
  }

  /** Every element of the walk is linked to the one before it. */
  ghost predicate WalkLinked(nodes: seq<LibNode>, x0: ChainElem, xs: seq<ChainElem>)
  {
    forall k :: 0 <= k < |xs| ==> Linked(nodes, Prev(x0, xs, k), xs[k])
  }

  /** Links survive any step that only adds to ports. */
  lemma WalkLinkedGrows(nodes: seq<LibNode>, nodes': seq<LibNode>, x0: ChainElem, xs: seq<ChainElem>)
    requires PortsGrow(nodes, nodes') && WalkLinked(nodes, x0, xs)
    ensures WalkLinked(nodes', x0, xs)
  {
    forall k | 0 <= k < |xs| ensures Linked(nodes', Prev(x0, xs, k), xs[k]) {
      assert Linked(nodes, Prev(x0, xs, k), xs[k]);
    }
  }

  /** One more element, linked to the last one, keeps the walk linked. */
  lemma WalkLinkedSnoc(nodes: seq<LibNode>, x0: ChainElem, init: seq<ChainElem>, x: ChainElem, s: ChainElem)
    requires WalkLinked(nodes, x0, init) && SameStream(x, Prev(x0, init, |init|)) && Linked(nodes, x, s)
    ensures WalkLinked(nodes, x0, init + [s])
  {
    var xs := init + [s];
    forall k | 0 <= k < |xs| ensures Linked(nodes, Prev(x0, xs, k), xs[k]) {
      if k < |init| {
        assert Prev(x0, xs, k) == Prev(x0, init, k) && xs[k] == init[k];
      } else {
        assert Prev(x0, xs, k) == Prev(x0, init, |init|);
      }
    }
  }

  /** A splice walk over elements none of which is junk returns normally, ends on the
      stream of its last element, and leaves every element an input of the element
      before it: later steps only add to ports. */
  lemma {:induction false} SpliceWalkLinks(st: seq<LibNode>, g: GlobalHooks, raises: nat -> bool, rid: nat, gen: nat, x0: ChainElem, xs: seq<ChainElem>)
    requires ElemIn(x0, |st|) && ElemsIn(xs, |st|)
    requires forall k :: 0 <= k < |xs| ==> !xs[k].Junk?
    ensures var w := SpliceWalk(st, g, raises, rid, gen, x0, xs);
      w.run.outcome == Done && SameStream(w.x, Prev(x0, xs, |xs|)) && WalkLinked(w.run.nodes, x0, xs)
  {
    if xs != [] {
      hide SpliceWalk, SpliceStep, PortsGrow, Linked, WalkLinked;
      var init := xs[..|xs| - 1];
      var s := xs[|xs| - 1];
      SpliceWalkLinks(st, g, raises, rid, gen, x0, init);
      var w := SpliceWalk(st, g, raises, rid, gen, x0, init);
      var t := SpliceStep(w.run.nodes, g, raises, rid, w.run.closures, w.x, s);
      SpliceStepLinks(w.run.nodes, g, raises, rid, w.run.closures, w.x, s);
      SpliceWalkNext(st, g, raises, rid, gen, x0, xs, |xs| - 1);
      assert xs[..|xs|] == xs && init + [s] == xs;
      WalkLinkedGrows(w.run.nodes, t.nodes, x0, init);
      WalkLinkedSnoc(t.nodes, x0, init, w.x, s);
    }
  }

  /** `o.splice(chain)` with no junk element after the first returns normally and wires
      every element to the element before it: for each pair of neighbouring streams, the
      earlier one is on the port the later one names (port 0, or the port of a
      `[stream, portIdx]` pair). */
  lemma SpliceLinksChain(st: seq<LibNode>, g: GlobalHooks, raises: nat -> bool, rid: nat, gen: nat, chain: seq<ChainElem>)
    requires ElemsIn(chain, |st|)
    requires forall k :: 1 <= k < |chain| ==> !chain[k].Junk?
    ensures var r := SpliceAll(st, g, raises, rid, gen, chain);
      r.outcome == Done && forall k :: 1 <= k < |chain| ==> Linked(r.nodes, chain[k - 1], chain[k])
  {
    if chain != [] {
      var xs := Tail(chain);
      assert forall k :: 0 <= k < |xs| ==> xs[k] == chain[k + 1];
      SpliceWalkLinks(st, g, raises, rid, gen, Head(chain), xs);
      forall k | 1 <= k < |chain| ensures Linked(SpliceAll(st, g, raises, rid, gen, chain).nodes, chain[k - 1], chain[k]) {
        assert Prev(Head(chain), xs, k - 1) == chain[k - 1];
      }
    }
  }

  // ---------------------------------------------------------------- the loops

  /** One element of `o.splice`: `input` on the next stream. */
  method SpliceOne(st: seq<LibNode>, g: GlobalHooks, raises: nat -> bool, rid: nat, gen: nat, x: ChainElem, s: ChainElem) returns (t: Step)
    requires ElemIn(x, |st|) && ElemIn(s, |st|)
    ensures t == SpliceStep(st, g, raises, rid, gen, x, s)
  {
    match s
    case Pair(m, p) =>
      SourcesIn(SourceArg(x), |st|);
      var w := RunInput(st, g, raises, rid, m, SourcesOf(Arrayify(SourceArg(x))), p, gen);
      t := Step(w.nodes, w.events, gen + 1, Node(m), Done);
    case Node(m) =>
      SourcesIn(SourceArg(x), |st|);
      var w := RunInput(st, g, raises, rid, m, SourcesOf(Arrayify(SourceArg(x))), 0, gen);
      t := Step(w.nodes, w.events, gen + 1, s, Done);
    case Falsy =>
      t := Step(st, [], gen, Falsy, Done);
    case Junk =>
      t := Step(st, [], gen, x, Threw(TypeError("s.input is not a function")));
  }

  /** One element of `o.split`: `unInput` on the next stream. */
  method SplitOne(st: seq<LibNode>, g: GlobalHooks, raises: nat -> bool, rid: nat, x: ChainElem, s: ChainElem) returns (t: Step)
    requires ElemIn(x, |st|) && ElemIn(s, |st|)
    ensures t == SplitStep(st, g, raises, rid, x, s)
  {
    match s
    case Pair(m, p) =>
      SourcesIn(SourceArg(x), |st|);
      var w := RunUnInput(st, g, raises, rid, m, SourcesOf(Arrayify(SourceArg(x))), p);
      t := Step(w.nodes, w.events, 0, Node(m), w.outcome);
    case Node(m) =>
      SourcesIn(SourceArg(x), |st|);
      var w := RunUnInput(st, g, raises, rid, m, SourcesOf(Arrayify(SourceArg(x))), 0);
      t := Step(w.nodes, w.events, 0, s, w.outcome);
    case Falsy =>
      t := Step(st, [], 0, Falsy, Done);
    case Junk =>
      t := Step(st, [], 0, x, Threw(TypeError("s.unInput is not a function")));
  }

  /** The loop of `o.splice` over the streams `st`. */
  method RunSplice(st: seq<LibNode>, g: GlobalHooks, raises: nat -> bool, rid: nat, gen: nat, chain: seq<ChainElem>) returns (run: ChainRun)
    requires ElemsIn(chain, |st|)
    ensures run == SpliceAll(st, g, raises, rid, gen, chain)
  {
    var x := Head(chain);
    var xs := Tail(chain);
    run := ChainRun(st, [], gen, Done);
    var i := 0;
    while i < |xs|
      invariant 0 <= i <= |xs| && run.outcome == Done
      invariant Walk(run, x) == SpliceWalk(st, g, raises, rid, gen, Head(chain), xs[..i])
    {
      SpliceWalkNext(st, g, raises, rid, gen, Head(chain), xs, i);
      var t := SpliceOne(run.nodes, g, raises, rid, run.closures, x, xs[i]);
      run := ChainRun(t.nodes, run.events + t.events, t.closures, t.outcome);
      x := t.x;
      if t.outcome.Threw? {
        SpliceWalkStops(st, g, raises, rid, gen, Head(chain), xs, i + 1);
        return;
      }
      i := i + 1;
    }
    assert xs[..i] == xs;
  }

  /** The loop of `o.split` over the streams `st`. */
  method RunSplit(st: seq<LibNode>, g: GlobalHooks, raises: nat -> bool, rid: nat, chain: seq<ChainElem>) returns (run: ChainRun)
    requires ElemsIn(chain, |st|)
    ensures run == SplitAll(st, g, raises, rid, chain)
  {
    var x := Head(chain);
    var xs := Tail(chain);
    run := ChainRun(st, [], 0, Done);
    var i := 0;
    while i < |xs|
      invariant 0 <= i <= |xs| && run.outcome == Done
      invariant Walk(run, x) == SplitWalk(st, g, raises, rid, Head(chain), xs[..i])
    {
      SplitWalkNext(st, g, raises, rid, Head(chain), xs, i);
      var t := SplitOne(run.nodes, g, raises, rid, x, xs[i]);
      run := ChainRun(t.nodes, run.events + t.events, 0, t.outcome);
      x := t.x;
      if t.outcome.Threw? {
        SplitWalkStops(st, g, raises, rid, Head(chain), xs, i + 1);
        return;
      }
      i := i + 1;
    }
    assert xs[..i] == xs;
  }

  // ---------------------------------------------------------------- on the system

  /** `o.splice(streams)` on the stream system `r`. */
  method Splice(r: Riffle, chain: seq<ChainElem>) returns (o: Outcome)
    requires r.Valid() && ElemsIn(chain, |r.nodes|)
    modifies r
    ensures r.Valid()
    ensures var run := SpliceAll(old(r.nodes), r.hooks, r.foreign.raises, r.riffleId, old(r.closures), chain);
      r.nodes == run.nodes && r.log == old(r.log) + run.events && r.closures == run.closures && o == run.outcome
    ensures r.hooks == old(r.hooks) && r.ticks == old(r.ticks)
  {
    SpliceWalkKeepsHealthy(r.nodes, r.hooks, r.foreign.raises, r.riffleId, r.closures, Head(chain), Tail(chain));
    var run := RunSplice(r.nodes, r.hooks, r.foreign.raises, r.riffleId, r.closures, chain);
    r.nodes := run.nodes;
    r.log := r.log + run.events;
    r.closures := run.closures;
    o := run.outcome;
  }

  /** `o.split(streams)` on the stream system `r`: it throws exactly when an element
      after the first has no `unInput` method. */
  method Split(r: Riffle, chain: seq<ChainElem>) returns (o: Outcome)
    requires r.Valid() && ElemsIn(chain, |r.nodes|)
    modifies r
    ensures r.Valid()
    ensures var run := SplitAll(old(r.nodes), r.hooks, r.foreign.raises, r.riffleId, chain);
      r.nodes == run.nodes && r.log == old(r.log) + run.events && o == run.outcome
    ensures o.Threw? <==> exists i :: 1 <= i < |chain| && chain[i].Junk?
    ensures r.hooks == old(r.hooks) && r.ticks == old(r.ticks) && r.closures == old(r.closures)
  {
    SplitWalkKeepsHealthy(r.nodes, r.hooks, r.foreign.raises, r.riffleId, Head(chain), Tail(chain));
    SplitWalkThrows(r.nodes, r.hooks, r.foreign.raises, r.riffleId, Head(chain), Tail(chain));
    var run := RunSplit(r.nodes, r.hooks, r.foreign.raises, r.riffleId, chain);
    r.nodes := run.nodes;
    r.log := r.log + run.events;
    o := run.outcome;
    TailJunk(chain);
  }

  /** An element after the first is an element of the tail. */
  lemma TailJunk(chain: seq<ChainElem>)
    ensures (exists i :: 0 <= i < |Tail(chain)| && Tail(chain)[i].Junk?) <==> (exists i :: 1 <= i < |chain| && chain[i].Junk?)
  {
    if exists i :: 1 <= i < |chain| && chain[i].Junk? {
      var i :| 1 <= i < |chain| && chain[i].Junk?;
      assert Tail(chain)[i - 1] == chain[i];
    }
    if exists i :: 0 <= i < |Tail(chain)| && Tail(chain)[i].Junk? {
      var i :| 0 <= i < |Tail(chain)| && Tail(chain)[i].Junk?;
      assert chain[i + 1] == Tail(chain)[i];
    }
  }

  // ---------------------------------------------------------------- spliceMask

  /** `mask(pipe, m)`: an element stays where `m` is truthy at its position and becomes
      `null` elsewhere (also past the end of `m`). */
  function Mask(pipe: seq<ChainElem>, m: Args): (r: seq<ChainElem>)
    ensures |r| == |pipe|
    ensures forall count :: ElemsIn(pipe, count) ==> ElemsIn(r, count)
    ensures forall i :: 0 <= i < |pipe| ==> r[i] == pipe[i] || r[i] == Falsy
  {
    seq(|pipe|, i requires 0 <= i < |pipe| => if Truthy(ArgAt(m, i)) then pipe[i] else Falsy)
  }

  /** `o.spliceMask(pipe, m)`: split the whole pipe, then splice the masked one. */
  method SpliceMask(r: Riffle, pipe: seq<ChainElem>, m: Args) returns (o: Outcome)
    requires r.Valid() && ElemsIn(pipe, |r.nodes|)
    modifies r
    ensures r.Valid()
    ensures var s := SplitAll(old(r.nodes), r.hooks, r.foreign.raises, r.riffleId, pipe);
      if s.outcome.Threw? then
        r.nodes == s.nodes && r.log == old(r.log) + s.events && r.closures == old(r.closures) && o == s.outcome
      else
        var j := SpliceAll(s.nodes, r.hooks, r.foreign.raises, r.riffleId, old(r.closures), Mask(pipe, m));
        r.nodes == j.nodes && r.log == old(r.log) + s.events + j.events && r.closures == j.closures && o == j.outcome
    ensures r.hooks == old(r.hooks) && r.ticks == old(r.ticks)
  {
    o := Split(r, pipe);
    if o.Done? {
      o := Splice(r, Mask(pipe, m));
    }
  }

  // ---------------------------------------------------------------- properties

  /** The port a chain element names: its pair index, or 0 for a bare stream. */
  function PortOf(e: ChainElem): nat
  {
    if e.Pair? then e.port else 0
  }

  /** `o.splice([a, e])` is `e.input(a, port)`, the port named by a pair honoured. */
  lemma SpliceTwo(st: seq<LibNode>, g: GlobalHooks, raises: nat -> bool, rid: nat, gen: nat, a: NodeId, e: ChainElem)
    requires a < |st| && (e.Node? || e.Pair?) && e.n < |st|
    ensures ElemsIn([Node(a), e], |st|)
    ensures var r := SpliceAll(st, g, raises, rid, gen, [Node(a), e]);
      r.nodes == InputOne(st, g, raises, rid, e.n, a, PortOf(e), gen).nodes && r.closures == gen + 1 && r.outcome == Done
  {
    assert Head([Node(a), e]) == Node(a) && Tail([Node(a), e]) == [e];
    assert [e][..0] == [];
    var w0 := SpliceWalk(st, g, raises, rid, gen, Node(a), []);
    assert w0 == Walk(ChainRun(st, [], gen, Done), Node(a));
    assert SourcesOf(Arrayify(SourceArg(Node(a)))) == [a];
    var t := SpliceStep(st, g, raises, rid, gen, Node(a), e);
    assert t.nodes == InputAll(st, g, raises, rid, e.n, [a], PortOf(e), gen).nodes;
    InputAllSingle(st, g, raises, rid, e.n, a, PortOf(e), gen);
  }

  /** `o.split([a, e])` is `e.unInput(a, port)`. */
  lemma SplitTwo(st: seq<LibNode>, g: GlobalHooks, raises: nat -> bool, rid: nat, a: NodeId, e: ChainElem)
    requires a < |st| && (e.Node? || e.Pair?) && e.n < |st|
    ensures ElemsIn([Node(a), e], |st|)
    ensures var r := SplitAll(st, g, raises, rid, [Node(a), e]);
      var u := UnInputOne(st, g, raises, rid, e.n, a, PortOf(e));
      r.nodes == u.nodes && r.outcome == u.outcome
  {
    assert Head([Node(a), e]) == Node(a) && Tail([Node(a), e]) == [e];
    assert [e][..0] == [];
    var w0 := SplitWalk(st, g, raises, rid, Node(a), []);
    assert w0 == Walk(ChainRun(st, [], 0, Done), Node(a));
    assert SourcesOf(Arrayify(SourceArg(Node(a)))) == [a];
    var t := SplitStep(st, g, raises, rid, Node(a), e);
    var u := UnInputAll(st, g, raises, rid, e.n, [a], PortOf(e), false);
    assert t.nodes == u.nodes && t.outcome == u.outcome;
    UnInputAllSingle(st, g, raises, rid, e.n, a, PortOf(e), false);
  }

  /** Splitting a two-element chain undoes splicing it: the consumer's ports and
      listeners are as before, the source has the same consumers and the consumer the
      same pairings (up to order), and no other stream changes. */
  lemma SplitUndoesSplice(st: seq<LibNode>, g: GlobalHooks, raises: nat -> bool, rid: nat, gen: nat, a: NodeId, e: ChainElem)
    requires a < |st| && (e.Node? || e.Pair?) && e.n < |st| && a != e.n
    requires WiringOk(st[e.n], rid) && a !in PortAt(st[e.n].inputStreams, PortOf(e))
    ensures ElemsIn([Node(a), e], |st|)
    ensures var r := SplitAll(SpliceAll(st, g, raises, rid, gen, [Node(a), e]).nodes, g, raises, rid, [Node(a), e]);
      r.outcome == Done
      && (forall i :: PortAt(r.nodes[e.n].inputStreams, i) == PortAt(st[e.n].inputStreams, i))
      && (forall i :: PortAt(r.nodes[e.n].invokers, i) == PortAt(st[e.n].invokers, i))
      && multiset(PairsOf(r.nodes[e.n].pairs)) == multiset(PairsOf(st[e.n].pairs))
      && multiset(r.nodes[a].outputFns) == multiset(st[a].outputFns)
      && (forall j :: 0 <= j < |st| && j != a && j != e.n ==> r.nodes[j] == st[j])
  {
    SpliceTwo(st, g, raises, rid, gen, a, e);
    var w1 := InputOne(st, g, raises, rid, e.n, a, PortOf(e), gen).nodes;
    SplitTwo(w1, g, raises, rid, a, e);
    InputThenUnInputPort(st, g, raises, rid, e.n, a, PortOf(e), gen);
    InputThenUnInputPairs(st, g, raises, rid, e.n, a, PortOf(e), gen);
    InputThenUnInputConsumers(st, g, raises, rid, e.n, a, PortOf(e), gen);
    var r := UnInputOne(w1, g, raises, rid, e.n, a, PortOf(e)).nodes;
    forall i ensures PortAt(r[e.n].inputStreams, i) == PortAt(st[e.n].inputStreams, i) && PortAt(r[e.n].invokers, i) == PortAt(st[e.n].invokers, i) {
      if i != PortOf(e) {
        InputThenUnInputOtherPort(st, g, raises, rid, e.n, a, PortOf(e), gen, i);
      }
    }
    forall j | 0 <= j < |st| && j != a && j != e.n ensures r[j] == st[j] {
      InputOneElsewhere(st, g, raises, rid, e.n, a, PortOf(e), gen, j);
      UnInputOneElsewhere(w1, g, raises, rid, e.n, a, PortOf(e), j);
    }
  }

  /** `b.unInput(a, p)` right after `b.input(a, p)` on a port without `a` restores the
      port and its listeners… */
  lemma InputThenUnInputPort(st: seq<LibNode>, g: GlobalHooks, raises: nat -> bool, rid: nat, b: NodeId, a: NodeId, p: nat, gen: nat)
    requires a < |st| && b < |st| && a != b
    requires WiringOk(st[b], rid) && a !in PortAt(st[b].inputStreams, p)
    ensures var r := UnInputOne(InputOne(st, g, raises, rid, b, a, p, gen).nodes, g, raises, rid, b, a, p);
      r.outcome == Done
      && PortAt(r.nodes[b].inputStreams, p) == PortAt(st[b].inputStreams, p)
      && PortAt(r.nodes[b].invokers, p) == PortAt(st[b].invokers, p)
  {
    var port, invs, inv := PortAt(st[b].inputStreams, p), PortAt(st[b].invokers, p), PortInvoker(b, p, gen);
    PortLengths(st[b], rid, p);
    InputUnionsPort(st, g, raises, rid, b, a, p, gen);
    UnInputBound(InputOne(st, g, raises, rid, b, a, p, gen).nodes, g, raises, rid, b, a, p, port, invs, PairsOf(st[b].pairs), st[a].outputFns, inv);
    RemoveAtLast(port, a);
    RemoveAtLast(invs, inv);
  }

  /** …the pairings of the stream, up to order… */
  lemma InputThenUnInputPairs(st: seq<LibNode>, g: GlobalHooks, raises: nat -> bool, rid: nat, b: NodeId, a: NodeId, p: nat, gen: nat)
    requires a < |st| && b < |st| && a != b
    requires WiringOk(st[b], rid) && a !in PortAt(st[b].inputStreams, p)
    ensures var r := UnInputOne(InputOne(st, g, raises, rid, b, a, p, gen).nodes, g, raises, rid, b, a, p);
      multiset(PairsOf(r.nodes[b].pairs)) == multiset(PairsOf(st[b].pairs))
  {
    hide InputOne, UnInputOne;
    var w := InputOne(st, g, raises, rid, b, a, p, gen).nodes;
    assert PairsOf(UnInputOne(w, g, raises, rid, b, a, p).nodes[b].pairs) == RemoveFirst(PairsOf(st[b].pairs) + [Id(rid, a)], Id(rid, a)) by {
      InputThenUnInputBound(st, g, raises, rid, b, a, p, gen);
    }
    RemoveFirstOnly(PairsOf(st[b].pairs) + [Id(rid, a)], Id(rid, a));
  }

  /** …and the consumers of the source, up to order. */
  lemma InputThenUnInputConsumers(st: seq<LibNode>, g: GlobalHooks, raises: nat -> bool, rid: nat, b: NodeId, a: NodeId, p: nat, gen: nat)
    requires a < |st| && b < |st| && a != b
    requires WiringOk(st[b], rid) && a !in PortAt(st[b].inputStreams, p)
    ensures var r := UnInputOne(InputOne(st, g, raises, rid, b, a, p, gen).nodes, g, raises, rid, b, a, p);
      multiset(r.nodes[a].outputFns) == multiset(st[a].outputFns)
  {
    hide InputOne, UnInputOne;
    var inv := PortInvoker(b, p, gen);
    var w := InputOne(st, g, raises, rid, b, a, p, gen).nodes;
    assert UnInputOne(w, g, raises, rid, b, a, p).nodes[a].outputFns == RemoveFirst(st[a].outputFns + [inv], inv) by {
      InputThenUnInputBound(st, g, raises, rid, b, a, p, gen);
    }
    RemoveFirstOnly(st[a].outputFns + [inv], inv);
  }

  /** `b.input(a, p)` of a new source sets up what `UnInputBound` needs. */
  lemma InputThenUnInputBound(st: seq<LibNode>, g: GlobalHooks, raises: nat -> bool, rid: nat, b: NodeId, a: NodeId, p: nat, gen: nat)
    requires a < |st| && b < |st| && a != b
    requires WiringOk(st[b], rid) && a !in PortAt(st[b].inputStreams, p)
    ensures var w := InputOne(st, g, raises, rid, b, a, p, gen).nodes;
      var inv := PortInvoker(b, p, gen);
      var r := UnInputOne(w, g, raises, rid, b, a, p);
      r.outcome == Done
      && PortAt(r.nodes[b].inputStreams, p) == RemoveAt(PortAt(st[b].inputStreams, p) + [a], |PortAt(st[b].inputStreams, p)|)
      && PortAt(r.nodes[b].invokers, p) == RemoveAt(PortAt(st[b].invokers, p) + [inv], |PortAt(st[b].inputStreams, p)|)
      && PairsOf(r.nodes[b].pairs) == RemoveFirst(PairsOf(st[b].pairs) + [Id(rid, a)], Id(rid, a))
      && r.nodes[a].outputFns == RemoveFirst(st[a].outputFns + [inv], inv)
  {
    hide InputOne, UnInputOne;
    var port, invs, inv := PortAt(st[b].inputStreams, p), PortAt(st[b].invokers, p), PortInvoker(b, p, gen);
    PortLengths(st[b], rid, p);
    InputUnionsPort(st, g, raises, rid, b, a, p, gen);
    UnInputBound(InputOne(st, g, raises, rid, b, a, p, gen).nodes, g, raises, rid, b, a, p, port, invs, PairsOf(st[b].pairs), st[a].outputFns, inv);
  }

  /** `b.unInput(a, p)` when `a` was the last source bound on the port, with listener
      `inv`: the last entry of the port and of its listeners goes, and one copy of the
      pairing and of the listener. */
  lemma UnInputBound(w: seq<LibNode>, g: GlobalHooks, raises: nat -> bool, rid: nat, b: NodeId, a: NodeId, p: nat,
                     port: seq<NodeId>, invs: seq<LibConsumer>, pairs: seq<string>, fns: seq<LibConsumer>, inv: LibConsumer)
    requires a < |w| && b < |w| && a != b && a !in port && |invs| == |port|
    requires PortAt(w[b].inputStreams, p) == port + [a] && PortAt(w[b].invokers, p) == invs + [inv]
    requires PairsOf(w[b].pairs) == pairs + [Id(rid, a)] && w[a].outputFns == fns + [inv]
    ensures var r := UnInputOne(w, g, raises, rid, b, a, p);
      r.outcome == Done
      && PortAt(r.nodes[b].inputStreams, p) == RemoveAt(port + [a], |port|)
      && PortAt(r.nodes[b].invokers, p) == RemoveAt(invs + [inv], |port|)
      && PairsOf(r.nodes[b].pairs) == RemoveFirst(pairs + [Id(rid, a)], Id(rid, a))
      && r.nodes[a].outputFns == RemoveFirst(fns + [inv], inv)
  {
    assert IndexOf(port + [a], a) == |port|;
    UnInputOneFacts(w, g, raises, rid, b, a, p);
  }

  lemma RemoveAtLast<T>(s: seq<T>, x: T)
    ensures RemoveAt(s + [x], |s|) == s
  {
    assert (s + [x])[..|s|] == s;
  }

  /** Taking a source off a port leaves the listeners of the other ports as they were. */
  lemma UnInputOneOtherInvokers(st: seq<LibNode>, g: GlobalHooks, raises: nat -> bool, rid: nat, n: NodeId, s: NodeId, idx: nat, i: nat)
    requires n < |st| && s < |st| && n != s && i != idx
    ensures PortAt(UnInputOne(st, g, raises, rid, n, s, idx).nodes[n].invokers, i) == PortAt(st[n].invokers, i)
  {
  }

  lemma InputThenUnInputOtherPort(st: seq<LibNode>, g: GlobalHooks, raises: nat -> bool, rid: nat, b: NodeId, a: NodeId, p: nat, gen: nat, i: nat)
    requires a < |st| && b < |st| && a != b && i != p
    ensures var r := UnInputOne(InputOne(st, g, raises, rid, b, a, p, gen).nodes, g, raises, rid, b, a, p).nodes;
      PortAt(r[b].inputStreams, i) == PortAt(st[b].inputStreams, i) && PortAt(r[b].invokers, i) == PortAt(st[b].invokers, i)
  {
    var w1 := InputOne(st, g, raises, rid, b, a, p, gen).nodes;
    assert PortAt(w1[b].inputStreams, i) == PortAt(st[b].inputStreams, i) && PortAt(w1[b].invokers, i) == PortAt(st[b].invokers, i) by {
      InputOneOtherPort(st, g, raises, rid, b, a, p, gen, i);
    }
    var r := UnInputOne(w1, g, raises, rid, b, a, p).nodes;
    assert PortAt(r[b].inputStreams, i) == PortAt(w1[b].inputStreams, i) && PortAt(r[b].invokers, i) == PortAt(w1[b].invokers, i) by {
      UnInputOneOtherPort(w1, g, raises, rid, b, a, p, i);
      UnInputOneOtherInvokers(w1, g, raises, rid, b, a, p, i);
    }
  }

  /** A mask that is truthy at every position keeps the pipe as it is. */
  lemma MaskAllTruthy(pipe: seq<ChainElem>, m: Args)
    requires forall i :: 0 <= i < |pipe| ==> Truthy(ArgAt(m, i))
    ensures Mask(pipe, m) == pipe
  {
    var r := Mask(pipe, m);
    forall i | 0 <= i < |pipe| ensures r[i] == pipe[i] {
      assert Truthy(ArgAt(m, i));
    }
  }

  /** Masking twice with the same mask is masking once. */
  lemma MaskIdempotent(pipe: seq<ChainElem>, m: Args)
    ensures Mask(Mask(pipe, m), m) == Mask(pipe, m)
  {
    var r := Mask(pipe, m);
    var r2 := Mask(r, m);
    forall i | 0 <= i < |pipe| ensures r2[i] == r[i] {
    }
  }

  /** A masked-out element (`null`) breaks the chain: the stream after it gets no input. */
  lemma FalsyBreaksChain(st: seq<LibNode>, g: GlobalHooks, raises: nat -> bool, rid: nat, gen: nat, a: NodeId, b: NodeId)
    requires a < |st| && b < |st|
    ensures ElemsIn([Node(a), Falsy, Node(b)], |st|)
    ensures var r := SpliceAll(st, g, raises, rid, gen, [Node(a), Falsy, Node(b)]);
      r.nodes == st && r.events == [] && r.outcome == Done
  {
    var xs := [Falsy, Node(b)];
    assert Head([Node(a), Falsy, Node(b)]) == Node(a) && Tail([Node(a), Falsy, Node(b)]) == xs;
    assert xs[..1] == [Falsy] && [Falsy][..0] == [] && xs[..2] == xs;
    var w0 := SpliceWalk(st, g, raises, rid, gen, Node(a), []);
    assert w0 == Walk(ChainRun(st, [], gen, Done), Node(a));
    assert SpliceStep(st, g, raises, rid, gen, Node(a), Falsy) == Step(st, [], gen, Falsy, Done);
    var w1 := SpliceWalk(st, g, raises, rid, gen, Node(a), [Falsy]);
    assert w1 == Walk(ChainRun(st, [], gen, Done), Falsy);
    assert SourcesOf(Arrayify(SourceArg(Falsy))) == [];
  }

  /** A chain of `null`s wires nothing. */
  lemma {:induction false} FalsyWalkInert(st: seq<LibNode>, g: GlobalHooks, raises: nat -> bool, rid: nat, gen: nat, xs: seq<ChainElem>)
    requires forall i :: 0 <= i < |xs| ==> xs[i].Falsy?
    ensures ElemsIn(xs, |st|)
    ensures SpliceWalk(st, g, raises, rid, gen, Falsy, xs) == Walk(ChainRun(st, [], gen, Done), Falsy)
  {
    if xs != [] {
      FalsyWalkInert(st, g, raises, rid, gen, xs[..|xs| - 1]);
    }
  }

  /** With an empty mask, `spliceMask` only splits: the splice wires nothing. */
  lemma EmptyMaskWiresNothing(st: seq<LibNode>, g: GlobalHooks, raises: nat -> bool, rid: nat, gen: nat, pipe: seq<ChainElem>)
    ensures ElemsIn(Mask(pipe, []), |st|)
    ensures SpliceAll(st, g, raises, rid, gen, Mask(pipe, [])) == ChainRun(st, [], gen, Done)
  {
    var c := Mask(pipe, []);
    assert forall i :: 0 <= i < |c| ==> c[i].Falsy?;
    FalsyWalkInert(st, g, raises, rid, gen, Tail(c));
  }
}
