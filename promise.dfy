/** `stream.promise`, `stream.promise.not`, `stream.isPromise` and `stream.adapter` of
    test/riffleLib.js.

    A promise is two engine nodes (`s`, whose body forwards the first argument of
    `fulfill`, and `t`, a default node wired to `s`) plus the closure state `status`,
    `value` and `smashCallbacks`. The two nodes are collapsed into their net effect: a
    first `fulfill(v)` schedules one deferred output of `t`, carrying `[v]` (or nothing
    when `v` is undefined), which reaches the `onFulfill` consumers registered when the
    turn runs. All promises of a program share one world, because `not` wires one
    promise to another. */
module Promises {
  import opened JsValues
  import opened StreamSpec

  datatype Status = Unresolved | Fulfilled | Smashed

  /** A consumer of `t`'s output (`onFulfill`): a foreign function, the closure of
      `not` that smashes another promise, or the closure of `adapter` that invokes a
      node of the stream engine. */
  datatype FulfillSub = OnValue(tag: nat) | SmashOther(q: nat) | InvokeNode(node: NodeId)

  /** An entry of `smashCallbacks`: whatever was passed to `onSmash`, or the closure of
      `not` that fulfils another promise with `null`. */
  datatype SmashSub = OnReason(cb: Callable) | FulfillOtherNull(q: nat)

  datatype PromiseState = PromiseState(status: Status, value: Value, fulfillSubs: seq<FulfillSub>, smashSubs: seq<SmashSub>)

  /** A deferred turn: `t`'s output of a fulfilment, or the delayed `o.invoke(x.value())`
      of `adapter` on a promise that was already fulfilled. */
  datatype Turn = Delivery(p: nat, vals: Args) | InvokeWithValue(node: NodeId, p: nat)

  /** What the promises do that can be observed: a consumer called with the fulfilment
      (`raised` when it threw, which is absorbed), a smash callback called with the
      reason, and an invocation of an engine node. */
  datatype Event =
    | Delivered(tag: nat, vals: Args, raised: bool)
    | Notified(tag: nat, reason: Value, raised: bool)
    | NodeInvoked(node: NodeId, args: Args)

  datatype World = World(promises: seq<PromiseState>, pending: seq<Turn>, log: seq<Event>)

  /** `stream.promise()`. */
  const Fresh: PromiseState := PromiseState(Unresolved, Undefined, [], [])

  predicate SubsIn(ps: PromiseState, n: nat)
  {
    (forall s :: s in ps.fulfillSubs ==> s.SmashOther? ==> s.q < n)
    && (forall s :: s in ps.smashSubs ==> s.FulfillOtherNull? ==> s.q < n)
  }

  /** Every promise a closure or a turn refers to exists. */
  predicate WorldOk(w: World)
  {
    (forall k :: 0 <= k < |w.promises| ==> SubsIn(w.promises[k], |w.promises|))
    && (forall t :: t in w.pending ==> t.p < |w.promises|)
  }

  predicate SameSubs(a: PromiseState, b: PromiseState)
  {
    a.fulfillSubs == b.fulfillSubs && a.smashSubs == b.smashSubs
  }

  /** `fulfill(args...)`: only an unresolved promise reacts; it becomes fulfilled, keeps
      the first argument as its value when that is defined, and `t` will output it. */
  function Fulfill(w: World, p: nat, args: Args): (r: World)
    requires p < |w.promises|
    ensures |r.promises| == |w.promises| && r.log == w.log && w.pending <= r.pending
    ensures forall k :: 0 <= k < |w.promises| ==> SameSubs(w.promises[k], r.promises[k])
    ensures forall k :: 0 <= k < |w.promises| && (k != p || w.promises[k].status != Unresolved) ==> r.promises[k] == w.promises[k]
    ensures WorldOk(w) ==> WorldOk(r)
  {
    var ps := w.promises[p];
    if ps.status != Unresolved then w
    else
      var v := ArgAt(args, 0);
      w.(promises := w.promises[p := ps.(status := Fulfilled, value := if v != Undefined then v else ps.value)],
         pending := w.pending + [Delivery(p, if v != Undefined then [v] else [])])
  }

  /** Whether calling this smash callback throws: a non-function cannot be called, and a
      foreign function may raise. */
  predicate SubThrows(s: SmashSub, raises: nat -> bool)
  {
    s.OnReason? && (s.cb.NotFn? || raises(s.cb.tag))
  }

  predicate AnyThrows(subs: seq<SmashSub>, raises: nat -> bool)
  {
    exists s :: s in subs && SubThrows(s, raises)
  }

  /** One smash callback, called directly (not inside `applyArgsToFn`). */
  function NotifyOne(w: World, s: SmashSub, reason: Value, raises: nat -> bool): (r: (World, Outcome))
    requires s.FulfillOtherNull? ==> s.q < |w.promises|
    ensures r.1.Threw? <==> SubThrows(s, raises)
  {
    match s
    case OnReason(Fn(t)) =>
      (w.(log := w.log + [Notified(t, reason, raises(t))]), if raises(t) then Threw(Thrown(t)) else Done)
    case OnReason(NotFn(_)) => (w, Threw(TypeError("callback is not a function")))
    case FulfillOtherNull(q) => (Fulfill(w, q, [Null]), Done)
  }

  /** `_.each(smashCallbacks, cb => cb(reason))`: in order, and the first exception ends
      the loop and leaves `smash`. */
  function Notify(w: World, subs: seq<SmashSub>, reason: Value, raises: nat -> bool): (r: (World, Outcome))
    requires WorldOk(w) && forall s :: s in subs ==> s.FulfillOtherNull? ==> s.q < |w.promises|
    ensures |r.0.promises| == |w.promises| && WorldOk(r.0) && w.pending <= r.0.pending && w.log <= r.0.log
    ensures forall k :: 0 <= k < |w.promises| ==> SameSubs(w.promises[k], r.0.promises[k])
    ensures forall k :: 0 <= k < |w.promises| && (w.promises[k].status != Unresolved || FulfillOtherNull(k) !in subs) ==> r.0.promises[k] == w.promises[k]
    ensures r.1.Threw? <==> AnyThrows(subs, raises)
    decreases |subs|
  {
    if subs == [] then (w, Done)
    else
      var init, last := subs[..|subs| - 1], subs[|subs| - 1];
      assert subs == init + [last];
      assert forall s :: s in subs <==> s in init || s == last;
      var (w1, o1) := Notify(w, init, reason, raises);
      if o1.Threw? then (w1, o1) else NotifyOne(w1, last, reason, raises)
  }

  /** `smash(reason)`: always smashed, whatever the status was, then every smash
      callback. */
  function Smash(w: World, p: nat, reason: Value, raises: nat -> bool): (r: (World, Outcome))
    requires WorldOk(w) && p < |w.promises|
    ensures |r.0.promises| == |w.promises| && WorldOk(r.0) && w.pending <= r.0.pending && w.log <= r.0.log
    ensures forall k :: 0 <= k < |w.promises| ==> SameSubs(w.promises[k], r.0.promises[k])
    ensures r.0.promises[p].status == Smashed
    ensures forall k :: 0 <= k < |w.promises| && k != p && (w.promises[k].status != Unresolved || FulfillOtherNull(k) !in w.promises[p].smashSubs) ==> r.0.promises[k] == w.promises[k]
  {
    var w1 := w.(promises := w.promises[p := w.promises[p].(status := Smashed)]);
    assert SubsIn(w.promises[p], |w.promises|);
    Notify(w1, w.promises[p].smashSubs, reason, raises)
  }

  /** `t`'s `outputAllFns(vals...)`: every `onFulfill` consumer in order, each inside
      `applyArgsToFn`, so an exception (of a foreign function, or escaping `q.smash()`)
      is absorbed. */
  /** One `onFulfill` consumer called with a fulfilment. */
  function DeliverOne(w: World, s: FulfillSub, vals: Args, raises: nat -> bool): (r: World)
    requires WorldOk(w) && (s.SmashOther? ==> s.q < |w.promises|)
    ensures |r.promises| == |w.promises| && WorldOk(r) && w.log <= r.log
    ensures forall k :: 0 <= k < |w.promises| ==> SameSubs(w.promises[k], r.promises[k])
    ensures forall k :: 0 <= k < |w.promises| && w.promises[k].status == Smashed ==> r.promises[k].status == Smashed
    ensures s.SmashOther? ==> r.promises[s.q].status == Smashed
  {
    match s
    case OnValue(t) => w.(log := w.log + [Delivered(t, vals, raises(t))])
    case SmashOther(q) => Smash(w, q, Undefined, raises).0
    case InvokeNode(o) => w.(log := w.log + [NodeInvoked(o, [ArgAt(vals, 0)])])
  }

  /** `t`'s `outputAllFns(vals...)`: every `onFulfill` consumer in order, each inside
      `applyArgsToFn`, so an exception (of a foreign function, or escaping `q.smash()`)
      is absorbed. */
  function Deliver(w: World, subs: seq<FulfillSub>, vals: Args, raises: nat -> bool): (r: World)
    requires WorldOk(w) && forall s :: s in subs ==> s.SmashOther? ==> s.q < |w.promises|
    ensures |r.promises| == |w.promises| && WorldOk(r) && w.log <= r.log
    ensures forall k :: 0 <= k < |w.promises| ==> SameSubs(w.promises[k], r.promises[k])
    ensures forall k :: 0 <= k < |w.promises| && w.promises[k].status == Smashed ==> r.promises[k].status == Smashed
    ensures forall k :: 0 <= k < |w.promises| && SmashOther(k) in subs ==> r.promises[k].status == Smashed
    decreases |subs|
  {
    if subs == [] then w
    else
      var init, last := subs[..|subs| - 1], subs[|subs| - 1];
      assert subs == init + [last];
      DeliverOne(Deliver(w, init, vals, raises), last, vals, raises)
  }

  /** One turn: the oldest deferred work, reading the consumers as they are now. */
  function StepWorld(w: World, raises: nat -> bool): (r: World)
    requires WorldOk(w)
    ensures |r.promises| == |w.promises| && WorldOk(r) && w.log <= r.log
    ensures forall k :: 0 <= k < |w.promises| ==> SameSubs(w.promises[k], r.promises[k])
  {
    if w.pending == [] then w
    else
      var rest := w.(pending := w.pending[1..]);
      assert w.pending[0] in w.pending;
      match w.pending[0]
      case Delivery(p, vals) =>
        assert SubsIn(w.promises[p], |w.promises|);
        Deliver(rest, w.promises[p].fulfillSubs, vals, raises)
      case InvokeWithValue(o, p) => rest.(log := w.log + [NodeInvoked(o, [w.promises[p].value])])
  }

  /** `stream.promise.not(p)`: a fresh promise `q`, smashed when `p` delivers its
      fulfilment and fulfilled with `null` when `p` is smashed. */
  function Not(w: World, p: nat): (r: (World, nat))
    requires WorldOk(w) && p < |w.promises|
    ensures r.1 == |w.promises| && |r.0.promises| == |w.promises| + 1 && WorldOk(r.0)
    ensures r.0.promises[r.1] == Fresh && r.0.pending == w.pending && r.0.log == w.log
    ensures forall k :: 0 <= k < |w.promises| && k != p ==> r.0.promises[k] == w.promises[k]
  {
    var q := |w.promises|;
    var ps := w.promises[p];
    var promises := w.promises[p := ps.(fulfillSubs := ps.fulfillSubs + [SmashOther(q)],
                                         smashSubs := ps.smashSubs + [FulfillOtherNull(q)])] + [Fresh];
    assert forall k :: 0 <= k < q ==> SubsIn(w.promises[k], q);
    (w.(promises := promises), q)
  }

  // ---------------------------------------------------------------- properties

  /** Only the first `fulfill` takes effect. */
  lemma FulfillFirstOnly(w: World, p: nat, a: Args, b: Args)
    requires p < |w.promises|
    ensures Fulfill(w, p, a).promises[p].status != Unresolved
    ensures Fulfill(Fulfill(w, p, a), p, b) == Fulfill(w, p, a)
  {
  }

  /** The value changes only on the first `fulfill`, and only to a defined first
      argument; that fulfilment schedules exactly one output of `t`. */
  lemma FulfillStoresDefinedValue(w: World, p: nat, a: Args)
    requires p < |w.promises|
    ensures var r := Fulfill(w, p, a);
      r.promises[p].value != w.promises[p].value ==> w.promises[p].status == Unresolved && ArgAt(a, 0) != Undefined && r.promises[p].value == ArgAt(a, 0)
    ensures var r := Fulfill(w, p, a);
      w.promises[p].status == Unresolved ==> r.pending == w.pending + [Delivery(p, if ArgAt(a, 0) == Undefined then [] else [ArgAt(a, 0)])]
  {
  }

  /** After `smash`, `fulfill` is ignored. */
  lemma FulfillAfterSmashIgnored(w: World, p: nat, reason: Value, raises: nat -> bool, a: Args)
    requires WorldOk(w) && p < |w.promises|
    ensures Fulfill(Smash(w, p, reason, raises).0, p, a) == Smash(w, p, reason, raises).0
  {
  }

  /** What the smash callbacks that are foreign functions see, in order. */
  function Notices(subs: seq<SmashSub>, reason: Value): (r: seq<Event>)
    ensures |r| <= |subs|
  {
    if subs == [] then []
    else
      var tail := match subs[|subs| - 1] case OnReason(Fn(t)) => [Notified(t, reason, false)] case _ => [];
      Notices(subs[..|subs| - 1], reason) + tail
  }

  lemma {:induction false} NotifyReachesAll(w: World, subs: seq<SmashSub>, reason: Value, raises: nat -> bool)
    requires WorldOk(w) && forall s :: s in subs ==> s.FulfillOtherNull? ==> s.q < |w.promises|
    requires !AnyThrows(subs, raises)
    ensures Notify(w, subs, reason, raises).0.log == w.log + Notices(subs, reason)
    decreases |subs|
  {
    if subs != [] {
      var init, last := subs[..|subs| - 1], subs[|subs| - 1];
      assert subs == init + [last];
      assert last in subs;
      NotifyReachesAll(w, init, reason, raises);
    }
  }

  /** `smash` notifies every smash subscriber, in order, when none of them throws; it
      throws exactly when one of them does. */
  lemma SmashNotifiesAll(w: World, p: nat, reason: Value, raises: nat -> bool)
    requires WorldOk(w) && p < |w.promises|
    ensures Smash(w, p, reason, raises).1.Threw? <==> AnyThrows(w.promises[p].smashSubs, raises)
    ensures !AnyThrows(w.promises[p].smashSubs, raises) ==>
      Smash(w, p, reason, raises).0.log == w.log + Notices(w.promises[p].smashSubs, reason)
  {
    var w1 := w.(promises := w.promises[p := w.promises[p].(status := Smashed)]);
    assert SubsIn(w.promises[p], |w.promises|);
    if !AnyThrows(w.promises[p].smashSubs, raises) {
      NotifyReachesAll(w1, w.promises[p].smashSubs, reason, raises);
    }
  }

  /** `not(p)` smashes `q` on the turn that delivers `p`'s fulfilment. */
  lemma NotSmashesWhenFulfilled(w: World, p: nat, args: Args, raises: nat -> bool)
    requires WorldOk(w) && p < |w.promises| && w.pending == [] && w.promises[p].status == Unresolved
    ensures var (w2, q) := Not(w, p);
      StepWorld(Fulfill(w2, p, args), raises).promises[q].status == Smashed
  {
    var (w2, q) := Not(w, p);
    var w3 := Fulfill(w2, p, args);
    assert w3.pending == [Delivery(p, if ArgAt(args, 0) == Undefined then [] else [ArgAt(args, 0)])];
    assert SmashOther(q) in w3.promises[p].fulfillSubs;
  }

  /** `not(p)` fulfils `q` with `null` when `p` is smashed, unless an earlier smash
      callback of `p` throws. */
  lemma NotFulfillsWhenSmashed(w: World, p: nat, reason: Value, raises: nat -> bool)
    requires WorldOk(w) && p < |w.promises| && !AnyThrows(w.promises[p].smashSubs, raises)
    ensures var (w2, q) := Not(w, p);
      var r := Smash(w2, p, reason, raises).0;
      r.promises[q].status == Fulfilled && r.promises[q].value == Null
  {
    var (w2, q) := Not(w, p);
    var subs := w2.promises[p].smashSubs;
    var w1 := w2.(promises := w2.promises[p := w2.promises[p].(status := Smashed)]);
    var init := w.promises[p].smashSubs;
    assert subs[..|subs| - 1] == init && subs[|subs| - 1] == FulfillOtherNull(q);
    assert SubsIn(w.promises[p], q);
    assert FulfillOtherNull(q) !in init;
    assert !AnyThrows(init, raises) by {
      forall s | s in init ensures !SubThrows(s, raises) {
        assert s in subs;
      }
    }
    var (wi, oi) := Notify(w1, init, reason, raises);
    assert wi.promises[q] == Fresh;
  }

  // ---------------------------------------------------------------- isPromise, adapter

  const PromiseMembers: set<string> := {"fulfill", "onFulfill", "smash", "onSmash", "status", "value"}

  /** `stream.isPromise(x)`: an object with all six promise methods. */
  predicate IsPromise(x: Value)
  {
    x.Obj? && PromiseMembers <= x.members
  }

  /** The object `stream.promise()` returns. */
  function PromiseValue(p: nat): (v: Value)
    ensures IsPromise(v) && !IsStream(v) && v.handle == p
  {
    assert "invoke" !in PromiseMembers;
    Obj(p, PromiseMembers)
  }

  /** What `adapter(x)` returns: `x` itself (a stream that is not a promise), or the
      fresh node `o` that the adapter feeds. */
  datatype Adapted = Passthrough | Fed(node: NodeId)

  /** `stream.adapter(x)` with `o` the node it creates: a fulfilled promise invokes `o`
      with its value on a later turn; another promise invokes `o` with whatever it
      delivers; a stream is returned as it is; any other value invokes `o` at once. */
  function Adapt(w: World, x: Value, o: NodeId): (r: (World, Adapted))
    requires WorldOk(w) && (IsPromise(x) ==> x.handle < |w.promises|)
    ensures WorldOk(r.0) && |r.0.promises| == |w.promises|
    ensures r.1.Passthrough? <==> !IsPromise(x) && IsStream(x)
    ensures IsPromise(x) && w.promises[x.handle].status == Fulfilled ==>
      r.0 == w.(pending := w.pending + [InvokeWithValue(o, x.handle)])
    ensures IsPromise(x) && w.promises[x.handle].status != Fulfilled ==>
      InvokeNode(o) in r.0.promises[x.handle].fulfillSubs && r.0.pending == w.pending && r.0.log == w.log
    ensures !IsPromise(x) && !IsStream(x) ==> r.0 == w.(log := w.log + [NodeInvoked(o, [x])])
  {
    if IsPromise(x) then
      var p := x.handle;
      if w.promises[p].status == Fulfilled then
        (w.(pending := w.pending + [InvokeWithValue(o, p)]), Fed(o))
      else
        var ps := w.promises[p];
        var w2 := w.(promises := w.promises[p := ps.(fulfillSubs := ps.fulfillSubs + [InvokeNode(o)])]);
        assert forall k :: 0 <= k < |w.promises| ==> SubsIn(w.promises[k], |w.promises|);
        (w2, Fed(o))
    else if IsStream(x) then (w, Passthrough)
    else (w.(log := w.log + [NodeInvoked(o, [x])]), Fed(o))
  }

  /** The node an adapter feeds is a default node: invoked with one value, it outputs
      that value on a later turn, and nothing at all for `undefined`. */
  lemma AdaptedNodeOutputs(o: NodeId, x: Value)
    ensures DefaultTasks(o, [x]) == if x == Undefined then [] else [Emit(o, [x])]
  {
    DefaultBodySchedules(o, [x]);
    assert [x][..0] == [];
  }

  // ---------------------------------------------------------------- the object

  /** Every promise of a program, their pending turns and what they did. */
  class PromiseSystem {
    /** Whether the foreign function with a given tag throws when called. */
    const raises: nat -> bool
    var promises: seq<PromiseState>
    var pending: seq<Turn>
    var log: seq<Event>

    ghost function State(): World
      reads this
    {
      World(promises, pending, log)
    }

    ghost predicate Valid()
      reads this
    {
      WorldOk(State())
    }

    constructor(raises: nat -> bool)
      ensures Valid() && this.raises == raises && State() == World([], [], [])
    {
      this.raises := raises;
      promises := [];
      pending := [];
      log := [];
    }

    /** `stream.promise()`: status `'unresolved'`, no value, no subscribers. */
    method NewPromise() returns (p: nat)
      requires Valid()
      modifies this
      ensures Valid() && p == old(|promises|)
      ensures promises == old(promises) + [Fresh] && pending == old(pending) && log == old(log)
      ensures promises[p].status == Unresolved
    {
      p := |promises|;
      promises := promises + [Fresh];
      assert forall k :: 0 <= k < p ==> SubsIn(old(promises)[k], p);
    }

    /** `onFulfill(func)`: `t.onOutput(func)`, which throws on a non-function. */
    method OnFulfill(p: nat, f: Callable) returns (o: Outcome)
      requires Valid() && p < |promises|
      modifies this
      ensures Valid()
      ensures f.NotFn? ==> o == Threw(Error("onOutput expecting callback function")) && promises == old(promises)
      ensures f.Fn? ==> (o == Done
        && promises == old(promises)[p := old(promises)[p].(fulfillSubs := old(promises)[p].fulfillSubs + [OnValue(f.tag)])])
      ensures pending == old(pending) && log == old(log)
    {
      if f.NotFn? {
        return Threw(Error("onOutput expecting callback function"));
      }
      assert forall k :: 0 <= k < |promises| ==> SubsIn(promises[k], |promises|);
      promises := promises[p := promises[p].(fulfillSubs := promises[p].fulfillSubs + [OnValue(f.tag)])];
      o := Done;
    }

    /** `onSmash(func)`: anything is accepted; a non-function throws when `smash` gets
        to it. */
    method OnSmash(p: nat, f: Callable)
      requires Valid() && p < |promises|
      modifies this
      ensures Valid()
      ensures promises == old(promises)[p := old(promises)[p].(smashSubs := old(promises)[p].smashSubs + [OnReason(f)])]
      ensures pending == old(pending) && log == old(log)
    {
      assert forall k :: 0 <= k < |promises| ==> SubsIn(promises[k], |promises|);
      promises := promises[p := promises[p].(smashSubs := promises[p].smashSubs + [OnReason(f)])];
    }

    method DoFulfill(p: nat, args: Args)
      requires Valid() && p < |promises|
      modifies this
      ensures Valid() && State() == Fulfill(old(State()), p, args)
    {
      if promises[p].status == Unresolved {
        var v := ArgAt(args, 0);
        promises := promises[p := promises[p].(status := Fulfilled, value := if v != Undefined then v else promises[p].value)];
        pending := pending + [Delivery(p, if v != Undefined then [v] else [])];
      }
    }

    method DoSmash(p: nat, reason: Value) returns (o: Outcome)
      requires Valid() && p < |promises|
      modifies this
      ensures Valid() && (State(), o) == Smash(old(State()), p, reason, raises)
    {
      ghost var w0 := State();
      var subs := promises[p].smashSubs;
      assert SubsIn(promises[p], |promises|);
      promises := promises[p := promises[p].(status := Smashed)];
      ghost var w1 := State();
      o := Done;
      var i := 0;
      while i < |subs|
        invariant 0 <= i <= |subs| && Valid() && |promises| == |w0.promises|
        invariant o == Done && (State(), o) == Notify(w1, subs[..i], reason, raises)
      {
        NotifyUnfold(w1, subs, i, reason, raises);
        o := NotifyStep(subs[i], reason);
        if o.Threw? {
          NotifyStopsAtThrow(w1, subs, i + 1, reason, raises);
          return;
        }
        i := i + 1;
      }
      assert subs[..i] == subs;
    }

    /** One turn of the queue. */
    method Step() returns (ran: bool)
      requires Valid()
      modifies this
      ensures Valid() && State() == StepWorld(old(State()), raises) && (ran <==> old(pending) != [])
    {
      if pending == [] {
        return false;
      }
      ran := true;
      var t := pending[0];
      assert t in pending;
      pending := pending[1..];
      match t {
        case InvokeWithValue(o, p) =>
          log := log + [NodeInvoked(o, [promises[p].value])];
        case Delivery(p, vals) =>
          var subs := promises[p].fulfillSubs;
          assert SubsIn(promises[p], |promises|);
          ghost var w1 := State();
          var i := 0;
          while i < |subs|
            invariant 0 <= i <= |subs| && Valid() && |promises| == |w1.promises|
            invariant State() == Deliver(w1, subs[..i], vals, raises)
          {
            DeliverUnfold(w1, subs, i, vals, raises);
            DeliverStep(subs[i], vals);
            i := i + 1;
          }
          assert subs[..i] == subs;
      }
    }

    method DeliverStep(s: FulfillSub, vals: Args)
      requires Valid() && (s.SmashOther? ==> s.q < |promises|)
      modifies this
      ensures Valid() && State() == DeliverOne(old(State()), s, vals, raises)
    {
      match s {
        case OnValue(t) =>
          log := log + [Delivered(t, vals, raises(t))];
        case SmashOther(q) =>
          var _ := DoSmash(q, Undefined);
        case InvokeNode(o) =>
          log := log + [NodeInvoked(o, [ArgAt(vals, 0)])];
      }
    }

    /** `stream.promise.not(p)`. */
    method DoNot(p: nat) returns (q: nat)
      requires Valid() && p < |promises|
      modifies this
      ensures Valid() && (State(), q) == Not(old(State()), p)
    {
      ghost var w0 := State();
      q := NewPromise();
      promises := promises[p := promises[p].(fulfillSubs := promises[p].fulfillSubs + [SmashOther(q)])];
      promises := promises[p := promises[p].(smashSubs := promises[p].smashSubs + [FulfillOtherNull(q)])];
      assert promises == Not(w0, p).0.promises;
    }

    /** `stream.adapter(x)`, `o` being the node it creates. */
    method Adapter(x: Value, o: NodeId) returns (r: Adapted)
      requires Valid() && (IsPromise(x) ==> x.handle < |promises|)
      modifies this
      ensures Valid() && (State(), r) == Adapt(old(State()), x, o)
    {
      if IsPromise(x) {
        var p := x.handle;
        if promises[p].status == Fulfilled {
          pending := pending + [InvokeWithValue(o, p)];
        } else {
          assert forall k :: 0 <= k < |promises| ==> SubsIn(promises[k], |promises|);
          promises := promises[p := promises[p].(fulfillSubs := promises[p].fulfillSubs + [InvokeNode(o)])];
        }
        r := Fed(o);
      } else if IsStream(x) {
        r := Passthrough;
      } else {
        log := log + [NodeInvoked(o, [x])];
        r := Fed(o);
      }
    }

    /** One smash callback: a foreign function is called with the reason (and may
        throw), a non-function throws, the closure of `not` fulfils its promise. */
    method NotifyStep(s: SmashSub, reason: Value) returns (o: Outcome)
      requires Valid() && (s.FulfillOtherNull? ==> s.q < |promises|)
      modifies this
      ensures Valid() && (State(), o) == NotifyOne(old(State()), s, reason, raises)
    {
      match s {
        case OnReason(Fn(t)) =>
          log := log + [Notified(t, reason, raises(t))];
          o := if raises(t) then Threw(Thrown(t)) else Done;
        case OnReason(NotFn(_)) =>
          o := Threw(TypeError("callback is not a function"));
        case FulfillOtherNull(q) =>
          DoFulfill(q, [Null]);
          o := Done;
      }
    }
  }

  /** The consumer loop of a delivery one consumer further. */
  lemma DeliverUnfold(w: World, subs: seq<FulfillSub>, i: nat, vals: Args, raises: nat -> bool)
    requires WorldOk(w) && forall s :: s in subs ==> s.SmashOther? ==> s.q < |w.promises|
    requires i < |subs|
    ensures subs[i].SmashOther? ==> subs[i].q < |Deliver(w, subs[..i], vals, raises).promises|
    ensures Deliver(w, subs[..i + 1], vals, raises) == DeliverOne(Deliver(w, subs[..i], vals, raises), subs[i], vals, raises)
  {
    assert subs[..i + 1][..i] == subs[..i];
    assert subs[i] in subs;
  }

  /** The loop of `smash` one callback further. */
  lemma NotifyUnfold(w: World, subs: seq<SmashSub>, i: nat, reason: Value, raises: nat -> bool)
    requires WorldOk(w) && forall s :: s in subs ==> s.FulfillOtherNull? ==> s.q < |w.promises|
    requires i < |subs| && Notify(w, subs[..i], reason, raises).1 == Done
    ensures subs[i].FulfillOtherNull? ==> subs[i].q < |Notify(w, subs[..i], reason, raises).0.promises|
    ensures Notify(w, subs[..i + 1], reason, raises) == NotifyOne(Notify(w, subs[..i], reason, raises).0, subs[i], reason, raises)
  {
    assert subs[..i + 1][..i] == subs[..i];
    assert subs[i] in subs;
  }

  /** Once a callback threw, the rest of the list changes nothing. */
  lemma {:induction false} NotifyStopsAtThrow(w: World, subs: seq<SmashSub>, i: nat, reason: Value, raises: nat -> bool)
    requires WorldOk(w) && forall s :: s in subs ==> s.FulfillOtherNull? ==> s.q < |w.promises|
    requires i <= |subs| && Notify(w, subs[..i], reason, raises).1.Threw?
    ensures Notify(w, subs, reason, raises) == Notify(w, subs[..i], reason, raises)
    decreases |subs|
  {
    if i < |subs| {
      var init := subs[..|subs| - 1];
      assert init[..i] == subs[..i];
      NotifyStopsAtThrow(w, init, i, reason, raises);
    } else {
      assert subs[..i] == subs;
    }
  }
}
