/** `stream.join(func)` and `stream.any(func)` of lib/riffle.js with the default
    configuration: the stream keeps `saved`, the latest defined value of every slot,
    and calls `func` with the whole vector when `canInvoke` allows it (`join`: every
    slot is defined; `any`: always). */
module LibJoin {
  import opened JsValues
  import opened LibSpec
  import Join

  /** `Math.max(saved.length, newStuff.length, func.length - 1)`. */
  function SlotCount(saved: Args, items: Args, arity: nat): (n: nat)
    ensures n >= |saved| && n >= |items| && n + 1 >= arity
    ensures n == |saved| || n == |items| || n + 1 == arity
  {
    Max(Max(|saved|, |items|), if arity == 0 then 0 else arity - 1)
  }

  /** The default `config.saver`: every slot takes the new item when that is defined
      and keeps the saved one otherwise (`undefined` past the end of either). */
  function Saver(saved: Args, items: Args, arity: nat): (r: Args)
    ensures |r| == SlotCount(saved, items, arity)
  {
    seq(SlotCount(saved, items, arity), i requires 0 <= i => if ArgAt(items, i) != Undefined then ArgAt(items, i) else ArgAt(saved, i))
  }

  /** The default `config.canInvoke`: the length equals the count of defined slots. */
  function CanInvoke(saved: Args): (b: bool)
    ensures b <==> AllDefined(saved)
  {
    CountDefinedAll(saved);
    |saved| == CountDefined(saved)
  }

  /** Whether a stream built by `join(func)` (`isAny` false) or `any(func)` calls `func`
      on every invocation. `any` puts an always-true `canInvoke` into its own config, but
      `join` takes a first argument that is a non-function, non-array object as the
      config instead, so `any(obj)` keeps join's all-defined rule. */
  function FiresAlways(isAny: bool, func: Callable, funcIsArray: bool): (b: bool)
    ensures b ==> isAny
    ensures isAny && (func.Fn? || funcIsArray) ==> b
    ensures func.NotFn? && func.v.Obj? && !funcIsArray ==> !b
  {
    isAny && !(func.NotFn? && func.v.Obj? && !funcIsArray)
  }

  /** The `length` of the default `func`, `function (out)`. */
  const DefaultArity: nat := 1

  /** The closure state of one `join` (or `any`) stream. */
  class JoinStream {
    /** `func`, a foreign function or the default one. */
    const func: Callable
    /** `func.length`. */
    const arity: nat
    /** `canInvoke` is always true (`any`, unless its first argument became the config). */
    const fireAlways: bool
    var saved: Args
    /** The vectors `func` has been called with (after `out`), in order. */
    var calls: seq<Args>

    /** `stream.join(func)` (`isAny` false) or `stream.any(func)`; `funcLength` is the
        `length` of a foreign `func`, and `funcIsArray` is `_.isArray(func)`. */
    constructor(func: Callable, funcLength: nat, isAny: bool, funcIsArray: bool)
      ensures this.func == func && fireAlways == FiresAlways(isAny, func, funcIsArray)
      ensures arity == (if func.Fn? then funcLength else DefaultArity)
      ensures saved == [] && calls == []
    {
      this.func := func;
      this.arity := if func.Fn? then funcLength else DefaultArity;
      fireAlways := isAny && !(func.NotFn? && func.v.Obj? && !funcIsArray);
      saved := [];
      calls := [];
    }

    /** The body: save, then call `func` with the saved vector when allowed. The default
        `func` hands the whole vector to `out`, but `outputAllFns` forwards only its first
        argument (`LibSpec.DefaultForwardsFirstArgument`), so a default join outputs the
        first slot alone. */
    method Invoke(items: Args)
      modifies this
      ensures saved == Saver(old(saved), items, arity)
      ensures calls == old(calls) + (if fireAlways || AllDefined(saved) then [saved] else [])
    {
      saved := Saver(saved, items, arity);
      var fire := fireAlways || CanInvoke(saved);
      if fire {
        calls := calls + [saved];
      }
    }

    /** The listener of port `idx` (`invokeOneArg`). */
    method Receive(idx: nat, x: Value)
      modifies this
      ensures saved == Saver(old(saved), LibPortVector(idx, x), arity)
      ensures calls == old(calls) + (if fireAlways || AllDefined(saved) then [saved] else [])
    {
      Invoke(LibPortVector(idx, x));
    }
  }

  // ---------------------------------------------------------------- properties

  /** The saver is the slot update of test/riffleLib.js's join, padded with `undefined`
      up to the item count and `func.length - 1`. */
  lemma SaverIsPaddedOverlay(saved: Args, items: Args, arity: nat)
    ensures var o := Join.Overlay(saved, items);
      |o| <= |Saver(saved, items, arity)|
      && Saver(saved, items, arity) == o + Repeat(Undefined, |Saver(saved, items, arity)| - |o|)
  {
    var r := Saver(saved, items, arity);
    var o := Join.Overlay(saved, items);
    Join.OverlayAt(saved, items);
    var pad := Repeat(Undefined, |r| - |o|);
    assert forall k :: 0 <= k < |r| ==> r[k] == (o + pad)[k] by {
      forall k | 0 <= k < |r| ensures r[k] == (o + pad)[k] {
        if k >= |o| {
          assert k >= |saved| && k >= Join.DefinedReach(items);
          assert ArgAt(items, k) == Undefined;
        }
      }
    }
  }

  /** A defined slot never becomes undefined, and a defined item always lands. */
  lemma SaverKeepsDefined(saved: Args, items: Args, arity: nat)
    ensures var r := Saver(saved, items, arity);
      (forall i :: 0 <= i < |saved| && saved[i] != Undefined ==> r[i] != Undefined)
      && (forall i :: 0 <= i < |items| && items[i] != Undefined ==> r[i] == items[i])
  {
  }

  /** Once every slot is defined, deliveries that stay within the slots keep the join
      ready: it fires again on each of them. */
  lemma SaverSticky(saved: Args, items: Args, arity: nat)
    requires AllDefined(saved) && |items| <= |saved| && arity <= |saved| + 1
    ensures |Saver(saved, items, arity)| == |saved|
    ensures CanInvoke(Saver(saved, items, arity))
  {
    var r := Saver(saved, items, arity);
    assert forall i :: 0 <= i < |r| ==> r[i] != Undefined by {
      forall i | 0 <= i < |r| ensures r[i] != Undefined {
        assert i < |saved| && saved[i] != Undefined;
      }
    }
  }

  /** Saving the same items twice is saving them once. */
  lemma SaverIdempotent(saved: Args, items: Args, arity: nat)
    ensures Saver(Saver(saved, items, arity), items, arity) == Saver(saved, items, arity)
  {
    var r := Saver(saved, items, arity);
    var r2 := Saver(r, items, arity);
    assert |r2| == |r|;
    forall i | 0 <= i < |r| ensures r2[i] == r[i] {
    }
  }

  /** `func.length - 1` slots must be filled before the default join fires. */
  lemma ArityHoldsBackFiring(items: Args, arity: nat)
    requires |items| + 1 < arity
    ensures !CanInvoke(Saver([], items, arity))
  {
    var r := Saver([], items, arity);
    assert r[arity - 2] == Undefined;
  }

  /** A join with nothing to wait for fires on every invocation, with no slots. */
  lemma EmptyJoinFires()
    ensures Saver([], [], DefaultArity) == [] && CanInvoke([])
  {
  }
}
