/** `stream.join(...)` of test/riffleLib.js: a node whose body keeps the latest defined
    value of every slot in `responses` and outputs the whole vector, synchronously,
    each time every slot is defined. Streams and promises among the arguments are wired
    (through `adapter`) to the port of their position; any other argument fills its slot
    at once. */
module Join {
  import opened JsValues
  import opened StreamSpec

  /** An argument of `join`: a stream or promise (wired to its port), or a plain value. */
  datatype JoinArg = Wired | Plain(v: Value)

  /** `responses[i] = v`, growing the array (with `undefined` holes) when `i` is past
      its end. */
  function SetAt(s: Args, i: nat, v: Value): (r: Args)
    ensures |r| == Max(|s|, i + 1) && r[i] == v
    ensures forall k :: 0 <= k < |r| && k != i ==> r[k] == (if k < |s| then s[k] else Undefined)
  {
    if i < |s| then s[i := v] else s + Repeat(Undefined, i - |s|) + [v]
  }

  /** One past the last defined item, or 0. */
  function DefinedReach(items: Args): (r: nat)
    ensures r <= |items| && (r > 0 ==> items[r - 1] != Undefined)
    ensures forall k :: r <= k < |items| ==> items[k] == Undefined
  {
    if items == [] then 0
    else if items[|items| - 1] != Undefined then |items|
    else DefinedReach(items[..|items| - 1])
  }

  /** `_.each(items, (item, idx) => { if (!_.isUndefined(item)) responses[idx] = item; })`. */
  function Overlay(responses: Args, items: Args): (r: Args)
    ensures |responses| <= |r|
  {
    if items == [] then responses
    else
      var r := Overlay(responses, items[..|items| - 1]);
      if items[|items| - 1] != Undefined then SetAt(r, |items| - 1, items[|items| - 1]) else r
  }

  /** Every slot holds the new item when that is defined and keeps its old value
      otherwise; the vector grows only to reach a defined item. */
  lemma {:induction false} OverlayAt(responses: Args, items: Args)
    ensures |Overlay(responses, items)| == Max(|responses|, DefinedReach(items))
    ensures forall k :: 0 <= k < |Overlay(responses, items)| ==>
      Overlay(responses, items)[k] == (if k < |items| && items[k] != Undefined then items[k] else if k < |responses| then responses[k] else Undefined)
  {
    if items != [] {
      OverlayAt(responses, items[..|items| - 1]);
    }
  }

  /** Once every slot is defined, every later invocation that stays within the slots
      (every port delivery does) keeps them defined: the join is sticky. */
  lemma OverlaySticky(responses: Args, items: Args)
    requires AllDefined(responses) && |items| <= |responses|
    ensures AllDefined(Overlay(responses, items)) && |Overlay(responses, items)| == |responses|
  {
    OverlayAt(responses, items);
  }

  /** A port delivery (`idx` below the slot count) never changes the slot count and
      writes only its own slot. */
  lemma PortDeliveryWritesOneSlot(responses: Args, idx: nat, x: Value)
    requires idx < |responses|
    ensures var r := Overlay(responses, PortVector(idx, x));
      |r| == |responses| && (x != Undefined ==> r[idx] == x)
      && forall k :: 0 <= k < |r| && (k != idx || x == Undefined) ==> r[k] == responses[k]
  {
    OverlayAt(responses, PortVector(idx, x));
  }

  /** The deferred initial invocation passes the slots themselves, which changes none. */
  lemma OverlaySelf(responses: Args)
    ensures Overlay(responses, responses) == responses
  {
    OverlayAt(responses, responses);
  }

  /** The slots right after `join(args...)`: plain values in place, wired slots empty. */
  function InitialSlots(args: seq<JoinArg>): (r: Args)
    ensures |r| == |args|
    ensures forall i :: 0 <= i < |args| ==> r[i] == (if args[i].Plain? then args[i].v else Undefined)
  {
    if args == [] then [] else InitialSlots(args[..|args| - 1]) + [match args[|args| - 1] case Plain(v) => v case Wired => Undefined]
  }

  /** The initial `responseCount`: one per plain argument. It reaches the argument count
      exactly when no argument is wired. */
  function PlainCount(args: seq<JoinArg>): (r: nat)
    ensures r <= |args|
    ensures r == |args| <==> forall i :: 0 <= i < |args| ==> args[i].Plain?
  {
    if args == [] then 0 else PlainCount(args[..|args| - 1]) + (if args[|args| - 1].Plain? then 1 else 0)
  }

  /** The closure state of one join node. */
  class JoinNode {
    var responses: Args
    var responseCount: nat
    /** The vectors output so far, in order. */
    var fired: seq<Args>
    /** Whether the deferred initial invocation is still to run. */
    var initialPending: bool

    /** `stream.join(args...)`. */
    constructor(args: seq<JoinArg>)
      ensures responses == InitialSlots(args) && |responses| == |args|
      ensures responseCount == PlainCount(args)
      ensures initialPending <==> PlainCount(args) == |args| && |args| != 0
      ensures fired == []
    {
      var slots := Repeat(Undefined, |args|);
      var count := 0;
      var i := 0;
      while i < |args|
        invariant 0 <= i <= |args| && |slots| == |args|
        invariant slots == InitialSlots(args[..i]) + Repeat(Undefined, |args| - i)
        invariant count == PlainCount(args[..i])
      {
        assert args[..i + 1][..i] == args[..i];
        if args[i].Plain? {
          slots := slots[i := args[i].v];
          count := count + 1;
        }
        i := i + 1;
      }
      assert args[..i] == args;
      responses := slots;
      responseCount := count;
      fired := [];
      initialPending := count == |slots| && count != 0;
    }

    /** The body: overlay the defined items, recount, and output the whole vector when
        every slot is defined. */
    method Invoke(items: Args)
      modifies this
      ensures responses == Overlay(old(responses), items)
      ensures responseCount == CountDefined(responses)
      ensures fired == old(fired) + (if AllDefined(responses) then [responses] else [])
      ensures initialPending == old(initialPending)
    {
      var idx := 0;
      while idx < |items|
        invariant 0 <= idx <= |items|
        invariant responses == Overlay(old(responses), items[..idx])
        invariant fired == old(fired) && initialPending == old(initialPending)
      {
        assert items[..idx + 1][..idx] == items[..idx];
        if items[idx] != Undefined {
          responses := SetAt(responses, idx, items[idx]);
        }
        idx := idx + 1;
      }
      assert items[..idx] == items;
      responseCount := 0;
      var j := 0;
      while j < |responses|
        invariant 0 <= j <= |responses|
        invariant responseCount == CountDefined(responses[..j])
        invariant responses == Overlay(old(responses), items)
        invariant fired == old(fired) && initialPending == old(initialPending)
      {
        assert responses[..j + 1][..j] == responses[..j];
        if responses[j] != Undefined {
          responseCount := responseCount + 1;
        }
        j := j + 1;
      }
      assert responses[..j] == responses;
      CountDefinedAll(responses);
      if responseCount == |responses| {
        fired := fired + [responses];
      }
    }

    /** The listener of port `idx`: `invoke()` for `undefined`, else the port vector. */
    method Receive(idx: nat, x: Value)
      modifies this
      ensures responses == Overlay(old(responses), PortVector(idx, x))
      ensures fired == old(fired) + (if AllDefined(responses) then [responses] else [])
      ensures initialPending == old(initialPending)
    {
      Invoke(PortVector(idx, x));
    }

    /** The deferred `q.invoke.apply(global, responses)`, reading the slots when it runs. */
    method FlushInitial()
      requires initialPending
      modifies this
      ensures !initialPending && responses == old(responses)
      ensures fired == old(fired) + (if AllDefined(responses) then [responses] else [])
    {
      OverlaySelf(responses);
      Invoke(responses);
      initialPending := false;
    }
  }

  /** A join over plain values only fires on its deferred turn, and only when every one
      of them is defined; a join of no arguments schedules nothing. */
  lemma AllPlainJoinFires(args: seq<JoinArg>)
    requires forall i :: 0 <= i < |args| ==> args[i].Plain?
    ensures PlainCount(args) == |args|
    ensures AllDefined(InitialSlots(args)) <==> forall i :: 0 <= i < |args| ==> args[i].v != Undefined
  {
    PlainCountAll(args);
  }

  lemma {:induction false} PlainCountAll(args: seq<JoinArg>)
    requires forall i :: 0 <= i < |args| ==> args[i].Plain?
    ensures PlainCount(args) == |args|
  {
    if args != [] {
      PlainCountAll(args[..|args| - 1]);
    }
  }
}
