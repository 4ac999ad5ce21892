/** The helpers of lib/riffle.js that the stream system is built from: the function
    check, `arrayify`, hook lists (`hookFn` / `unhookFn` / `outputAllHooks`), stream ids
    and the capability check `isStream`. */
module LibSupport {
  import opened JsValues

  type NodeId = nat

  /** A value, or the exception thrown instead of returning one. */
  datatype Result<T> = Ok(value: T) | Err(error: JsError)

  /** `assertFunction(f)`. */
  function AssertFunction(f: Callable): (o: Outcome)
    ensures o == Done <==> f.Fn?
    ensures o.Threw? ==> o.error == Error("expecting function")
  {
    if f.Fn? then Done else Threw(Error("expecting function"))
  }

  /** An argument of `input` / `unInput`: a single value or an array of values. */
  datatype InputArg = Single(v: Value) | Many(vs: seq<Value>)

  /** `arrayify(obj)`: an array is kept (even an empty one), anything else is wrapped. */
  function Arrayify(a: InputArg): (r: seq<Value>)
    ensures a.Single? ==> r == [a.v]
    ensures a.Many? ==> r == a.vs
  {
    match a
    case Single(v) => [v]
    case Many(vs) => vs
  }

  /** The properties `isStream` requires to be truthy. */
  const LibStreamMembers: set<string> := {"invoke", "onOutput", "offOutput", "input", "unInput"}

  /** `stream.isStream(x)`: a capability check, not an identity check. */
  predicate IsLibStream(v: Value)
  {
    v.Obj? && LibStreamMembers <= v.members
  }

  /** A node of this stream system, as a JavaScript value. */
  function LibNodeValue(n: NodeId): (v: Value)
    ensures IsLibStream(v) && v.handle == n
  {
    Obj(n, LibStreamMembers)
  }

  /** `filterStreams(arrayify(inputs))`: the nodes among the values, in order. */
  function SourcesOf(vs: seq<Value>): (r: seq<NodeId>)
    ensures |r| <= |vs|
    ensures forall v :: v in vs && IsLibStream(v) ==> v.handle in r
    ensures forall s :: s in r ==> LibNodeValue(s) in vs || exists v :: v in vs && IsLibStream(v) && v.handle == s
  {
    if vs == [] then []
    else
      var last := vs[|vs| - 1];
      assert vs == vs[..|vs| - 1] + [last];
      SourcesOf(vs[..|vs| - 1]) + (if IsLibStream(last) then [last.handle] else [])
  }

  lemma NonStreamsBindNothing(vs: seq<Value>)
    requires forall v :: v in vs ==> !IsLibStream(v)
    ensures SourcesOf(vs) == []
  {
    if vs != [] {
      assert forall v :: v in vs[..|vs| - 1] ==> v in vs;
      NonStreamsBindNothing(vs[..|vs| - 1]);
    }
  }

  // ---------------------------------------------------------------- ids

  /** `chain._id()`: `riffleId + '-' + id`. */
  function Id(riffleId: nat, id: nat): (s: string)
    ensures |s| == |NatToString(riffleId)| + 1 + |NatToString(id)|
  {
    NatToString(riffleId) + "-" + NatToString(id)
  }

  /** Ids name their stream system and their stream uniquely: the separator cannot occur
      in a decimal numeral, so the two numbers are recovered from the string. */
  lemma IdInjective(r1: nat, i1: nat, r2: nat, i2: nat)
    ensures Id(r1, i1) == Id(r2, i2) ==> r1 == r2 && i1 == i2
  {
    var a, b := NatToString(r1), NatToString(i1);
    var c, d := NatToString(r2), NatToString(i2);
    var s, t := Id(r1, i1), Id(r2, i2);
    if s == t {
      assert s[|a|] == '-' && t[|c|] == '-';
      assert a == s[..|a|] == t[..|c|] == c;
      assert b == s[|a| + 1..] == t[|c| + 1..] == d;
      NatToStringInjective(r1, r2);
      NatToStringInjective(i1, i2);
    }
  }

  /** The module-level `riffleCount`: every `riffle()` takes the next number. */
  class Registry {
    var riffleCount: nat

    constructor()
      ensures riffleCount == 0
    {
      riffleCount := 0;
    }

    /** `var riffleId = riffleCount++;` */
    method NextRiffleId() returns (r: nat)
      modifies this
      ensures r == old(riffleCount) && riffleCount == old(riffleCount) + 1
    {
      r := riffleCount;
      riffleCount := riffleCount + 1;
    }
  }

  /** Two stream systems never share an id, whatever their stream counters. */
  lemma DistinctSystemsDistinctIds(r1: nat, r2: nat, i1: nat, i2: nat)
    requires r1 != r2
    ensures Id(r1, i1) != Id(r2, i2)
  {
    IdInjective(r1, i1, r2, i2);
  }

  // ---------------------------------------------------------------- hooks

  /** What a hook receives. */
  datatype HookPayload =
    | Created(id: string)                                  // `{id}`
    | Invoking(id: string, args: Args)                     // `{id, args}` of invoke
    | Outputting(id: string, arg: Value)                   // `{id, args: [arg]}` of output
    | Inputting(id: string, port: nat, inputId: string)    // `{id, portId, inputId, ports}`
    | UnInputting(id: string, port: nat, inputId: string)

  /** What can be observed of a stream system. */
  datatype LibEvent =
    | HookCalled(hook: nat, payload: HookPayload, raised: bool)
    | Invoked(node: NodeId, args: Args)
    | Called(tag: nat, arg: Value, raised: bool)   // a foreign `_onOutput` consumer
    | BodyThrew(node: NodeId)
    | StackOverflow(node: NodeId)

  /** `hookFn(list)(f)`: a function is appended (duplicates allowed); anything else throws
      and leaves the list alone. */
  function HookOn(list: seq<nat>, f: Callable): (r: (seq<nat>, Outcome))
    ensures r.1 == AssertFunction(f)
    ensures f.NotFn? ==> r.0 == list
    ensures f.Fn? ==> |r.0| == |list| + 1 && r.0[|list|] == f.tag && r.0[..|list|] == list
  {
    if f.Fn? then (list + [f.tag], Done) else (list, AssertFunction(f))
  }

  /** `list.splice(list.indexOf(x), 1)` guarded by `indexOf(x) > -1`: the first
      occurrence of `x` removed, the rest in order. */
  function RemoveFirst<T(==)>(s: seq<T>, x: T): (r: seq<T>)
    ensures x !in s ==> r == s
    ensures x in s ==> |r| == |s| - 1
  {
    var i := IndexOf(s, x);
    if i > -1 then RemoveAt(s, i) else s
  }

  /** Only the first occurrence leaves: the entries before it and after it stay, in order,
      and exactly one copy of `x` is gone. */
  lemma RemoveFirstOnly<T>(s: seq<T>, x: T)
    ensures x in s ==> exists i :: (0 <= i < |s| && s[i] == x && x !in s[..i]
      && RemoveFirst(s, x) == s[..i] + s[i + 1..])
    ensures multiset(RemoveFirst(s, x)) == multiset(s) - multiset{x}
  {
    if x in s {
      var i := IndexOf(s, x);
      assert s == s[..i] + [s[i]] + s[i + 1..];
    } else {
      assert multiset(s)[x] == 0;
    }
  }

  /** `unhookFn(list)(f)`: the first occurrence of a function is spliced out; absent,
      nothing changes; anything else throws. */
  function HookOff(list: seq<nat>, f: Callable): (r: (seq<nat>, Outcome))
    ensures r.1 == AssertFunction(f)
    ensures f.NotFn? || f.tag !in list ==> r.0 == list
    ensures f.Fn? ==> multiset(r.0) == multiset(list) - multiset{f.tag}
  {
    if f.NotFn? then (list, AssertFunction(f))
    else
      RemoveFirstOnly(list, f.tag);
      (RemoveFirst(list, f.tag), Done)
  }

  /** Unhooking a function that was just hooked restores the list. */
  lemma HookOnOff(list: seq<nat>, f: Callable)
    requires f.NotFn? || f.tag !in list
    ensures HookOff(HookOn(list, f).0, f).0 == list
  {
    if f.Fn? {
      var l := list + [f.tag];
      assert IndexOf(l, f.tag) == |list| by {
        assert l[..|list|] == list;
      }
    }
  }

  /** Every hook of the concatenated lists is called with the payload, in order; a hook
      that throws is absorbed and does not stop the next one. */
  function HookCalls(hooks: seq<nat>, p: HookPayload, raises: nat -> bool): (r: seq<LibEvent>)
    ensures |r| == |hooks|
    ensures forall i :: 0 <= i < |hooks| ==> r[i] == HookCalled(hooks[i], p, raises(hooks[i]))
  {
    if hooks == [] then []
    else HookCalls(hooks[..|hooks| - 1], p, raises) + [HookCalled(hooks[|hooks| - 1], p, raises(hooks[|hooks| - 1]))]
  }

  /** `outputAllHooks([global, local], payload)`: the system's hooks, then the stream's. */
  function OutputAllHooks(global: seq<nat>, local: seq<nat>, p: HookPayload, raises: nat -> bool): (r: seq<LibEvent>)
    ensures |r| == |global| + |local|
    ensures r[..|global|] == HookCalls(global, p, raises) && r[|global|..] == HookCalls(local, p, raises)
  {
    HookCallsAppend(global, local, p, raises);
    HookCalls(global + local, p, raises)
  }

  lemma HookCallsAppend(a: seq<nat>, b: seq<nat>, p: HookPayload, raises: nat -> bool)
    ensures HookCalls(a + b, p, raises) == HookCalls(a, p, raises) + HookCalls(b, p, raises)
  {
  }
}
