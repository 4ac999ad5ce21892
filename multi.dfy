/** `stream.multi()` of test/riffleLib.js: an invocation is handed to the route that the
    dispatch function's result names, else to the default route, else straight to the
    output node `o`. Each route is a node created by `onDispatch`; when an invocation
    goes through a route, `o`'s port 0 is rebound to that route's node. */
module Multi {
  import opened JsValues

  /** `String(v)`, the property name `streams[v]` looks up. */
  function ToKey(v: Value): (k: string)
    ensures v.Str? ==> k == v.s
  {
    match v
    case Undefined => "undefined"
    case Null => "null"
    case Bool(b) => if b then "true" else "false"
    case Num(n) => if n < 0 then "-" + NatToString(-n) else NatToString(n)
    case Str(s) => s
    case Obj(_, _) => "[object Object]"
  }

  /** The methods that `streams = {}` inherits from `Object.prototype`: `streams[key]`
      is truthy for these names even when `onDispatch` never registered them. */
  const InheritedNames: set<string> := {
    "constructor", "hasOwnProperty", "isPrototypeOf", "propertyIsEnumerable",
    "toLocaleString", "toString", "valueOf",
    "__defineGetter__", "__defineSetter__", "__lookupGetter__", "__lookupSetter__"}

  /** A node created by `onDispatch`: the body it was given and its creation number. */
  datatype Route = Route(body: Callable, node: nat)

  /** Where an invocation goes. */
  datatype Target =
    | ToHandler(route: Route)
    | Inherited  // an inherited method: truthy, but it has no `invoke`
    | ToDefault(route: Route)
    | Direct

  datatype MultiEvent =
    | RouteInvoked(node: nat, args: Args)  // the route's node invoked with the arguments
    | OutputInvoked(args: Args)            // `o.invoke(args...)`
    | DispatchFailed                       // the dispatch step threw; the body's wrapper absorbed it
    | LookupFailed(key: string)            // `streams[key].invoke` was undefined; the TypeError was absorbed

  datatype MultiState = MultiState(
    dispatchFunc: Callable,
    handlers: map<string, Route>,
    norm: Option<Route>,
    created: nat,
    outSource: Option<nat>,
    log: seq<MultiEvent>)

  /** `stream.multi()`: no dispatch function, no routes, `o` unbound. */
  const Initial: MultiState := MultiState(NotFn(Undefined), map[], None, 0, None, [])

  /** The route priority: the key's handler, else an inherited method of `streams`,
      else the default, else `o` itself. */
  function Choose(handlers: map<string, Route>, norm: Option<Route>, key: string): (t: Target)
    ensures t.ToHandler? <==> key in handlers
    ensures t.ToHandler? ==> t.route == handlers[key]
    ensures t.Inherited? <==> key !in handlers && key in InheritedNames
    ensures t.ToDefault? <==> key !in handlers && key !in InheritedNames && norm.Some?
    ensures t.ToDefault? ==> t.route == norm.value
  {
    if key in handlers then ToHandler(handlers[key])
    else if key in InheritedNames then Inherited
    else if norm.Some? then ToDefault(norm.value)
    else Direct
  }

  /** `dispatchFunc && dispatchFunc.apply(global, args)`: a falsy dispatch function is
      itself the result; a truthy one that is not a function throws (`None`), and so may
      a foreign one. */
  function DispatchValue(f: Callable, args: Args, dispatchRun: (nat, Args) -> Option<Value>): (r: Option<Value>)
    ensures !TruthyCallable(f) ==> r == Some(f.v)
    ensures f.NotFn? && Truthy(f.v) ==> r == None
  {
    match f
    case Fn(t) => dispatchRun(t, args)
    case NotFn(v) => if Truthy(v) then None else Some(v)
  }

  /** Handing the arguments to the target of a key. */
  function RouteByKey(st: MultiState, key: string, args: Args): (r: MultiState)
    ensures r.handlers == st.handlers && r.norm == st.norm && r.dispatchFunc == st.dispatchFunc && r.created == st.created
    ensures |r.log| == |st.log| + 1 && r.log[..|st.log|] == st.log
  {
    match Choose(st.handlers, st.norm, key)
    case ToHandler(route) => st.(outSource := Some(route.node), log := st.log + [RouteInvoked(route.node, args)])
    case Inherited => st.(log := st.log + [LookupFailed(key)])
    case ToDefault(route) => st.(outSource := Some(route.node), log := st.log + [RouteInvoked(route.node, args)])
    case Direct => st.(log := st.log + [OutputInvoked(args)])
  }

  /** The body of `s`, for one invocation. */
  function InvokeMulti(st: MultiState, args: Args, dispatchRun: (nat, Args) -> Option<Value>): (r: MultiState)
    ensures r.handlers == st.handlers && r.norm == st.norm && r.dispatchFunc == st.dispatchFunc && r.created == st.created
    ensures |r.log| == |st.log| + 1 && r.log[..|st.log|] == st.log
  {
    match DispatchValue(st.dispatchFunc, args, dispatchRun)
    case None => st.(log := st.log + [DispatchFailed])
    case Some(v) => RouteByKey(st, ToKey(v), args)
  }

  /** `onDispatch(func, id)`: with a truthy key and a truthy `func`, a fresh node for that
      key; with only a truthy `func`, a fresh default node; otherwise nothing. */
  function OnDispatchMulti(st: MultiState, func: Callable, id: Value): (r: MultiState)
    ensures r.log == st.log && r.dispatchFunc == st.dispatchFunc && r.outSource == st.outSource
  {
    if Truthy(id) && TruthyCallable(func) then
      st.(handlers := st.handlers[ToKey(id) := Route(func, st.created)], created := st.created + 1)
    else if TruthyCallable(func) then
      st.(norm := Some(Route(func, st.created)), created := st.created + 1)
    else st
  }

  // ---------------------------------------------------------------- properties

  /** An invocation goes to the handler of its key if there is one; a key naming an
      inherited method of `streams` fails (`o.input` of a function binds nothing, and
      calling its `invoke` throws); otherwise it goes to the default route, else straight
      to the output. A route also becomes `o`'s input. */
  lemma InvokeRoutes(st: MultiState, args: Args, dispatchRun: (nat, Args) -> Option<Value>, v: Value)
    requires DispatchValue(st.dispatchFunc, args, dispatchRun) == Some(v)
    ensures var r := InvokeMulti(st, args, dispatchRun);
      (ToKey(v) in st.handlers ==> r.log == st.log + [RouteInvoked(st.handlers[ToKey(v)].node, args)] && r.outSource == Some(st.handlers[ToKey(v)].node))
      && (ToKey(v) !in st.handlers && ToKey(v) in InheritedNames ==> r.log == st.log + [LookupFailed(ToKey(v))] && r.outSource == st.outSource)
      && (ToKey(v) !in st.handlers && ToKey(v) !in InheritedNames && st.norm.Some? ==> r.log == st.log + [RouteInvoked(st.norm.value.node, args)] && r.outSource == Some(st.norm.value.node))
      && (ToKey(v) !in st.handlers && ToKey(v) !in InheritedNames && st.norm.None? ==> r.log == st.log + [OutputInvoked(args)] && r.outSource == st.outSource)
  {
  }

  /** A key registered by `onDispatch` catches every invocation whose dispatch value
      has that key, until the key is registered again. */
  lemma OnDispatchThenInvoke(st: MultiState, func: Callable, id: Value, args: Args, dispatchRun: (nat, Args) -> Option<Value>, v: Value)
    requires Truthy(id) && TruthyCallable(func)
    requires DispatchValue(st.dispatchFunc, args, dispatchRun) == Some(v) && ToKey(v) == ToKey(id)
    ensures var r := InvokeMulti(OnDispatchMulti(st, func, id), args, dispatchRun);
      r.log == st.log + [RouteInvoked(st.created, args)] && r.outSource == Some(st.created)
  {
  }

  /** A dispatch function answering "toString" with no handler registered for it: the
      lookup finds `Object.prototype.toString`, nothing is invoked and `o` keeps its input,
      even when a default route exists. */
  lemma ToStringKeyFails(st: MultiState, args: Args, dispatchRun: (nat, Args) -> Option<Value>, t: nat)
    requires st.dispatchFunc == Fn(t) && dispatchRun(t, args) == Some(Str("toString"))
    requires "toString" !in st.handlers
    ensures InvokeMulti(st, args, dispatchRun) == st.(log := st.log + [LookupFailed("toString")])
  {
  }

  /** Without a dispatch function every invocation looks up the key "undefined". */
  lemma NoDispatchUsesUndefinedKey(st: MultiState, args: Args, dispatchRun: (nat, Args) -> Option<Value>)
    requires st.dispatchFunc == NotFn(Undefined)
    ensures InvokeMulti(st, args, dispatchRun) == RouteByKey(st, "undefined", args)
  {
  }

  /** A truthy dispatch value that is not a function makes every invocation fail. */
  lemma TruthyNonFunctionDispatchFails(st: MultiState, args: Args, dispatchRun: (nat, Args) -> Option<Value>)
    requires st.dispatchFunc.NotFn? && Truthy(st.dispatchFunc.v)
    ensures InvokeMulti(st, args, dispatchRun) == st.(log := st.log + [DispatchFailed])
  {
  }

  // ---------------------------------------------------------------- the object

  class MultiNode {
    /** What a foreign dispatch function returns for given arguments (`None`: it throws). */
    const dispatchRun: (nat, Args) -> Option<Value>
    var dispatchFunc: Callable
    var handlers: map<string, Route>
    var norm: Option<Route>
    var created: nat
    var outSource: Option<nat>
    var log: seq<MultiEvent>

    ghost function State(): MultiState
      reads this
    {
      MultiState(dispatchFunc, handlers, norm, created, outSource, log)
    }

    constructor(dispatchRun: (nat, Args) -> Option<Value>)
      ensures State() == Initial && this.dispatchRun == dispatchRun
    {
      this.dispatchRun := dispatchRun;
      dispatchFunc := NotFn(Undefined);
      handlers := map[];
      norm := None;
      created := 0;
      outSource := None;
      log := [];
    }

    /** `invoke(args...)`. */
    method Invoke(args: Args)
      modifies this
      ensures State() == InvokeMulti(old(State()), args, dispatchRun)
    {
      var dispatchVal: Value;
      match dispatchFunc {
        case Fn(t) =>
          var res := dispatchRun(t, args);
          if res.None? {
            log := log + [DispatchFailed];
            return;
          }
          dispatchVal := res.value;
        case NotFn(v) =>
          if Truthy(v) {
            log := log + [DispatchFailed];
            return;
          }
          dispatchVal := v;
      }
      var key := ToKey(dispatchVal);
      if key in handlers {
        outSource := Some(handlers[key].node);
        log := log + [RouteInvoked(handlers[key].node, args)];
      } else if key in InheritedNames {
        log := log + [LookupFailed(key)];
      } else if norm.Some? {
        outSource := Some(norm.value.node);
        log := log + [RouteInvoked(norm.value.node, args)];
      } else {
        log := log + [OutputInvoked(args)];
      }
    }

    /** `dispatch(func)`: any value is kept. */
    method Dispatch(func: Callable)
      modifies this
      ensures State() == old(State()).(dispatchFunc := func)
    {
      dispatchFunc := func;
    }

    /** `onDispatch(func, id)`. */
    method OnDispatch(func: Callable, id: Value)
      modifies this
      ensures State() == OnDispatchMulti(old(State()), func, id)
    {
      if Truthy(id) && TruthyCallable(func) {
        handlers := handlers[ToKey(id) := Route(func, created)];
        created := created + 1;
      } else if TruthyCallable(func) {
        norm := Some(Route(func, created));
        created := created + 1;
      }
    }
  }
}
