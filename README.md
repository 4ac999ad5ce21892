# riffle in Dafny

riffle is a single-process dataflow engine. A *stream* is a node with:

- a body;
- an ordered list of output consumers;
- numbered input ports, each bound to the outputs of other streams.

Invoking a stream runs its body. The body's outputs go to every consumer. A port listener invokes its stream with an argument vector holding the delivered value at the port's index. The only asynchrony is "run this on a later turn" (`setTimeout(…, 0)`). This model makes those turns an explicit FIFO queue with a `Step()` method. Observable behaviour is an append-only log of calls, invocations and hook calls. Foreign JavaScript functions are known by a tag. What they do is a parameter: whether they throw, and what a foreign body outputs.

The repository has three versions of the engine. They are modelled side by side.

- **test/riffleLib.js** and **riffle.js**: `stream` / `Stream`, in modules `StreamSpec`, `StreamWiring` and `StreamCore`.
  - Binding a port replaces what the port held.
  - test/riffleLib.js also releases the ports beyond the argument count of `input`. This is the `truncates` flag of `StreamCore.Graph`.
  - The derived combinators of test/riffleLib.js are modelled in `Promises`, `Join`, `Multi`, `TimePattern` and `Lazy`.
- **lib/riffle.js**: a `riffle()` stream system, in modules `LibSupport`, `LibSpec`, `LibWiring`, `LibCore`, `LibJoin`, `LibChain` and `LibPipe`. It adds:
  - hook lists and `riffleId-id` identifiers;
  - ports that take the union of their sources, with `unInput` / `isInput`;
  - outputs delivered synchronously or on their own turns;
  - the configurable `join` / `any`;
  - chain wiring (`o.splice`, `o.split`, `o.spliceMask`);
  - the graph-string parser `o.pipe`.

Every operation has two forms:

- a pure specification function of the state;
- a `class` whose fields the source mutates (`Graph`, `PromiseSystem`, `JoinNode`, `MultiNode`, `TimePatternNode`, `LazyNode`, `Riffle`, `JoinStream`, `Registry`), with methods whose loops are proved against those functions.

## Model

| member | source | states |
|---|---|---|
| JsValues.RemoveCounts | test/riffleLib.js:529-540 | `_.reject(s, y => y === x)` leaves no copy of `x`, keeps every other element with its multiplicity, and shortens the list by the number of copies |
| JsValues.RemoveIdempotent | test/riffleLib.js:529-540 | rejecting the same value twice is rejecting it once |
| JsValues.RemoveAbsent | test/riffleLib.js:529-540 | rejecting a value that is absent changes nothing |
| JsValues.RemoveAppend | test/riffleLib.js:529-540 | rejection distributes over concatenation |
| JsValues.CountDefinedAll | test/riffleLib.js:214-217 | the defined-item count equals the length exactly when every item is defined |
| JsValues.IndexOf | lib/riffle.js:68-72 | `indexOf` is the first index holding the value, or -1 exactly when the value is absent |
| JsValues.NatToStringInjective | lib/riffle.js:121 | distinct numbers have distinct decimal renderings |
| StreamSpec.NodeValue | riffle.js:65-66 | every node is a value that passes `isStream` |
| StreamSpec.EmitEach | test/riffleLib.js:22-28 | one single-value deferred output per value, in order |
| StreamSpec.DefinedEmitsAreDefinedArgs | test/riffleLib.js:22-28 | the outputs of the default body are exactly the defined arguments, in argument order |
| StreamSpec.DefaultBodySchedules | test/riffleLib.js:14-29 | a zero-argument call schedules exactly one empty output; otherwise one output per defined argument, in order, with `undefined` dropped, so the count is the argument count less the undefined ones |
| StreamSpec.AllUndefinedEmitsNothing | test/riffleLib.js:22-28 | a call whose arguments are all `undefined` (and there is at least one) schedules nothing |
| StreamSpec.InvokeFx | test/riffleLib.js:40-45 | an invocation only ever schedules outputs of nodes of the graph |
| StreamSpec.FanOutAppend | riffle.js:17-20 | fan-out to a concatenation of consumer lists is the fan-out to the first followed by the fan-out to the second, so each consumer's effects come whole and in registration order |
| StreamSpec.FanOutCallsEveryCallback | test/riffleLib.js:33-38 | every callback is called exactly once, in registration order, with the same values, whatever the earlier ones threw; nothing is scheduled |
| StreamSpec.ListenerForwardsToDefault | riffle.js:44-47 | a port listener invokes its node with a vector of length idx+1 holding the value at idx and `undefined` below, or with no arguments for `undefined`; a default node then outputs that value on a later turn |
| StreamSpec.WellFormedClosed | test/riffleLib.js:64-87 | in a well-formed graph every port listener targets a node of the graph |
| StreamWiring.StreamsIn | riffle.js:57-61 | every source is the node of a stream value of the array, and every stream value's node is a source |
| StreamWiring.StreamsInAppend | riffle.js:57-61 | filtering distributes over concatenation, so order and repetitions are kept |
| StreamWiring.StreamsInOne | riffle.js:57-61 | one value contributes its node once if it is a stream, and nothing otherwise |
| StreamWiring.UnsubscribeAt | test/riffleLib.js:76-78 | unsubscribing a listener from listed sources removes every copy from exactly those nodes and touches nothing else |
| StreamWiring.SubscribeAt | test/riffleLib.js:82-84 | subscribing appends one copy of the listener per listing of a node |
| StreamWiring.UnbindPortAt | test/riffleLib.js:75-81 | releasing a port takes its listener off each old source, deletes both per-port entries and changes nothing else |
| StreamWiring.WaitAt | test/riffleLib.js:67-87 | after `wait` each old source of the port has lost the old listener, each new source has gained the fresh one once per listing, and the port records the fresh listener and the new sources |
| StreamWiring.WaitRebinds | riffle.js:42-54 | rebinding a port unsubscribes the old listener from every old source and subscribes the fresh one once per listing of each new source |
| StreamWiring.WaitKeepsOthers | test/riffleLib.js:67-87 | every registration other than the port's old and new listener survives `wait` with its multiplicity |
| StreamWiring.WaitPortMaps | test/riffleLib.js:84-86 | `wait` writes the port's listener and sources and grows `inputStreams.length` to cover the port |
| StreamWiring.WaitWellFormed | test/riffleLib.js:67-87 | `wait` keeps the graph well formed |
| StreamWiring.BindingIndices | test/riffleLib.js:90-99 | the ports an `input` call binds are exactly the indices of its stream or array arguments |
| StreamWiring.PortsAfterInputStep | test/riffleLib.js:90-99 | one more argument changes the port map at its own index only, and only if it binds |
| StreamWiring.BindArgsPorts | riffle.js:55-62 | the binding loop leaves the port map as the direct definition says and grows `inputStreams.length` to the highest bound index |
| StreamWiring.TruncateRangePorts | test/riffleLib.js:101-108 | releasing ports lo..hi-1 deletes exactly those indices from the port map |
| StreamWiring.InputPorts | test/riffleLib.js:88-110 | `input` keeps the graph well formed, replaces each bound index, keeps the others and, with truncation, leaves nothing at or beyond the argument count |
| StreamWiring.Input | test/riffleLib.js:88-110 | `input` keeps every stream and does not reuse a closure number; what it does to the ports is `StreamWiring.InputPorts` |
| StreamWiring.TruncateAsWritten | test/riffleLib.js:101-108 | the loop as written keeps every stream; where it agrees with the corrected loop and where it throws is stated by `StreamWiring.TruncateAsWrittenAgrees` and `StreamWiring.TruncationHoleThrows` |
| StreamWiring.TruncateAsWrittenAgrees | test/riffleLib.js:101-108 | where every index of the range is bound, the loop as written releases the same ports and returns normally |
| StreamWiring.TruncationHoleThrows | test/riffleLib.js:101-108 | `t.input(a, b); t.input(c); t.input(c)` on a fresh node: the first two calls return, the third throws a TypeError |
| StreamCore.BodyOf | test/riffleLib.js:39 | a function argument becomes the body, anything else the default body |
| StreamCore.Graph.constructor | test/riffleLib.js:11-13 | an empty graph with no pending turns and an empty log |
| StreamCore.Graph.NewStream | test/riffleLib.js:11-31 | a fresh node with no consumers and no ports is appended; nothing else changes |
| StreamCore.Graph.OnOutput | riffle.js:27-31 | a function is appended to the consumers; a non-function throws "onOutput expecting callback function" and changes nothing |
| StreamCore.Graph.OffOutput | riffle.js:32-36 | every registration of the function leaves the consumers and the rest stay in order; a non-function throws "offOutput expecting callback function" |
| StreamCore.Graph.Invoke | riffle.js:22-26 | the body runs now: its effects are appended to the log and its outputs join the end of the queue; nodes are unchanged |
| StreamCore.Graph.Step | test/riffleLib.js:18-29 | one turn fans the oldest deferred output out to the consumers its node has now; with an empty queue nothing happens |
| StreamCore.Graph.RunDefault | riffle.js:5-11 | the default body queues exactly the outputs `DefaultTasks` names |
| StreamCore.Graph.FanOutAt | test/riffleLib.js:33-38 | the consumer loop has the effects of `FanOutFx`, consumer by consumer |
| StreamCore.Graph.CallAt | test/riffleLib.js:434-442 | one consumer call inside `applyArgsToFn`: a callback's exception is absorbed, a listener invokes its node |
| StreamCore.Graph.EmitAll | test/riffleLib.js:40-45 | a script body's outputs are fanned out one after the other |
| StreamCore.Graph.InvokeAt | test/riffleLib.js:40-45 | an invocation at a given depth has the effects of `InvokeFx` |
| StreamCore.Graph.Release | test/riffleLib.js:75-81 | releasing a port is `UnbindPort` and keeps the graph valid |
| StreamCore.Graph.WaitOn | riffle.js:42-54 | `wait` is `Wait` with the next listener number, and keeps the graph valid |
| StreamCore.Graph.Input | test/riffleLib.js:88-110 | `input` is the binding loop followed by the corrected truncation (`TruncateRange`) of the higher ports; see Left out |
| StreamCore.Graph.Truncate | test/riffleLib.js:101-108 | the corrected truncation loop releases every bound port from the argument count to `inputStreams.length` and skips empty ones; see Left out |
| Promises.Fulfill | test/riffleLib.js:138-143 | only an unresolved promise reacts; no subscriber list changes, and a promise that is not the target or is already resolved is unchanged |
| Promises.NotifyOne | test/riffleLib.js:146-148 | a smash callback throws exactly when it is a non-function or a raising foreign function |
| Promises.Notify | test/riffleLib.js:146-148 | the smash loop throws exactly when some callback throws, never changes subscriber lists, and changes only promises that a callback of `not` targets |
| Promises.Smash | test/riffleLib.js:144-149 | `smash` always sets the status to smashed, whatever it was |
| Promises.Deliver | test/riffleLib.js:33-38 | delivering a fulfilment never un-smashes a promise and smashes every promise a `not` consumer targets |
| Promises.StepWorld | test/riffleLib.js:18-29 | a turn keeps every promise's subscribers and only extends the log |
| Promises.Not | test/riffleLib.js:162-171 | `not(p)` creates one fresh unresolved promise and changes no other promise, turn or log |
| Promises.FulfillFirstOnly | test/riffleLib.js:138-143 | only the first `fulfill` takes effect: a second one changes nothing |
| Promises.FulfillStoresDefinedValue | test/riffleLib.js:138-143 | the value changes only on the first `fulfill` and only to a defined first argument; that fulfilment schedules exactly one output |
| Promises.FulfillAfterSmashIgnored | test/riffleLib.js:138-149 | after `smash`, `fulfill` is ignored |
| Promises.Notices | test/riffleLib.js:146-148 | at most one notice per smash callback |
| Promises.NotifyReachesAll | test/riffleLib.js:146-148 | when no callback throws, every foreign smash callback sees the reason, in order |
| Promises.SmashNotifiesAll | test/riffleLib.js:144-149 | `smash` throws exactly when a callback throws, and otherwise notifies every subscriber in order |
| Promises.NotSmashesWhenFulfilled | test/riffleLib.js:162-166 | `not(p)` is smashed on the turn that delivers `p`'s fulfilment |
| Promises.NotFulfillsWhenSmashed | test/riffleLib.js:167-169 | `not(p)` is fulfilled with `null` when `p` is smashed, unless an earlier smash callback throws |
| Promises.PromiseValue | test/riffleLib.js:173-175 | a promise passes `isPromise` and fails `isStream` |
| Promises.Adapt | test/riffleLib.js:177-198 | a fulfilled promise invokes the node on a later turn; another promise subscribes the node; a stream passes through; any other value invokes the node at once |
| Promises.AdaptedNodeOutputs | test/riffleLib.js:177-198 | the adapter's node outputs the value it is given on a later turn, and nothing for `undefined` |
| Promises.PromiseSystem.constructor | test/riffleLib.js:119-124 | no promises, turns or log |
| Promises.PromiseSystem.NewPromise | test/riffleLib.js:119-160 | a fresh promise with status unresolved is appended |
| Promises.PromiseSystem.OnFulfill | test/riffleLib.js:135-137 | a function joins the fulfil consumers; a non-function throws and changes nothing |
| Promises.PromiseSystem.OnSmash | test/riffleLib.js:150-152 | any value joins the smash callbacks |
| Promises.PromiseSystem.DoFulfill | test/riffleLib.js:138-143 | the new state is `Fulfill` of the old |
| Promises.PromiseSystem.DoSmash | test/riffleLib.js:144-149 | the new state and outcome are `Smash` of the old state, computed by a loop over the callbacks |
| Promises.PromiseSystem.Step | test/riffleLib.js:18-29 | one turn is `StepWorld`, and runs exactly when a turn is pending |
| Promises.PromiseSystem.DoNot | test/riffleLib.js:162-171 | the new state is `Not` of the old |
| Promises.PromiseSystem.Adapter | test/riffleLib.js:177-198 | the new state is `Adapt` of the old |
| Promises.NotifyStopsAtThrow | test/riffleLib.js:146-148 | once a smash callback threw, the rest of the list changes nothing |
| Join.SetAt | test/riffleLib.js:209-213 | `responses[i] = v` grows the array with holes and changes only slot i |
| Join.DefinedReach | test/riffleLib.js:209-213 | one past the last defined item |
| Join.OverlayAt | test/riffleLib.js:209-213 | every slot takes the new item when that is defined and keeps its old value otherwise; the vector grows only to reach a defined item |
| Join.Overlay | test/riffleLib.js:209-213 | the vector never shrinks; slot by slot it is `Join.OverlayAt` |
| Join.OverlaySticky | test/riffleLib.js:205-220 | once every slot is defined, deliveries within the slots keep them defined: the join is sticky |
| Join.PortDeliveryWritesOneSlot | test/riffleLib.js:222-226 | a port delivery never changes the slot count and writes only its own slot |
| Join.OverlaySelf | test/riffleLib.js:236-238 | the deferred initial invocation changes no slot |
| Join.InitialSlots | test/riffleLib.js:228-235 | one slot per argument: plain values in place, wired slots empty |
| Join.JoinNode.constructor | test/riffleLib.js:200-241 | slots as `InitialSlots`, the count of plain values, and a deferred invocation exactly when every argument is plain and there is at least one |
| Join.JoinNode.Invoke | test/riffleLib.js:205-220 | the slots are overlaid and recounted, and the whole vector is output exactly when every slot is defined |
| Join.JoinNode.Receive | test/riffleLib.js:222-226 | a port delivery is an invocation with the port vector |
| Join.JoinNode.FlushInitial | test/riffleLib.js:236-238 | the deferred invocation fires exactly when every slot is defined |
| Join.AllPlainJoinFires | test/riffleLib.js:228-240 | an all-plain join fires on its deferred turn exactly when every value is defined |
| Join.PlainCount | test/riffleLib.js:228-235 | the initial count never exceeds the arguments and equals their number exactly when none is wired |
| Join.PlainCountAll | test/riffleLib.js:228-235 | with only plain arguments every slot is pre-filled |
| Multi.ToKey | test/riffleLib.js:268-282 | a string is its own key |
| Multi.Choose | test/riffleLib.js:264-282 | the key's handler if there is one, else a failure for a name `streams = {}` inherits, else the default route, else the output itself |
| Multi.DispatchValue | test/riffleLib.js:268-272 | a falsy dispatch function is itself the key; a truthy non-function throws |
| Multi.OnDispatchMulti | test/riffleLib.js:296-303 | `onDispatch` changes only the routes |
| Multi.InvokeRoutes | test/riffleLib.js:264-282 | an invocation goes to the key's handler; an unregistered inherited name such as "toString" invokes nothing and leaves the output's input; otherwise the default route, else the output; a route becomes the output's input |
| Multi.RouteByKey | test/riffleLib.js:273-282 | routing keeps the routes and the dispatch function and logs exactly one event after the earlier ones; where it goes is `Multi.InvokeRoutes` |
| Multi.InvokeMulti | test/riffleLib.js:264-287 | one invocation keeps the routes and the dispatch function and logs exactly one event: a dispatch failure or a routing |
| Multi.ToStringKeyFails | test/riffleLib.js:264-275 | a dispatch value "toString" without a handler fails the lookup, even with a default route |
| Multi.OnDispatchThenInvoke | test/riffleLib.js:296-303 | a key registered by `onDispatch` catches every invocation whose dispatch value has that key |
| Multi.NoDispatchUsesUndefinedKey | test/riffleLib.js:268-272 | without a dispatch function every invocation looks up "undefined" |
| Multi.TruthyNonFunctionDispatchFails | test/riffleLib.js:268-272 | a truthy non-function dispatch value makes every invocation fail |
| Multi.MultiNode.constructor | test/riffleLib.js:261-267 | the initial routing state |
| Multi.MultiNode.Invoke | test/riffleLib.js:284-287 | the new state is `InvokeMulti` of the old |
| Multi.MultiNode.Dispatch | test/riffleLib.js:292-295 | the dispatch function is replaced by any value |
| Multi.MultiNode.OnDispatch | test/riffleLib.js:296-303 | the new state is `OnDispatchMulti` of the old |
| TimePattern.Symbol | test/riffleLib.js:321-323 | port i appends the code unit 97+i |
| TimePattern.Symbols | test/riffleLib.js:321-323 | one symbol per defined argument |
| TimePattern.SymbolsInOrder | test/riffleLib.js:321-323 | the symbols name exactly the defined arguments, in index order |
| TimePattern.PortSymbols | test/riffleLib.js:321-323 | a port delivery appends its port's letter, or nothing for `undefined` |
| TimePattern.NoSymbols | test/riffleLib.js:321-323 | all-undefined arguments append nothing |
| TimePattern.SampleHistoryMatchesOnce | test/riffleLib.js:318-328 | the history a,b,b,d,c,a,b,b,b,c matches `.*ab*c$` only after the last delivery |
| TimePattern.TimePatternNode.constructor | test/riffleLib.js:312-317 | an empty history, a pattern that matches everything and no callback |
| TimePattern.TimePatternNode.Invoke | test/riffleLib.js:318-328 | the history grows by the symbols, and the callback is called once exactly when the whole history matches and the callback is a function |
| TimePattern.TimePatternNode.Spot | test/riffleLib.js:338-342 | a compilable pattern replaces pattern and callback; an invalid one throws a SyntaxError before either changes |
| TimePattern.TimePatternNode.Clear | test/riffleLib.js:347-350 | the history restarts from the empty string |
| Lazy.ReplaysAppend | test/riffleLib.js:364-378 | the replay record grows only by replays |
| Lazy.InvokeKeepsQueue | test/riffleLib.js:380-385 | `invoke` appends to the FIFO and keeps every queued tuple accounted for |
| Lazy.InvokeLazy | test/riffleLib.js:380-385 | `invoke` replays nothing, leaves the consumers alone and schedules one attempt; the queue is `Lazy.InvokeKeepsQueue` |
| Lazy.CollectKeepsQueue | test/riffleLib.js:361-363 | the collector's consumer queues `[x]` for a defined delivery and `[]` for an undefined one, keeps the accounting and schedules nothing |
| Lazy.CollectedIsDefaultOutput | test/riffleLib.js:14-29 | the collector, a default stream invoked with the port vector, defers exactly one output carrying `Collected(x)`, whatever the port |
| Lazy.OnOutputKeepsDistinct | test/riffleLib.js:390-397 | `onOutput` keeps consumers distinct and puts the consumer last |
| Lazy.OffOutputKeepsDistinct | test/riffleLib.js:398-404 | `offOutput` removes the consumer and keeps the rest distinct |
| Lazy.AttemptKeepsQueue | test/riffleLib.js:364-378 | an attempt keeps every queued tuple accounted for: replayed once or still queued |
| Lazy.AttemptLazy | test/riffleLib.js:364-378 | an attempt consumes one scheduled turn, receives nothing, keeps the consumers, and either keeps the queue or empties it; see `Lazy.AttemptReplaysQueue` |
| Lazy.OnOutputIdempotent | test/riffleLib.js:390-397 | registering a consumer twice is registering it once |
| Lazy.AttemptReplaysQueue | test/riffleLib.js:364-378 | with a queue and function consumers an attempt replays the whole queue in arrival order into every consumer and empties it; without a consumer the queue waits |
| Lazy.CollectSchedulesNothing | test/riffleLib.js:361-363 | collected inputs alone never schedule an attempt |
| Lazy.LazyNode.constructor | test/riffleLib.js:355-360 | the initial state |
| Lazy.LazyNode.Invoke | test/riffleLib.js:380-385 | the new state is `InvokeLazy` of the old |
| Lazy.LazyNode.Collect | test/riffleLib.js:361-363 | for a value delivered to the collector, the new state is `CollectLazy` of the old |
| Lazy.LazyNode.OnOutput | test/riffleLib.js:390-397 | the new state is `OnOutputLazy` of the old |
| Lazy.LazyNode.OffOutput | test/riffleLib.js:398-404 | the new state is `OffOutputLazy` of the old |
| Lazy.LazyNode.Attempt | test/riffleLib.js:364-378 | one timer turn is `AttemptLazy` |
| Lazy.Without | test/riffleLib.js:391-393 | the loop rejects every copy of the consumer |
| LibSupport.AssertFunction | lib/riffle.js:62-66 | returns exactly for a function; anything else throws "expecting function" |
| LibSupport.Arrayify | lib/riffle.js:67 | an array is kept, anything else is wrapped |
| LibSupport.LibNodeValue | lib/riffle.js:301-303 | every stream of the system passes `isStream` |
| LibSupport.SourcesOf | lib/riffle.js:193-195 | the sources are exactly the stream values among the inputs |
| LibSupport.NonStreamsBindNothing | lib/riffle.js:193-195 | inputs without a stream bind nothing |
| LibSupport.Id | lib/riffle.js:121 | the id is the two decimal numbers joined by '-' |
| LibSupport.IdInjective | lib/riffle.js:121 | an id determines its system number and its stream number |
| LibSupport.Registry.constructor | lib/riffle.js:106 | the system counter starts at 0 |
| LibSupport.Registry.NextRiffleId | lib/riffle.js:108-110 | each system takes the current number and advances the counter |
| LibSupport.DistinctSystemsDistinctIds | lib/riffle.js:108-124 | two systems never share an id |
| LibSupport.HookOn | lib/riffle.js:76-82 | a function is appended to the hook list; anything else throws and leaves it |
| LibSupport.RemoveFirst | lib/riffle.js:83-92 | with the value absent nothing changes; otherwise exactly one entry goes |
| LibSupport.RemoveFirstOnly | lib/riffle.js:83-92 | only the first occurrence leaves, the rest stay in order |
| LibSupport.HookOff | lib/riffle.js:83-92 | a function loses one copy from the hook list, an absent one changes nothing, anything else throws |
| LibSupport.HookOnOff | lib/riffle.js:76-92 | unhooking a function that was just hooked restores the list |
| LibSupport.HookCalls | lib/riffle.js:93-104 | every hook is called with the payload, in order, whatever the earlier ones threw |
| LibSupport.OutputAllHooks | lib/riffle.js:93-104 | the system's hooks run first, then the stream's |
| LibSupport.HookCallsAppend | lib/riffle.js:93-104 | hook calls distribute over concatenated lists |
| LibSpec.EmitValue | lib/riffle.js:344-346 | `emit(obj)` outputs `obj`, or `true` for `undefined` |
| LibSpec.LibPortVector | lib/riffle.js:206-211 | the port vector has length idx+1, the value at idx and `undefined` below, even for an undefined value |
| LibSpec.Debug | lib/riffle.js:169-173 | a function becomes the override, `null` clears it, anything else keeps it |
| LibSpec.ActiveBody | lib/riffle.js:153-164 | the override runs when set, else the stream's own body |
| LibSpec.InvokeFx | lib/riffle.js:153-164 | an invocation is logged before anything it causes, hooks included |
| LibSpec.OutputFx | lib/riffle.js:136-152 | an asynchronous output defers exactly one turn per consumer; `LibSpec.AsyncOutputDefersConsumers` says which |
| LibSpec.CallFx | lib/riffle.js:206-211 | a foreign consumer is one call and defers nothing; a port listener within the stack bound first invokes its stream with the port vector |
| LibSpec.Ticks | lib/riffle.js:142-147 | one turn per consumer, in registration order |
| LibSpec.DefaultForwardsFirstArgument | lib/riffle.js:133-135 | the default body runs the invoke hooks, then outputs only its first argument |
| LibSpec.EmitIgnoresArguments | lib/riffle.js:344-346 | an emit stream schedules the same whatever it is invoked with |
| LibSpec.DebugOverridesBody | lib/riffle.js:169-173 | a debug body replaces the stream's own until it is cleared with `null` |
| LibSpec.AsyncOutputDefersConsumers | lib/riffle.js:136-152 | an asynchronous output runs the output hooks now and defers every consumer to its own turn, in registration order |
| LibSpec.SyncCallsEveryCallback | lib/riffle.js:142-150 | a synchronous output calls each consumer once, in order, and a throwing one does not stop the rest |
| LibSpec.PortInvokerDelivers | lib/riffle.js:206-211 | a port listener invokes its stream with the port vector |
| LibWiring.InputUnionsPort | lib/riffle.js:212-222 | a new source joins the port after the existing ones, its consumers gain exactly the port's listener, and the pairing is recorded |
| LibWiring.InputOne | lib/riffle.js:212-222 | binding one source keeps every stream; what it changes is stated by `LibWiring.InputUnionsPort`, `LibWiring.InputSkipsBoundSource`, `LibWiring.InputOneOtherPort` and `LibWiring.InputOneElsewhere` |
| LibWiring.Input | lib/riffle.js:205-241 | `input` keeps every stream; the port it leaves is `LibWiring.InputAllPort` |
| LibWiring.InputSkipsBoundSource | lib/riffle.js:213 | a source already on the port is skipped: no second listener, no second delivery |
| LibWiring.InputOneOtherPort | lib/riffle.js:212-222 | binding a source leaves the other ports as they were |
| LibWiring.InputOneElsewhere | lib/riffle.js:212-222 | binding a source leaves every other stream as it was |
| LibWiring.InputAllPort | lib/riffle.js:205-241 | after `input` every listed source is on the port exactly once, and the earlier sources keep their places |
| LibWiring.InputOneKeepsWiring | lib/riffle.js:212-222 | binding keeps ports, listeners and pairings aligned |
| LibWiring.UnInputOneKeepsWiring | lib/riffle.js:243-250 | the intended `unInput` keeps ports, listeners and pairings aligned |
| LibWiring.UnInputAbsentIsNoOp | lib/riffle.js:243-250 | `unInput` of a source not on the port changes nothing |
| LibWiring.UnInputRemovesSource | lib/riffle.js:243-250 | the intended `unInput` of a bound source removes exactly that source and its listener from the port, one copy of the listener from the source, and leaves the other ports |
| LibWiring.UnInputOne | lib/riffle.js:243-253 | the intended removal of one source keeps every stream; what it removes is `LibWiring.UnInputRemovesSource` and `LibWiring.UnInputOneFacts` |
| LibWiring.UnInputOneAsWritten | lib/riffle.js:243-253 | the removal as written keeps every stream; what it removes is `LibWiring.UnInputOneAsWrittenFacts` |
| LibWiring.UnInput | lib/riffle.js:243-253 | `unInput` keeps every stream; a source not on the port is `LibWiring.UnInputAbsentIsNoOp` |
| LibWiring.IsInput | lib/riffle.js:274-276 | before the first source is bound (lib/riffle.js:221-222) the call throws; otherwise it answers whether the source's id is paired |
| LibWiring.IsInputMeansBound | lib/riffle.js:274-276 | with the invariant, `isInput` answers whether the source is on some port |
| LibWiring.UnInputOneAsWrittenFacts | lib/riffle.js:243-253 | as written, every copy of the source, of its listener and of its id leaves the port |
| LibWiring.UnInputOneFacts | lib/riffle.js:243-253 | as intended, only the source's own position and one pairing leave |
| LibWiring.InputTwoOnEmptyPort | lib/riffle.js:205-222 | two sources bound by one call share the call's listener |
| LibWiring.SharedListenerUnInputThrows | lib/riffle.js:243-250 | after `s.input([a, b])`, as written, `s.unInput(a); s.unInput(b)` throws and leaves `b` delivering to `s` |
| LibWiring.SharedListenerUnInputIntended | lib/riffle.js:243-250 | as intended, the same calls succeed and leave the port empty |
| LibWiring.TwoPortsIsInputLost | lib/riffle.js:251-253 | as written, after binding one source on two ports and unbinding one, `isInput` answers false while the source still feeds the other port |
| LibWiring.TwoPortsIsInputIntended | lib/riffle.js:251-253 | as intended, `isInput` stays true in the same scenario |
| LibCore.LibBodyOf | lib/riffle.js:133-135 | a function becomes the body, anything else the default body |
| LibCore.WithLocalHooks | lib/riffle.js:174-179 | replacing one hook list keeps the others and the wiring |
| LibCore.WithSystemHooks | lib/riffle.js:290-299 | replacing one system hook list keeps the others |
| LibCore.Riffle.constructor | lib/riffle.js:108-114 | the next system number, no streams, hooks, turns or log |
| LibCore.Riffle.NewStream | lib/riffle.js:115-124 | the next id, the create hooks called with it, and a fresh asynchronous stream |
| LibCore.Riffle.NewEmit | lib/riffle.js:344-346 | an emit stream is created like any other |
| LibCore.Riffle.SetAsync | lib/riffle.js:165-168 | any value is stored as the async flag |
| LibCore.Riffle.SetDebug | lib/riffle.js:169-173 | the override becomes `Debug` of the old one |
| LibCore.Riffle.OnOutputFn | lib/riffle.js:174 | a function is appended to the consumers; anything else throws and changes nothing |
| LibCore.Riffle.OffOutputFn | lib/riffle.js:175 | the first registration of a function leaves; anything else throws |
| LibCore.Riffle.HookLocal | lib/riffle.js:176-179 | `hookFn` / `unhookFn` on one of the stream's hook lists and nothing else |
| LibCore.Riffle.HookSystem | lib/riffle.js:290-299 | `hookFn` / `unhookFn` on one of the system's hook lists and nothing else |
| LibCore.Riffle.Invoke | lib/riffle.js:153-164 | hooks and body run now; their turns join the queue and the streams are unchanged |
| LibCore.Riffle.Step | lib/riffle.js:73-75 | one turn calls the oldest queued consumer; with an empty queue nothing happens |
| LibCore.Riffle.Input | lib/riffle.js:205-241 | `input` is `LibWiring.Input` with one fresh listener and keeps the system healthy |
| LibCore.Riffle.UnInput | lib/riffle.js:243-272 | the intended `unInput` never throws on a healthy system and keeps it healthy |
| LibCore.Riffle.IsInputOf | lib/riffle.js:274-276 | with the intended `unInput`, `isInput` answers whether the source is on some port of the stream; see Left out |
| LibCore.RunInvoke | lib/riffle.js:153-164 | the invocation computes `InvokeFx` |
| LibCore.RunOuts | lib/riffle.js:136-152 | a body's outputs compute `OutsFx` |
| LibCore.RunOutput | lib/riffle.js:136-152 | one output computes `OutputFx` |
| LibCore.RunFanOut | lib/riffle.js:142-150 | the consumer loop computes `FanOutFx` |
| LibCore.RunCall | lib/riffle.js:54-61 | one consumer call computes `CallFx` |
| LibCore.RunInput | lib/riffle.js:212-222 | the source loop of `input` computes `InputAll` |
| LibCore.RunUnInput | lib/riffle.js:244-250 | the loop of the intended `unInput` computes `UnInputAll`; see Left out |
| LibCore.InvokeTicksIn | lib/riffle.js:136-152 | no queued turn ever calls a listener outside the system |
| LibCore.InputAllKeepsHealthy | lib/riffle.js:205-241 | every `input` call keeps the system invariant |
| LibCore.UnInputNeverThrows | lib/riffle.js:243-272 | on a healthy system the intended `unInput` never throws and keeps the invariant |
| LibCore.UnInputAllStops | lib/riffle.js:244-250 | a throw ends `unInput`: later sources are not looked at |
| LibCore.StreamIdsDistinct | lib/riffle.js:115-121 | within one system distinct streams have distinct ids |
| LibJoin.SlotCount | lib/riffle.js:315 | the slot count is the largest of the saved length, the new length and `func.length - 1` |
| LibJoin.Saver | lib/riffle.js:314-318 | the saver has exactly that many slots |
| LibJoin.FiresAlways | lib/riffle.js:305-341 | `join` never fires always; `any(func)` with a function or an array does; `any(obj)` with a plain object takes `obj` as join's config and keeps the all-defined rule |
| LibJoin.JoinStream.constructor | lib/riffle.js:305-341 | no slots and nothing fired; `FiresAlways` decides the firing rule |
| LibJoin.JoinStream.Invoke | lib/riffle.js:327-334 | save, then fire with the saved vector when `canInvoke` allows |
| LibJoin.JoinStream.Receive | lib/riffle.js:206-211 | a port delivery is an invocation with the port vector |
| LibJoin.SaverIsPaddedOverlay | lib/riffle.js:314-318 | the saver is the overlay of the defined new values onto the saved slots, padded with `undefined` |
| LibJoin.SaverKeepsDefined | lib/riffle.js:314-318 | a defined slot never becomes undefined and a defined item always lands |
| LibJoin.SaverSticky | lib/riffle.js:314-323 | once every slot is defined, deliveries within the slots keep the join ready |
| LibJoin.SaverIdempotent | lib/riffle.js:314-318 | saving the same items twice is saving them once |
| LibJoin.ArityHoldsBackFiring | lib/riffle.js:315-323 | `func.length - 1` slots must be filled before the join fires |
| LibJoin.EmptyJoinFires | lib/riffle.js:319-323 | with nothing to wait for, the join fires on every invocation |
| LibChain.SourceArg | lib/riffle.js:522-530 | a pair element passes its stream as the source |
| LibChain.SpliceStep | lib/riffle.js:522-531 | one element keeps every stream and takes one closure exactly when it is a stream or a pair; its wiring is `LibChain.SpliceStepLinks` |
| LibChain.SplitStep | lib/riffle.js:537-546 | one split element keeps every stream and takes no closure; its effect for two elements is `LibChain.SplitTwo` |
| LibChain.SpliceAll | lib/riffle.js:518-531 | the splice keeps every stream; its wiring is `LibChain.SpliceLinksChain` |
| LibChain.SplitAll | lib/riffle.js:533-546 | the split keeps every stream; when it throws is `LibChain.SplitWalkThrows` |
| LibChain.PortsGrowTrans | lib/riffle.js:212-222 | "only adds to ports" composes |
| LibChain.InputOneGrows | lib/riffle.js:212-222 | binding one source only adds to ports: every source on every port stays there |
| LibChain.InputAllGrows | lib/riffle.js:205-241 | an `input` call only adds to ports |
| LibChain.SpliceStepLinks | lib/riffle.js:522-531 | one splice element only adds to ports, returns normally exactly when it is not junk, moves `x` to the element's stream (or `null`), and puts the previous stream on the port the element names |
| LibChain.WalkLinkedGrows | lib/riffle.js:522-531 | the links made so far survive a later element, which only adds to ports |
| LibChain.WalkLinkedSnoc | lib/riffle.js:522-531 | linking one more element to the stream `x` holds keeps the whole chain linked |
| LibChain.SpliceWalkLinks | lib/riffle.js:518-531 | over elements none of which is junk the splice loop returns normally, ends with `x` on the last element's stream, and leaves every element wired to the one before it |
| LibChain.SpliceLinksChain | lib/riffle.js:518-531 | `o.splice(chain)` of any length without junk after the first element returns normally, and for every two neighbouring streams the earlier is on the port the later names |
| LibChain.SpliceWalkStops | lib/riffle.js:522-531 | a throw ends the splice loop |
| LibChain.SplitWalkStops | lib/riffle.js:537-546 | a throw ends the split loop |
| LibChain.SpliceWalkNext | lib/riffle.js:522-531 | the splice loop one element further |
| LibChain.SplitWalkNext | lib/riffle.js:537-546 | the split loop one element further |
| LibChain.SpliceWalkKeepsHealthy | lib/riffle.js:518-531 | splicing keeps the system invariant |
| LibChain.SplitWalkKeepsHealthy | lib/riffle.js:533-546 | splitting keeps the system invariant |
| LibChain.SplitWalkThrows | lib/riffle.js:533-546 | a split throws exactly when an element after the first has no `unInput` |
| LibChain.SpliceOne | lib/riffle.js:523-530 | one splice element computes `SpliceStep` |
| LibChain.SplitOne | lib/riffle.js:538-545 | one split element computes `SplitStep` |
| LibChain.RunSplice | lib/riffle.js:518-531 | the splice loop computes `SpliceAll` |
| LibChain.RunSplit | lib/riffle.js:533-546 | the split loop computes `SplitAll` |
| LibChain.Splice | lib/riffle.js:518-531 | `o.splice` changes the system as `SpliceAll` says and keeps it healthy |
| LibChain.Split | lib/riffle.js:533-546 | `o.split` changes the system as `SplitAll` says and keeps it healthy |
| LibChain.SpliceMask | lib/riffle.js:548-556 | split the whole pipe, then, unless that threw, splice the masked pipe |
| LibChain.SpliceTwo | lib/riffle.js:518-531 | `o.splice([a, e])` is `e.input(a, port)`, with the port of a pair honoured |
| LibChain.SplitTwo | lib/riffle.js:533-546 | `o.split([a, e])` is `e.unInput(a, port)` |
| LibChain.SplitUndoesSplice | lib/riffle.js:518-546 | splitting a two-element chain undoes splicing it: ports, listeners, pairings and consumers are restored (up to order) and no other stream changes |
| LibChain.InputThenUnInputPort | lib/riffle.js:205-250 | `unInput` right after `input` of a new source restores the port and its listeners |
| LibChain.InputThenUnInputPairs | lib/riffle.js:205-253 | … and the stream's pairings, up to order |
| LibChain.InputThenUnInputConsumers | lib/riffle.js:205-250 | … and the source's consumers, up to order |
| LibChain.InputThenUnInputBound | lib/riffle.js:205-253 | `unInput` of a source just bound on a port returns normally and removes the last port entry, the last listener, one pairing and one copy of the listener |
| LibChain.MaskAllTruthy | lib/riffle.js:550-553 | a mask truthy everywhere keeps the pipe |
| LibChain.MaskIdempotent | lib/riffle.js:550-553 | masking twice with the same mask is masking once |
| LibChain.Mask | lib/riffle.js:550-553 | the masked pipe has the pipe's length and each element is the pipe's or `null`; `LibChain.MaskAllTruthy` and `LibChain.MaskIdempotent` |
| LibChain.FalsyBreaksChain | lib/riffle.js:527-530 | a masked-out element breaks the chain: the stream after it gets no input |
| LibChain.FalsyWalkInert | lib/riffle.js:522-531 | a chain of `null`s wires nothing |
| LibChain.EmptyMaskWiresNothing | lib/riffle.js:548-556 | with an empty mask `spliceMask` only splits |
| LibPipe.SepsIn | lib/riffle.js:568 | the operators are the separator characters, in order |
| LibPipe.RawSplit | lib/riffle.js:570 | one piece more than separators, none containing a separator |
| LibPipe.RawSplitRejoins | lib/riffle.js:570 | the pieces and the separators give back the string |
| LibPipe.TrimLeft | lib/riffle.js:570 | exactly the leading whitespace is removed |
| LibPipe.TrimRight | lib/riffle.js:570 | exactly the trailing whitespace is removed |
| LibPipe.TrimSplit | lib/riffle.js:567 | one piece more than separators |
| LibPipe.TrimSplitPieces | lib/riffle.js:567-576 | the trimmed pieces hold no separator and no whitespace touching one |
| LibPipe.TrimSplitNoSeparator | lib/riffle.js:567 | a string with no separator is one piece, itself |
| LibPipe.LeadingDigits | lib/riffle.js:577 | the longest run of digits at the start |
| LibPipe.ParseIntReadsNumber | lib/riffle.js:577 | `parseInt` reads back a decimal rendering, and its negation after '-', whatever non-digit text follows |
| LibPipe.ParseIntNoDigits | lib/riffle.js:577 | text without digits is NaN |
| LibPipe.ParseInt | lib/riffle.js:577 | NaN exactly when no digit follows the leading whitespace and an optional sign; a negative result only after a minus sign |
| LibPipe.PortNumber | lib/riffle.js:577 | no port text gives port 0, and a negative port needs a minus sign in the text |
| LibPipe.ParseName | lib/riffle.js:571-575 | the dotted path has at least one part and no part holds a dot |
| LibPipe.Pipelines | lib/riffle.js:567 | one pipeline more than commas |
| LibPipe.XElem | lib/riffle.js:575-578 | `xDef` is a plain stream exactly when `vars` holds a stream there, `null` exactly for a falsy value, and junk otherwise |
| LibPipe.SElem | lib/riffle.js:575-578 | `sDef` is a pair with the parsed port exactly when `vars` holds a stream there, `null` exactly for a falsy value, and junk otherwise |
| LibPipe.PaveStep | lib/riffle.js:563 | a falsy object gives `null`, a truthy primitive throws, a plain object gives its property when that is truthy |
| LibPipe.Pave | lib/riffle.js:559-566 | the loop walks the dotted address, first part first |
| LibPipe.PaveAppend | lib/riffle.js:559-566 | paving a longer address continues from where the shorter ended |
| LibPipe.PaveNullStaysNull | lib/riffle.js:561-564 | once the walk reaches `null` it stays there |
| LibPipe.PaveThrowsOnPrimitive | lib/riffle.js:561-564 | `pave` throws exactly when some part is looked up in a truthy primitive |
| LibPipe.PaveOneName | lib/riffle.js:559-566 | a name without dots is one property of `vars` |
| LibPipe.Names | lib/riffle.js:570 | one name more than operators |
| LibPipe.LinkCmd | lib/riffle.js:574-582 | a link splices exactly when its operator is `>` |
| LibPipe.LinkCmdsOfAt | lib/riffle.js:573-583 | link i joins names i and i+1 with operator i |
| LibPipe.Paved | lib/riffle.js:573-583 | the links paved in order up to the first that throws |
| LibPipe.PavedStops | lib/riffle.js:573-583 | after a link fails to pave, later links are not paved |
| LibPipe.PavedPrefix | lib/riffle.js:573-583 | paving more links only adds commands at the end |
| LibPipe.LinkCmdIn | lib/riffle.js:575 | paving reaches only streams that `vars` holds |
| LibPipe.OperatorsAsWritten | lib/riffle.js:568-569 | as written, a successful check gives the non-empty operator list |
| LibPipe.Operators | lib/riffle.js:568-569 | as intended, a successful check gives the non-empty operator list |
| LibPipe.LinksOf | lib/riffle.js:567-583 | a pipeline fails the operator check exactly when it has no operator, else gives one link per operator |
| LibPipe.ExecStops | lib/riffle.js:573-583 | a link that throws ends the pipeline |
| LibPipe.PaveLink | lib/riffle.js:574-577 | paving one link computes `LinkCmd` |
| LibPipe.RunCmd | lib/riffle.js:578-581 | one link is `o.split([x, s])`, then `o.splice` for `>` |
| LibPipe.RunPavedPaveError | lib/riffle.js:574-583 | a link that fails to pave ends the pipeline with its error, after the links before it ran |
| LibPipe.RunPavedThrows | lib/riffle.js:578-581 | a link that throws ends the pipeline |
| LibPipe.RunLinkAt | lib/riffle.js:573-583 | link i paves and runs; a throw ends the pipeline as `RunPaved` says |
| LibPipe.RunLinks | lib/riffle.js:573-583 | the link loop computes `RunPaved` |
| LibPipe.RunPipeline | lib/riffle.js:567-583 | one pipeline computes `PipelineRun` |
| LibPipe.PipesStop | lib/riffle.js:567-584 | after a pipeline throws, later pipelines are not run |
| LibPipe.RunPipeAt | lib/riffle.js:567-584 | pipeline i extends the run to `PipesOf(i + 1)` |
| LibPipe.RunPipes | lib/riffle.js:567-584 | the pipeline loop computes `PipeAll` |
| LibPipe.PipeAll | lib/riffle.js:567-584 | the pipes keep every stream; `LibPipe.PipesStop` and `LibPipe.PipesKeepHealthy` |
| LibPipe.ExecKeepsHealthy | lib/riffle.js:573-583 | links run in turn keep the system invariant |
| LibPipe.PipesKeepHealthy | lib/riffle.js:567-584 | pipelines run in turn keep the system invariant |
| LibPipe.Pipe | lib/riffle.js:557-585 | `o.pipe`, with the intended operator check and `unInput`, changes the system as `PipeAll` says and keeps it valid; see Left out |
| LibPipe.NoOperatorsAsWritten | lib/riffle.js:568-569 | as written, a pipeline with no operator throws a TypeError instead of its message |
| LibPipe.PipelineWithoutOperators | lib/riffle.js:568-569 | as intended, a pipeline with no operator throws its message and leaves the system unchanged |
| LibPipe.PipeFirstWithoutOperators | lib/riffle.js:567-569 | a graph whose first pipeline has no operator throws before any link runs |
| LibPipe.ExecUnwiringOnly | lib/riffle.js:578-581 | links that only unwire register no listener |
| LibPipe.PipelineUnwiringOnly | lib/riffle.js:578-581 | a pipeline joined by `\|` alone registers no listener |

## Left out

- Timers, DOM events, `console` output, `noConflict` and the `Array.prototype.indexOf` polyfill are not modelled. Deferred turns are an explicit FIFO queue.
- `stream.func` / `stream.fun`, `o.valFactory` / `o.val`, `o.timer`, `o.log` and `_.listen` are not modelled. They are timing-bound or apply arbitrary foreign functions.
- Foreign JavaScript functions are tags. What they do is a parameter: whether each throws and what a foreign body outputs. Their arity (`func.length`) is a parameter of `LibJoin`.
- Values are duck-typed by the names of their truthy properties. Object identity is a handle.
- Regular expressions in `timePattern` are a parameter `test`, and `RegExp` compilation a parameter `compiles`. `TimePattern.SampleHistoryMatchesOnce` states the one concrete pattern directly.
- TimePattern.TimePatternNode.Spot: `test` is a pure function of the pattern and `seen`. `new RegExp(r)` keeps the `g` flag of a RegExp it is given, and `test` then carries `lastIndex` from one call to the next (test/riffleLib.js:325, 339); that state is not modelled.
- Synchronous chains of port hops carry a depth bound standing for the JavaScript stack limit. What happens when the stack overflows is not modelled.
- The port descriptors that `input` / `unInput` pass to their hooks (lib/riffle.js:223-240) are recorded as simple log events.
- Exact texts of TypeErrors raised by the engine are not modelled; a throw of the right kind is.
- `LibJoin` models only the default `saver` / `canInvoke` / `invokeWith`. Custom configurations are foreign functions.
- LibJoin.JoinStream.Invoke: records the vectors `func` is called with, not what the stream then outputs. For the default `func` (lib/riffle.js:310-312) that output is the first slot alone, because `outputAllFns` forwards one argument (lib/riffle.js:136-151, stated by `LibSpec.DefaultForwardsFirstArgument`).
- `Multi`: the node's own `input`, `onOutput` and `offOutput` delegate to ordinary stream operations and are not repeated.
- Promises, Multi, TimePattern, Lazy, Join and LibJoin are modelled as their closure state, each on its own. They are not wired into `Graph` / `Riffle`. Port deliveries to a join are its `Receive` methods. Promises keep their own queue of deferred turns (`World.pending`), and an adapter's invocation of an engine node is only a `NodeInvoked` log event (`Promises.DeliverOne`, `Promises.StepWorld`). A multi stream's routing is a `RouteInvoked` / `OutputInvoked` log event, and a lazy stream's replay a `Replayed` event. In the source all of these share one event loop with the engine. The order between a promise turn, a lazy attempt and an engine turn that this loop fixes is not modelled, and neither is what a routed or replayed invocation then does in the engine.
- `LibChain` and `LibPipe` run on the intended `unInput`. The as-written one is modelled and its consequences are shown under Findings.
- LibChain.Splice / LibChain.Split: the wiring a splice leaves is proved for chains of any length (`LibChain.SpliceLinksChain`). That a split undoes it (`LibChain.SplitUndoesSplice`) is proved only for two-element chains. In a longer chain a stream can occur twice, or be the source of two links, and the round trip is not stated for those chains.
- LibCore.Riffle.UnInput / LibCore.RunUnInput / LibCore.Riffle.IsInputOf / LibPipe.Pipe: the `Riffle` class runs the intended `unInput` (one listener position and one pairing per unbound port) and the intended operator check. As written, `s.input([a, b], 0); s.unInput(a, 0); s.unInput(b, 0)` throws (Findings row 2), `isInput` answers false after `s.input(a, 0); s.input(a, 1); s.unInput(a, 0)` (Findings row 3), and a pipeline without an operator throws a TypeError (Findings row 4). Those as-written behaviours are proved only by the Findings members, not by the class.
- StreamCore.Graph.Input / LibCore.Riffle.Input / LibCore.Riffle.UnInput: every stream-like argument must be a node of this graph or system (`StreamWiring.ArgInGraph`, `LibWiring.ArgIn`). The source binds any value that passes `isStream` and calls its `onOutput`. That includes a lazy chain, and in lib/riffle.js a stream of another system built through `stream._create` (lib/riffle.js:603). Registrations on such foreign sources, and `pairs`/`isInput` across systems, are not modelled.
- Multi.ToKey / Multi.MultiNode.Invoke: names inherited from `Object.prototype` are modelled as a failed lookup. `__proto__` is not among them: assigning `streams["__proto__"]` replaces the prototype of `streams`, which the model does not follow.
- `LibPipe.Pipe`: paving all links of a pipeline happens before any link runs. The source interleaves paving and running. Both give the same result, because paving reads only `vars`, which running does not change.
- LibPipe.Pipe / LibCore.Riffle.Input / LibCore.Riffle.UnInput / LibChain.Pair: ports are `nat`. The source takes any `portIdx || 0` (lib/riffle.js:200-202), so `s.input(a, -1)`, a non-integer port such as `s.input(a, 1.5)` or `'1'`, a `[stream, -1]` element of `o.splice` / `o.split`, and a pipe port written with a minus sign (`a > b:-1`, excluded from `LibPipe.Pipe` by its precondition `UnsignedPorts`) are not modelled. In JavaScript such an index is an ordinary property of `inputStreams`. `parseInt` of a signed port is modelled.
- `LibPipe.PaveStep`: `vars` is a tree of plain objects, streams and primitives. Inherited properties (`"toString" in {}`) and the methods of streams as paths are not modelled.
- `Lazy`: the collector's consumer only queues; it schedules no attempt (test/riffleLib.js:361-363). The model follows the code.
- `Lazy.LazyNode.Attempt`: the fresh stream built by an attempt is recorded as a log event, not created in a graph.
- Lazy.AttemptKeepsQueue: the replay is one step, and its consumers are tags that cannot call back into the lazy stream. In the source a consumer called synchronously during the replay may call `chain.invoke`; `inputs = []` (test/riffleLib.js:372-375) then wipes that push, and the attempt it schedules finds an empty queue. So "nothing queued is lost" holds only for consumers that do not re-enter the lazy stream.
- StreamCore.Graph.Input / StreamCore.Graph.Truncate: run the corrected truncation, which skips ports that hold nothing. The loop as written, which throws a TypeError on such a port (test/riffleLib.js:105, `_.each` tests only `=== null`), is StreamWiring.TruncateAsWritten; Findings row 1 shows the discrepancy.

## Findings

| source | as written | input that shows it | evidently intended | confidence | as-written member | corrected member |
|---|---|---|---|---|---|---|
| test/riffleLib.js:101-108 | the truncation loop visits every index from the argument count to `inputStreams.length` and calls `_.each(inputStreams[idx], …)`; an index deleted by an earlier truncation holds `undefined`, on which `_.each` throws a TypeError | `t.input(a, b); t.input(c); t.input(c)` on a fresh stream `t` | skip indices that hold nothing, so every port at or beyond the argument count ends unbound (`StreamWiring.TruncateRange`) | not executed | StreamWiring.TruncationHoleThrows | StreamWiring.TruncateRangePorts |
| lib/riffle.js:245-249 | `unInput` removes every copy of the port's listener with `removeItem`, but one `input` call gives all its sources the same listener | `s.input([a, b], 0); s.unInput(a, 0); s.unInput(b, 0)`: the last call finds no listener, throws "expecting function", and `b` keeps delivering to `s` | remove only the listener at the source's own position (`LibWiring.UnInputOne`) | not executed | LibWiring.SharedListenerUnInputThrows | LibWiring.SharedListenerUnInputIntended |
| lib/riffle.js:251-253 | `unInput` removes every pairing of the source's id with `removeItem`, though `pairs` holds one per port | `s.input(a, 0); s.input(a, 1); s.unInput(a, 0); s.isInput(a)` answers false while `a` still feeds port 1 | remove one pairing per unbound port, so `isInput` answers whether the source is on some port (`LibWiring.IsInputMeansBound`) | not executed | LibWiring.TwoPortsIsInputLost | LibWiring.TwoPortsIsInputIntended |
| lib/riffle.js:568-569 | `pipeline.match(/[\|>]/g)` is `null` when there is no operator, and reading `null.length` throws a TypeError before the intended check | `o.pipe(vars, "a b")` | throw "No operators found in pipe: a b" (`LibPipe.Operators`) | not executed | LibPipe.NoOperatorsAsWritten | LibPipe.PipelineWithoutOperators |
