# Layered state stack of Google-Benchmark-Plotter, in Dafny

This project models the layered state stack of the benchmark plotter
application. It also proves properties of that model.

The application keeps its screens ("states") on a stack. The stack has three parts:

- an ordered list of `{id, state}` entries, with index 0 at the bottom and the last entry on top;
- a FIFO queue of pending `Push(id)`, `Pop` and `Clear` changes;
- a factory registry that maps each `State_ID` to the state a push of that id builds.

`push`, `pop` and `clear` only enqueue. The entries change only when `applyChanges` drains the queue.
`forceInstantClear` is the one exception: it empties the stack at once.
The per-cycle operations `update`, `fixedUpdate`, `handleEvent` and `updateImGui` walk the entries from the top down.
The walk continues past every state that returns `true` (transparent) and stops right after the first state that returns `false` (opaque).

Modules, following the source files:

- `StateIds` (`state_ids.dfy`): the closed `State_ID` enumeration and `toString`.
- `State` (`state.dfy`): the base class's default callbacks and the two concrete states.
  A state's behaviour is data. For each operation it records the callback's boolean result and the stack requests the callback issues, in order.
- `StateStack` (`state_stack.dfy`): the stack value, the queued operations, change application, and dispatch.
  Change application is a functional reference (`Replay`, `Applied`) plus a loop method, `ApplyChanges`, proved equal to it.
  Dispatch is a functional reference (`Walk`, `Dispatched`) plus the top-down loop with early exit, `Dispatch`, proved equal to it.
- `StateRequests` (`state_requests.dfy`): the request forwarders every state inherits.
- `Scenarios` (`scenarios.dfy`): the FIFO examples, the application's own registration and start-up, and a state that requests a push from inside `update`.
- `Outcomes` (`outcomes.dfy`): the `Result` type.

The header leaves two misuses open, and the model chooses to report both as error values:

- a push needs an id saved earlier, and `createState` only "checks" that it was (BPlotter/src/States/StateStack.hpp:137-139, 203-204); applying a push of an id with no registered factory gives `Failure(UnregisteredState(id))`;
- a pop on an empty stack "leads to unpredictable behaviour" (BPlotter/src/States/StateStack.hpp:146); applying it gives `Failure(PopOnEmptyStack)`.

The header does not say what `top()` returns on an empty stack (BPlotter/src/States/StateStack.hpp:161-165). `Top` requires a non-empty stack.
`Empty` and `Top` are plain queries. The lemmas below state what they return after each kind of change.

The repository holds two near-identical copies of the component, in the namespaces `BPlotter` and `BenchmarkPlotter`. They are modelled once.

`Application.cpp` registers the `ExitApplicationState` class under both ids. Both classes leave every callback transparent, so the mix-up cannot be observed through behaviour (`State.MainAppOpenBehavesAsExit`).
`Scenarios.LaunchTopIsMainAppOpen` shows the one visible consequence. An entry is tagged with the id it was pushed under, so `top()` reports `MainAppOpen` even though the state built is an `ExitApplicationState`.

The header documents that the queue is applied at the beginning of each loop iteration.
The model keeps `applyChanges` as an explicit operation and does not tie it to a dispatch call.

## Model

| member | source | states |
|---|---|---|
| StateIds.Ordinal | BenchmarkPlotter/src/States/States.hpp:9-15 | each id's underlying value is its position in the declaration order None, MainAppOpen, ExitApplicationState |
| StateIds.EnumerationIsExact | BenchmarkPlotter/src/States/States.hpp:9-15 | there are exactly three ids, and the i-th declared id has ordinal i |
| StateIds.ToString | BenchmarkPlotter/src/States/States.hpp:24-33 | every id has a non-empty name, and the "Unknown State_ID" fallback is never returned for the closed enum |
| StateIds.ToStringInjective | BenchmarkPlotter/src/States/States.hpp:27-29 | distinct ids have distinct names |
| State.DefaultIsTransparent | BenchmarkPlotter/src/States/State.cpp:18-53 | the default handleEvent, updateImGui, fixedUpdate and update each return true and issue no stack request |
| State.MainAppOpenBehavesAsExit | BenchmarkPlotter/src/States/CustomStates/MainAppOpen.cpp:14-29 | MainAppOpen's overrides all return true like the inherited defaults of ExitApplicationState, so the two states react identically to every operation |
| StateStack.Empty | BPlotter/src/States/StateStack.hpp:155-159 | empty() is true exactly when a dispatch of any operation reaches no state (the update that starts at the top of the stack, StateStack.hpp:82-84, has nothing to start from) |
| StateStack.Top | BPlotter/src/States/StateStack.hpp:161-165 | requires a non-empty stack and names the state that every dispatch, of any operation, reaches first: the state at the top of the stack in the sense of StateStack.hpp:82-84 |
| StateStack.SaveState | BPlotter/src/States/StateStack.hpp:237-246 | registering builds nothing: entries and queue are unchanged; afterwards `id` maps to the new factory and every other registration is kept |
| StateStack.Push | BPlotter/src/States/StateStack.hpp:133-141 | push only appends one Push(id) change to the queue; entries and registry are untouched |
| StateStack.Pop | BPlotter/src/States/StateStack.hpp:143-148 | pop only appends one Pop change to the queue; entries and registry are untouched |
| StateStack.Clear | BPlotter/src/States/StateStack.hpp:150-153 | clear only appends one Clear change to the queue; entries and registry are untouched |
| StateStack.ForceInstantClear | BPlotter/src/States/StateStack.hpp:167-170 | the stack is empty at once, without a queued change; queue and registry are kept |
| StateStack.ApplyChange | BPlotter/src/States/StateStack.hpp:133-153 | a Push succeeds exactly when the id is registered, and then adds one top entry built by its factory with the layers below unchanged; a Pop succeeds exactly on a non-empty stack, and then removes exactly the top entry; a Clear always leaves no entries |
| StateStack.Applied | BPlotter/src/States/StateStack.hpp:208-214 | after the queued changes are applied, the queue is empty and the registry is unchanged; this succeeds exactly when the FIFO replay of the queue succeeds |
| StateStack.ApplyChanges | BPlotter/src/States/StateStack.hpp:208-214 | the loop that drains the queue front to back gives the same result as the FIFO reference, and an emptied queue on success |
| StateStack.ReplayAppend | BPlotter/src/States/StateStack.hpp:208-214 | FIFO: applying changes a followed by b equals applying a and then b to its result, and a failure in a stops the replay |
| StateStack.ClearResets | BPlotter/src/States/StateStack.hpp:150-153 | once the earlier changes succeed, a Clear forgets them, and the result depends only on the changes after the Clear |
| StateStack.ReplayPushes | BPlotter/src/States/StateStack.hpp:133-141 | a queue of registered pushes adds one entry per push, in queue order, on top of the existing entries |
| StateStack.PushAppliedLast | BPlotter/src/States/StateStack.hpp:133-141 | a push queued after others is applied last: it adds exactly one top entry, fails with UnregisteredState for an unknown id, and keeps an earlier failure |
| StateStack.PopAppliedLast | BPlotter/src/States/StateStack.hpp:143-148 | a pop queued after others removes exactly the top entry of the stack they produce, and fails with PopOnEmptyStack when that stack is empty |
| StateStack.QueuedChangesInvisible | BPlotter/src/States/StateStack.hpp:173-187 | queued push, pop and clear change neither empty() nor top() until the queue is applied |
| StateStack.PushThenApply | BPlotter/src/States/StateStack.hpp:133-141 | applying a lone registered push makes the stack one entry longer, puts that id on top, and leaves the layers below intact |
| StateStack.ClearThenApply | BPlotter/src/States/StateStack.hpp:150-159 | after a queued clear is applied, empty() is true |
| StateStack.ForceInstantClearKeepsQueue | BPlotter/src/States/StateStack.hpp:167-170 | changes pending at a forced clear are later applied to an empty stack |
| StateStack.Issue | BPlotter/src/States/StateStack.hpp:173-187 | a request made from inside a callback appends one change to the queue and leaves entries and registry alone |
| StateStack.IssueAll | BPlotter/src/States/StateStack.hpp:173-187 | issuing requests changes neither entries nor registry and adds exactly one queued change per request |
| StateStack.IssueAllQueuesInOrder | BPlotter/src/States/StateStack.hpp:173-187 | a callback's requests are queued in the order issued, each as its matching change, behind what was already queued |
| StateStack.Walk | BPlotter/src/States/StateStack.hpp:78-128 | dispatch reaches the entries from the top down, each at most once and at consecutive indices; every reached state except the last is transparent; it stops early only right after an opaque state |
| StateStack.TraversalUnique | BPlotter/src/States/StateStack.hpp:78-128 | any index sequence with the stop-at-first-opaque shape is exactly the traversal |
| StateStack.FirstOpaqueBoundsWalk | BPlotter/src/States/StateStack.hpp:78-128 | if the state at index k is the topmost opaque one, exactly the entries k..top are reached and nothing below k |
| StateStack.AllTransparentReachesBottom | BPlotter/src/States/StateStack.hpp:82-84 | when every state is transparent, dispatch reaches all entries |
| StateStack.OpaqueTopShortCircuits | BPlotter/src/States/StateStack.hpp:82-84 | an opaque top state is the only one reached |
| StateStack.Dispatched | BPlotter/src/States/StateStack.hpp:78-128 | dispatch never changes the entries or the registry; the old queue stays as prefix and the changes appended are exactly those of the requests of the reached states, in visit order |
| StateStack.Dispatch | BPlotter/src/States/StateStack.hpp:78-128 | the loop from the top with early exit on false reaches exactly the reference traversal and queues exactly the reference requests |
| StateRequests.RequestPush | BenchmarkPlotter/src/States/State.cpp:55-58 | requestPush(id) is the stack's push: one queued Push(id) and no immediate change to the entries |
| StateRequests.RequestPop | BenchmarkPlotter/src/States/State.cpp:60-63 | requestPop is the stack's queued pop |
| StateRequests.RequestClear | BenchmarkPlotter/src/States/State.cpp:65-68 | requestClear is the stack's queued clear |
| StateRequests.RequestStateOnTop | BenchmarkPlotter/src/States/State.cpp:70-73 | on a non-empty stack, requestStateOnTop returns the id of the top entry |
| StateRequests.IssueIsForwarding | BenchmarkPlotter/src/States/State.cpp:55-68 | a request a callback issues during dispatch has the same effect as the matching forwarder |
| Scenarios.FifoExample | BPlotter/src/States/StateStack.hpp:208-214 | starting empty, the queue Push x, Push y, Pop, Push z yields exactly [x, z] |
| Scenarios.PushPushPop | BPlotter/src/States/StateStack.hpp:208-214 | Push a, Push b, Pop leaves the earlier entries with a on top |
| Scenarios.ReRegistrationUsesLatest | BPlotter/src/States/StateStack.hpp:237-246 | saving an id twice keeps only the second factory, and a later push builds from it |
| Scenarios.SetupFlowStates | BenchmarkPlotter/src/Application.cpp:51-55 | the application registers both ids, and both build the ExitApplicationState class |
| Scenarios.Launched | BenchmarkPlotter/src/Application.cpp:57-64 | the freshly constructed application has no entries and exactly one queued Push(MainAppOpen) |
| Scenarios.LaunchTopIsMainAppOpen | BenchmarkPlotter/src/Application.cpp:51-64 | after the first application of the queue there is one entry; top() is MainAppOpen although its state is an ExitApplicationState, so the driver's exit test does not fire |
| Scenarios.RequestFromUpdate | BPlotter/src/States/StateStack.hpp:173-187 | a state that requests a push of the exit state from inside update gets that push applied at the next drain: two entries, exit on top |

## Left out

- Drawing: `State::draw` returns void (BenchmarkPlotter/src/States/State.cpp:14-16), so draw has no transparency result. The header's description of draw transparency (BPlotter/src/States/StateStack.hpp:108-116) has nothing in the code behind it. Draw traversal is not modelled.
- Callback arguments: `deltaTime` and the input event are not modelled. Each state's result and requests are fixed per operation, which is all the concrete states do.
- The bodies of `applyChanges`, `forceInstantClear`, `createState` and the dispatch loops are modelled from their documentation in BPlotter/src/States/StateStack.hpp:78-128, 167-170 and 198-214. Behaviour the header does not document is not captured: for example, whether `forceInstantClear` also drops the queue, or where `applyChanges` is called.
- ForceInstantClear: the header says only that it removes all states without using the queue. The model keeps the pending queue; `ForceInstantClearKeepsQueue` states the consequence.
- Pop and Clear changes carry the value-initialised id `None`. Applying them never reads it.
- ApplyChanges: a pop on an empty stack is unpredictable behaviour in the source (BPlotter/src/States/StateStack.hpp:146), and what `createState` does with an unregistered id is not documented; the model reports either as an error and keeps no partly applied stack.
- StateIds.ToString: the `StateId` datatype is closed, so the `default:` branch of `toString` and its `spdlog::warn` (BenchmarkPlotter/src/States/States.hpp:30-32), which C++ can reach through a cast of an out-of-range value, are not modelled.
- Factory closures are stored values. Capture of constructor arguments by reference, `unique_ptr` ownership and object lifetimes are not modelled.
- The application driver (window, ImGui and SFML set-up, styling, log sinks, event polling) and its float-based fixed-timestep accumulator are third-party I/O and time arithmetic. They are left out.
- The driver's exit rule (stop when `top()` is ExitApplicationState) appears only as a usage lemma. Where the driver calls `applyChanges` within a loop iteration is not modelled.
- The mutex-guarded ImGui log buffer is a concurrency concern outside the stack. It is left out.
- Resources.hpp and pch.hpp hold asset-manager and header plumbing with no logic. They are left out.
