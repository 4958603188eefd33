# Veridian, modelled and proved in Dafny

Veridian is a small kernel that drives subprocess "bricks" over line-delimited JSON-RPC. This
project models the parts of it whose correctness does not show in any one function, and proves what
they promise over every input, every run and every interleaving. `dafny verify dfyconfig.toml`
checks the whole of it.

## How the model is laid out

| area | files | form |
|---|---|---|
| IPC protocol | `JsonRpc`, `EndpointModel`, `EndpointInvariant`, `LinkInvariant`, `Network`, `Delivery`, `Drain`, `Settlement`, `Endpoint` | a step system over values, an inductive invariant, and the class `Endpoint` whose methods are shown to be those steps |
| capabilities and the kernel | `Capabilities`, `KernelModel`, `KernelStart`, `KernelSafety`, `KernelLost`, `KernelHolds`, `KernelOwners`, `KernelBindings`, `KernelProcesses`, `KernelStops`, `KernelFailures`, `KernelObject`, `Registry` | functions for the pure order and policy, kernel steps as functions, the classes `Kernel` and `PluginRegistry` |
| supervision | `Supervision`, `Teardown` | the limiter and the retry sequence as functions, the classes `Supervisor` and `BrickProcess` |
| repository index | `Walk`, `ChunkIndex`, `FullIndex` | the budgeted loops as methods, the class `ContextRepoMap` |
| agent loop and history | `AgentRun`, `Conversation` | the loop as a method, the log as the class `ConversationLog` |
| planner, versions, loader | `Permuting`, `Planner`, `Versions`, `Loader` | the class `PlanningTreeSearch`, functions, and methods for the loops |

An endpoint writes to a list that only grows, and its peer has a position in that list: a FIFO
channel. Each step changes one endpoint, so that every interleaving of calls, handlers, timeouts,
cancellations, scheduled sends and closures is a run. Handlers, callers, timeouts and the peer's
stream are free. The same holds elsewhere: clocks, the container engine, the model and the
verification of an objective, the disk, and whether a process comes up are parameters over which
every statement is quantified. A class and the functions that specify it are tied by the `ensures`
clauses of its methods; the theorems are about the functions.

## What turned out otherwise than one might think

- Withholding a capability does not shut it off. With `contract:*` granted and held,
  withholding `contract:memory` still lets `memory.search` through (`KernelSafety.WithholdingFails`).
  `KernelSafety.WithholdingExact` says when it does shut it off, for every policy and every future.
- A rebind that fails leaves the kernel's own tables as they were, but not always the rest. The clean-up
  of src/veridian/kernel/lifecycle.py:138 covers two exception types: with any other the new process
  runs on, unknown to the kernel, with its request handler installed. And when the new brick exits by
  itself while it is initialised, its supervisor, which is in no list and was never stopped, handles
  that exit like a crash: it may bring the brick up later and bind the contract to it, beside the brick
  that serves it (`KernelProcesses.FailedRebindTakesOver`). `KernelProcesses.BoundExact` says which runs
  keep the tables in step with the live processes.
- A capability withheld later does not reach such a lost supervisor (`KernelLost.WithholdingMissesLost`).
  And a supervisor lost in a failed start shares its list with the kernel
  (src/veridian/kernel/runtime.py:87-94): a later grant to its name is appended to that list
  (src/veridian/kernel/runtime.py:273) and opens to it what was shut (`KernelLost.SharedExample`).
  `KernelLost.LostWithholding` says exactly what stays shut to it, and
  `KernelSafety.ForwardedWithinPolicy` that policy still binds it.
- A start that fails part-way leaves the bricks that had come up running, and neither `stop` nor
  `restrict_capabilities` reaches them until a start succeeds (`KernelFailures.FailedStartStays`). The
  session does try again on the same kernel (src/veridian/cli/interactive.py:316-322). From then on they
  are reached, but each of their contracts has two supervisors (`KernelFailures.OneEachExact`), of
  which a rebind replaces the older (`KernelFailures.RebindLeavesYounger`). What was withheld between
  the two starts stays open to the older bricks until the next restriction
  (`KernelFailures.RetriedStart`, `KernelSafety.StartWithin`, `KernelSafety.RestrictRenews`).
- A line that is a JSON-RPC 2.0 object may still end the read loop, since dispatching it raises: an
  error without a code for a call that waits, a notification whose `params` is no object, or an id that
  cannot be a key (src/veridian/plugin_runtime/ipc.py:319, 331 and 337). Good lines behind it are never
  read (`EndpointClass.Endpoint.ReadLoop`).
- If the task that runs a brick's teardown list is cancelled, the rest of the list is gone, since the list
  is emptied first (src/veridian/plugin_runtime/process.py:229; `Teardown.BrickProcess.RunPostRun`).
- A turn appended while the model makes a compaction's summary is in no summary and in no later view
  (`Conversation.MeanwhileUnseen`).
- A stop is the end of it only when no supervisor that the kernel lost has an exit to handle, and nothing
  runs beside the listed supervisors' latest processes (`KernelStops.StopForGood`).
- With `max_branches` 0 the tree-search planner plans the first clause of a goal only, and a negative
  one makes every plan an error (`Planner.NewPlanCovers`).
- Restart delays are non-decreasing just when `backoff_base` is not negative
  (`Supervision.BackoffPatient`).
- A `~=` clause with a one-component target is an error only for versions that are not below it
  (`Versions.CompatibleRelease`): src/veridian/plugin_runtime/versions.py:76-81 looks at the order
  first.
- docs/specifications/protocol.md:147 says that a delta for an unknown or finished request is dropped
  with an event. The code hands it to the notification handler
  (src/veridian/plugin_runtime/ipc.py:336-347), and the model follows the code.
- A second compaction sums up only what follows the first one's summary
  (pre-installed/bricks/orchestrator/brick.py:613-614), so nothing is claimed about earlier summaries
  staying in view.

## Model

| member | source | states |
|---|---|---|
| JsonRpc.ClassifyRender | src/veridian/plugin_runtime/ipc.py:289-347 | a message one endpoint writes is taken by its peer's dispatcher for that very message, and request, response, cancel, delta and plain notification never pass for one another, just when a delta brings no other `request_id` and a notification neither is named `$/cancel` nor has one; a delta is read as one of its request, or of the one its own `request_id` names; and none of them makes the dispatcher raise |
| JsonRpc.ClassifyExact | src/veridian/plugin_runtime/ipc.py:289-347 | which decoded object is which message: a result or an error makes a response of whatever has an id, even if it names a method; a method with an id is a request, and one without a cancel, a delta or a plain notification |
| JsonRpc.RaisesExact | src/veridian/plugin_runtime/ipc.py:285-338 | with an id that cannot be a key dispatching raises for every response and every method; with one that can, only for an awaited response whose error has no code; and without an id only for a method whose parameters cannot be looked at |
| Network.Correlation | src/veridian/plugin_runtime/ipc.py:175-195 | in every reachable state of any network of linked endpoints, a call that returned has the outcome of the peer's handler run on exactly that call's method and params; only `brick_unavailable` from an ended stream has no run behind it (section 5 of the JSON-RPC 2.0 Specification) |
| Network.FutureAnswered | src/veridian/plugin_runtime/ipc.py:314-321 | whatever settles a future is the peer's answer to that request, or `brick_unavailable` at a closed endpoint |
| Delivery.AnswersArrive | src/veridian/plugin_runtime/ipc.py:314-321 | no answer is lost: in every reachable state with the links up and everything sent read, a request whose handler ended with an answer holds that answer unless its caller gave it up, and a call still waiting can return it |
| Delivery.DeltasArrive | src/veridian/plugin_runtime/ipc.py:197-228 | nor is a delta: in such a state a stream that was neither cancelled nor timed out, and whose handler ended with a value, has got exactly what the handler emitted, and has that value or can take it |
| Delivery.KeepDelivering | src/veridian/plugin_runtime/ipc.py:289-409 | each step of the network keeps that a pending future is registered with no answer read, and that a finished handler's answer was sent |
| Network.AtMostOnce | src/veridian/plugin_runtime/ipc.py:233-249 | no endpoint ever writes two responses to one request, two `$/cancel` for one request, or two requests under one id |
| Network.StreamDeltas | src/veridian/plugin_runtime/ipc.py:197-228 | what a consumer takes is always an in-order prefix of what the peer's handler emitted for that request, and all of it once the stream ended with a value, which is then that handler's |
| Network.CancelCascade | src/veridian/plugin_runtime/ipc.py:182-195 | once a request is abandoned, or its `$/cancel` arrived, at quiescence no request in its chain of calls made by handlers is still served, at any depth |
| Network.NotServed | src/veridian/plugin_runtime/ipc.py:327-334 | at quiescence a call nobody awaits any more has no live task at the peer |
| Network.KeepNetInv | src/veridian/plugin_runtime/ipc.py:109-421 | each legal step of any endpoint keeps the invariant over all endpoints, links and ownership of calls by tasks |
| Drain.DrainDecreases | src/veridian/plugin_runtime/ipc.py:356-378 | each delivery, scheduled send, abandoned call or unwinding of a cancelled task lowers a measure that is never negative |
| Drain.DrainEnabled | src/veridian/plugin_runtime/ipc.py:368-372 | while the network is not quiescent one of those steps is possible: cancellation cannot get stuck |
| Drain.DrainBounded | src/veridian/plugin_runtime/ipc.py:368-372 | every sequence of such steps is at most as long as the measure |
| Drain.DrainToEnd | src/veridian/plugin_runtime/ipc.py:368-372 | from every state with its links up some sequence of such steps reaches quiescence |
| Drain.CancelCompletes | src/veridian/kernel/runtime.py:301-317 | so from any reachable state the draining ends, and then nothing in the abandoned chain is served |
| LinkInvariant.KeepServing | src/veridian/plugin_runtime/ipc.py:356-383 | a serving endpoint keeps, step by step: tasks stay listed until they end, what was emitted is what stands on the wire, one answer at most, and no delta behind the answer |
| LinkInvariant.OriginStep | src/veridian/plugin_runtime/ipc.py:314-347 | a step of the originator keeps the agreement of the two ends: what is served, what was cancelled, what answers futures, what reached the streams |
| LinkInvariant.ServerStep | src/veridian/plugin_runtime/ipc.py:295-309 | a step of the server keeps it too |
| LinkInvariant.AnsweredIsComplete | src/veridian/plugin_runtime/ipc.py:380-383 | once a request's answer has been read, all its deltas have been |
| EndpointInvariant.KeepLocal | src/veridian/plugin_runtime/ipc.py:171-228 | every enabled step keeps an endpoint's own invariant: tables, futures, streams, ids, and one `$/cancel` per request that was given up |
| EndpointInvariant.SendsStep | src/veridian/plugin_runtime/ipc.py:241-255 | a step neither loses, doubles nor makes up a message: what is written or scheduled grows by just the one the step hands over |
| Settlement.IdsNeverReused | src/veridian/plugin_runtime/ipc.py:171-173 | over any steps a request keeps its id, method and params, and later requests get greater ids |
| Settlement.SettledOnce | src/veridian/plugin_runtime/ipc.py:314-321 | a future that left the pending state never changes again |
| Settlement.EndedOnce | src/veridian/plugin_runtime/ipc.py:69-96 | the first ending of a call or a stream is its last: over any steps a stream keeps the result it has and an ended call its end, whatever cancel, timeout, closure or late answer follows |
| Settlement.ResultReasoned | src/veridian/plugin_runtime/ipc.py:214-225 | a stream's result is what its future holds, or a timeout, a cancellation or `brick_unavailable` that did happen to it |
| Settlement.TablesCleared | src/veridian/plugin_runtime/ipc.py:182-226 | over any steps a call that ended and a stream that settled are in no table, and whatever has its end or its result waits for no answer; only a call that could not be sent stays registered |
| Settlement.LateAnswer | src/veridian/plugin_runtime/ipc.py:314-317 | a late, duplicate or unknown response changes nothing but the read position |
| Settlement.RequestArrives | src/veridian/plugin_runtime/ipc.py:295-303 | a request that arrives gets a listed task that can start |
| Settlement.RequestServed | src/veridian/plugin_runtime/ipc.py:356-383 | once started it can end with any outcome, which is the one thing written, and after its done callback the request is listed no more |
| Settlement.BrokenForGood | src/veridian/plugin_runtime/ipc.py:251-255 | a transport that broke carries nothing ever after |
| Settlement.EndSettles | src/veridian/plugin_runtime/ipc.py:411-421 | when the stream ends or the endpoint is closed, every registered call and stream is settled, with `brick_unavailable` unless it already was, and leaves its table |
| Settlement.DispatchAllRuns | src/veridian/plugin_runtime/ipc.py:277-278 | what the read loop does with a list of messages is one dispatch step for each, in order |
| Settlement.CutUnique | src/veridian/plugin_runtime/ipc.py:259-279 | there is one place at which the loop can stop: behind the first run of bad lines or the first line on which dispatching raises, whichever comes first, or at the end |
| Settlement.StopsExact | src/veridian/plugin_runtime/ipc.py:259-283 | the loop stops behind a line just when it ends a run of at least `malformed_threshold` bad ones, and of one at least, or when dispatching it raises, and in that case the line has no effect |
| EndpointClass.ClientApply | src/veridian/plugin_runtime/ipc.py:182-226 | the update the call and stream methods make is the protocol step of that name |
| EndpointClass.ServerApply | src/veridian/plugin_runtime/ipc.py:356-383 | likewise for the stages of a handler task |
| EndpointClass.CallApply | src/veridian/plugin_runtime/ipc.py:178-181 | likewise for registering and writing a call |
| EndpointClass.StreamApply | src/veridian/plugin_runtime/ipc.py:204-212 | likewise for opening a stream |
| EndpointClass.FlushApply | src/veridian/plugin_runtime/ipc.py:241-255 | likewise for a scheduled send getting its turn |
| EndpointClass.ReadEndApply | src/veridian/plugin_runtime/ipc.py:281-283 | likewise for the end of the peer's stream |
| EndpointClass.AcloseApply | src/veridian/plugin_runtime/ipc.py:142-153 | likewise for closing |
| Settlement.DispatchApply | src/veridian/plugin_runtime/ipc.py:289-347 | likewise for dispatching a message |
| EndpointClass.Endpoint.Call | src/veridian/plugin_runtime/ipc.py:175-181 | registers the request under the next id and writes it; a failed write leaves the registration behind |
| EndpointClass.Endpoint.EndCall | src/veridian/plugin_runtime/ipc.py:182-195 | return, timeout and cancellation each settle the record as the step says, drop the table entry, and schedule `$/cancel` in the last two cases only |
| EndpointClass.Endpoint.CallStream | src/veridian/plugin_runtime/ipc.py:197-212 | registers the request in both tables and writes it |
| EndpointClass.Endpoint.SettleStream | src/veridian/plugin_runtime/ipc.py:214-225 | the stream finishes with the future's outcome or a timeout and leaves both tables |
| EndpointClass.Endpoint.CancelStreamCall | src/veridian/plugin_runtime/ipc.py:69-83 | sends `$/cancel` once and finishes the stream locally |
| EndpointClass.Endpoint.NextDelta | src/veridian/plugin_runtime/ipc.py:98-103 | hands the consumer the oldest delta, or the end mark |
| EndpointClass.Endpoint.Handle | src/veridian/plugin_runtime/ipc.py:302-309 | the stages of a handler task, its answer, and its leaving the table |
| EndpointClass.Endpoint.ResolveResponse | src/veridian/plugin_runtime/ipc.py:314-321 | settles a registered pending future and nothing else |
| EndpointClass.Endpoint.HandleNotification | src/veridian/plugin_runtime/ipc.py:323-347 | a `$/cancel` marks a live task, a delta of a registered stream is queued, everything else goes to the notification handler |
| EndpointClass.Endpoint.DispatchJson | src/veridian/plugin_runtime/ipc.py:289-312 | one parsed line has the effect of the message it is, or dispatching raises and nothing changes: just for an id that is no key, a notification whose `params` is no object, and an error without a code for a call that waits |
| EndpointClass.Endpoint.FailAll | src/veridian/plugin_runtime/ipc.py:411-421 | the two loops settle every entry of the two tables and empty them |
| EndpointClass.Endpoint.ReadLoop | src/veridian/plugin_runtime/ipc.py:259-283 | dispatches exactly the good lines in front of the first run of `malformed_threshold` bad ones or the first on which dispatching raises, then settles everything left; both tables are empty |
| EndpointClass.Endpoint.CloseNow | src/veridian/plugin_runtime/ipc.py:142-153 | cancels every handler and scheduled send and settles everything left |
| Capabilities.CoversOrder | src/veridian/security/capabilities.py:25-35 | `covers` is a partial order: reflexive, transitive, antisymmetric |
| Capabilities.CoversExact | src/veridian/security/capabilities.py:25-35 | of two lists of segments the first covers the second just when it is no longer and each of its segments is a star or the other's |
| Capabilities.SegmentsJoin | src/veridian/security/capabilities.py:21-22 | splitting undoes joining, for every list of segments without a colon |
| Capabilities.JoinSegments | src/veridian/security/capabilities.py:21-22 | joining undoes splitting, for every capability string |
| Capabilities.MayCallExact | src/veridian/security/permissions.py:30-34 | the two tests of `require_contract` pass just when some held capability covers the method's own |
| Capabilities.EffectiveCapabilities | src/veridian/security/policy.py:29-36 | the loop keeps exactly the requested capabilities that the grants for everybody or those for the brick cover and the denies, for everybody or for the brick, do not |
| Capabilities.AllowsExact | src/veridian/security/policy.py:23-36 | policy allows a capability just when an element of one of the two grant lists covers it and no element of either deny list does |
| Capabilities.ShareCallDecided | src/veridian/security/capabilities.py:25-39 | whether two capability strings authorize a call in common can be read off their segments |
| KernelSafety.KeepSafe | src/veridian/kernel/runtime.py:79-277 | a start, whole or failed, first or repeated, a restrict, grant, rebind, restart and stop each keep that policy allows whatever any supervisor passes on, and, while the kernel is started, that nothing withheld covers what the listed ones do, but for those that were up before the start that succeeded and have been given no list since |
| KernelSafety.EffectiveWithinPolicy | src/veridian/kernel/runtime.py:238-277 | so in every run whatever a started kernel's brick holds is covered by a grant and by no deny, and by no withheld capability either unless it was up before that start and has been given no list since; what the kernel keeps for its name never is |
| KernelSafety.StartWithin | src/veridian/kernel/runtime.py:79-98 | a start leaves nothing withheld with any listed brick if and only if none that an earlier start left in the list holds anything withheld |
| KernelSafety.RestrictRenews | src/veridian/kernel/runtime.py:245-263 | while the kernel is started a restriction leaves nothing withheld with any listed brick |
| KernelHolds.HoldsEntitlement | src/veridian/kernel/runtime.py:238-277 | and nothing is kept from it: where bindings of one brick agree on its manifest, in every run a started brick, unless it was up before that start and has been given no list since, holds each capability the manifest asks for that policy allows and nothing withheld covers, and passes the check for every call it covers |
| KernelHolds.StartHolds | src/veridian/kernel/runtime.py:79-98 | a start leaves every listed brick with all it is entitled to if and only if those that earlier starts left in the list have it |
| KernelHolds.KeepEntitled | src/veridian/kernel/runtime.py:79-277 | each kernel step keeps that |
| KernelSafety.ForwardedWithinPolicy | src/veridian/kernel/runtime.py:286-293 | so in every run, started or not, every contract call that is forwarded for a listed brick or a lost one is covered by a grant for everybody or for its caller, through a held capability that no deny for everybody or for the caller covers |
| KernelSafety.Withholding | src/veridian/kernel/runtime.py:245-263 | if every grant that shares a call with a withheld capability is covered by it, no call that it covers passes for a listed brick, in any run, unless the brick was up before the start that succeeded and has been given no list since |
| KernelSafety.WithholdingFails | src/veridian/kernel/runtime.py:238-243 | without that hypothesis it fails: a run in which a withheld capability's call passes |
| KernelSafety.WithholdingExact | src/veridian/kernel/runtime.py:238-277 | a capability is shut to a running brick now and in everything that can follow if and only if it is shut now and each grant that shares a call with it is covered by a deny or by something withheld; but for a brick that was up before the start that succeeded the latter alone is enough |
| KernelSafety.WithheldDecided | src/veridian/security/permissions.py:30-34 | a capability's calls are shut to a list of capabilities just when none of them shares a call with it |
| KernelLost.LostUnreached | src/veridian/kernel/runtime.py:245-277 | the list of a lost supervisor never loses anything, and does not change at all unless the kernel shares it |
| KernelLost.LostGranted | src/veridian/kernel/runtime.py:265-277 | whatever it has got since it was lost was granted to its name by `host.permission.request` in a state of the run in which that was allowed and the list was shared |
| KernelLost.LostWithinPolicy | src/veridian/kernel/runtime.py:87-97 | whatever a supervisor passed on when it was lost was grantable in the very state whose step lost it, unless it was up before the start that succeeded and given no list since; and it is all it ever passes on unless its list is shared |
| KernelLost.LostWithholding | src/veridian/kernel/runtime.py:245-277 | a capability is shut to a lost brick in everything that can follow if and only if nothing it holds shares a call with it and, if the kernel shares its list and a brick of its name lives or can still come up, every grant of its policy that shares one is denied |
| KernelLost.SharedExample | src/veridian/kernel/runtime.py:273 | a run in which a brick left by a failed start is granted through the shared list what was shut to it, although the kernel is not started |
| KernelLost.WithholdingMissesLost | src/veridian/kernel/runtime.py:257-263 | a run in which what is withheld is shut to the listed brick and open to the one a broken-off rebind left running |
| KernelBindings.BindingAgreement | src/veridian/kernel/runtime.py:79-164 | in every started state of every run each active contract has a supervisor in the list, the first of which carries its current binding, and every supervisor is of an active contract; just those contracts resolve, each to the latest process of one of its supervisors, listed or lost, and, when no contract has two in the list, to that of its own or to one that a lost supervisor of it brought up; handles are those of live processes; and each live process is served by exactly one supervisor, listed or lost |
| KernelBindings.KeepAgree | src/veridian/kernel/runtime.py:116-154 | each kernel step keeps that agreement |
| KernelProcesses.TidyExact | src/veridian/kernel/lifecycle.py:138-140 | only the processes of the handles at hand are alive just when no supervisor serves any other |
| KernelProcesses.BoundExact | src/veridian/kernel/lifecycle.py:111-222 | over a run every contract resolves to its supervisor's latest process and only the processes of the handles at hand are alive, in every started state, if and only if no start succeeded over something an earlier one left, no spawn was broken off in a started kernel and no brick came up under a lost supervisor |
| KernelProcesses.FailedRebindTakesOver | src/veridian/kernel/lifecycle.py:180-222 | a run in which the brick of a failed rebind comes up later and takes the contract over from the brick that serves it |
| KernelProcesses.RestartExits | src/veridian/kernel/lifecycle.py:180-222 | handling an exit takes one off those to handle and adds one when the new process exits at once; only a spawn that comes up gives a handle, and only that or one broken off a process |
| KernelProcesses.FailedRebindLeaves | src/veridian/kernel/runtime.py:126-141 | what a rebind leaves whose brick does not come up: nothing, a supervisor with an exit to handle, or one with a process and no handle |
| KernelStops.StopsLatest | src/veridian/kernel/runtime.py:156-164 | a stop of a started kernel stops the latest process of each listed supervisor and no other process, and no contract resolves after it |
| KernelStops.StopStops | src/veridian/kernel/lifecycle.py:226-238 | in any run, a process that a stop stopped runs in no later state |
| KernelStops.StopLeavesNothing | src/veridian/kernel/runtime.py:156-164 | in the runs in which nothing was left behind nothing at all runs after a stop |
| KernelStops.StopForGood | src/veridian/kernel/lifecycle.py:180-222 | after a stop nothing ever runs and no contract ever resolves again if and only if every running process was the latest of a listed supervisor and no lost supervisor that was not stopped has an exit to handle |
| KernelStops.RebindStops | src/veridian/kernel/runtime.py:141-143 | a rebind that comes up stops the old supervisor's latest process for good, and in no later state does the old supervisor serve a process that it did not serve before |
| KernelFailures.FailedStartStays | src/veridian/kernel/runtime.py:79-98 | until a start succeeds the bricks that a failed one had brought up stay in the list and run on until they exit by themselves, and only grants change what they may call, whatever else is called, `stop` and `restrict_capabilities` included |
| KernelFailures.StartFinds | src/veridian/kernel/runtime.py:79-98 | the start that succeeds then keeps them in front of its own in the list, with the lists they had |
| KernelFailures.OneEachExact | src/veridian/kernel/runtime.py:79-98 | in a started state of any run no contract has two listed supervisors if and only if every start of the run that failed has failed at its first brick |
| KernelFailures.NothingStale | src/veridian/kernel/runtime.py:79-98 | and then no started kernel has a brick that was up before the start that succeeded |
| KernelFailures.RebindLeavesYounger | src/veridian/kernel/runtime.py:126-148 | where a contract has two, a rebind that comes up stops and replaces the older; the younger stays and runs on, and the contract resolves to the new one |
| KernelFailures.RetriedStart | src/veridian/cli/interactive.py:316-322 | a run in which a start is retried after a failed one and what was withheld in between is still open to a brick in the list |
| KernelStart.StartOrderExact | src/veridian/kernel/runtime.py:82-85 | the order of a start is the active bindings, sorted by their keys |
| KernelStart.OrchestratorLast | src/veridian/kernel/runtime.py:40-41 | when an orchestrator is brought up every other active contract already resolves, whatever was called before |
| KernelBindings.ConfigMerged | src/veridian/kernel/runtime.py:132-134 | a binding's config is the left-to-right merge of the rebinds that came up into the config it began with |
| KernelBindings.LastSettingWins | src/veridian/kernel/runtime.py:132-134 | in that merge the last rebind that sets a key decides its value |
| KernelClass.Kernel.ComputeEffective | src/veridian/kernel/runtime.py:238-243 | the manifest's capabilities that policy allows and nothing withheld covers |
| KernelClass.Kernel.Start | src/veridian/kernel/runtime.py:79-103 | brings the active bindings up one after the other in that order, each spawn free to fail and then ending the start where it is, and keeps what an earlier start had left in the list; on a started kernel it changes nothing |
| KernelClass.Kernel.RestrictCapabilities | src/veridian/kernel/runtime.py:245-263 | every known brick's list is recomputed from the active manifests under the new restriction and handed to its supervisors |
| KernelClass.Kernel.GrantDynamic | src/veridian/kernel/runtime.py:265-277 | grants just what policy allows and nothing withheld covers, and adds it once, to the listed supervisors of the name and to a lost one that shares the list |
| KernelClass.Kernel.Rebind | src/veridian/kernel/runtime.py:116-154 | the new brick is up before the old one is stopped; however the new one's start fails, the kernel's own tables stay as they were, and what is left of it goes to a supervisor outside the list |
| KernelClass.Kernel.Restart | src/veridian/kernel/lifecycle.py:180-222 | the exit of any process a supervisor serves, or one still due from a failed spawn: a successor takes its place in the registry, or the supervisor is left without a handle, with or without a process; a stopped one does nothing |
| KernelClass.Kernel.LostRestart | src/veridian/kernel/lifecycle.py:180-222 | likewise for a supervisor outside the kernel's list |
| KernelClass.Kernel.Stop | src/veridian/kernel/runtime.py:156-164 | stops the latest process of each listed supervisor and unbinds everything, or does nothing when not started |
| KernelClass.Kernel.ForwardContractCall | src/veridian/kernel/runtime.py:279-299 | denied just when no held capability covers the call, and otherwise sent to the process the registry resolves |
| Registry.CrossCheck | src/veridian/plugin_runtime/registry.py:42-60 | one problem, in manifest order, for each declared contract that is omitted or lacks methods, with just the missing methods; none just when the brick is honest |
| Registry.AdmissibleExact | src/veridian/plugin_runtime/registry.py:63-85 | the three checks pass just when the environment is ready or not needed, a brick with unrestricted egress serves none of the eight content contracts, and the brick reports every contract and method its manifest declares |
| Registry.PluginRegistry.Bind | src/veridian/plugin_runtime/registry.py:96-106 | binds just the handles that declare the contract and pass those checks, each said in full, and otherwise leaves both tables as they were |
| Registry.PluginRegistry.Resolve | src/veridian/plugin_runtime/registry.py:108-109 | a contract resolves to the handle bound to it, which declares it and passed the checks |
| Supervision.BackoffFor | src/veridian/kernel/lifecycle.py:51-52 | no delay exceeds the cap |
| Supervision.BackoffDoubles | src/veridian/kernel/lifecycle.py:51-52 | the first delay is the base and each next one twice the last, as far as the cap goes |
| Supervision.BackoffPatient | src/veridian/kernel/lifecycle.py:51-52 | delays never shrink from attempt to attempt if and only if the base is not negative |
| Supervision.Remembered | src/veridian/kernel/lifecycle.py:195-206 | the pruned list shows every later window just as the full history of restarts does |
| Supervision.DecisionExact | src/veridian/kernel/lifecycle.py:194-206 | a crash is restarted just when fewer than `max_restarts` restarts, over the whole history, lie in the window; the attempt number is in 1..`max_restarts` |
| Supervision.RestartsSpaced | src/veridian/kernel/lifecycle.py:194-206 | any `max_restarts` + 1 consecutive restarts span at least `window_seconds` |
| Supervision.NoneAllowed | src/veridian/kernel/lifecycle.py:197-204 | with a limit of zero or less there is never a restart |
| Supervision.Supervisor.HandleCrash | src/veridian/kernel/lifecycle.py:185-210 | the object's pruned list and its decision are those of the run of crashes so far; after a stop nothing happens |
| Supervision.Supervisor.Respawn | src/veridian/kernel/lifecycle.py:211-222 | after the sleep a stop or a failed spawn brings nothing up; otherwise the new handle goes to the rebind hook |
| Teardown.InOrder | src/veridian/plugin_runtime/process.py:230-232 | every command is tried, in list order, from where the last one ended |
| Teardown.TriesAreTried | src/veridian/plugin_runtime/process.py:320-336 | the attempts on one command are the engine's, numbered, each after its sleep; all but the last fail before the deadline, and the last one succeeds, is the sixth, or ends behind the deadline |
| Teardown.DelayTable | src/veridian/plugin_runtime/process.py:320-336 | the five sleeps between six attempts, in seconds |
| Teardown.Bounded | src/veridian/plugin_runtime/process.py:215-232 | if an attempt takes at most A, n commands are over within 45 + 2 + n*A seconds, however they fail |
| Teardown.BrickProcess.RunTeardownCommand | src/veridian/plugin_runtime/process.py:320-339 | the retry loop makes exactly those attempts and ends when the last of them does |
| Teardown.BrickProcess.RunPostRun | src/veridian/plugin_runtime/process.py:215-232 | whoever calls first runs the list, all of it or as far as it gets when its task is cancelled, and takes all of it off; every later call changes nothing |
| Walk.BfsExact | pre-installed/bricks/context/brick.py:112-152 | for every finite tree the unbudgeted walk has each eligible file exactly once and nothing else, eligibility being a chain of entered directories to an indexable file |
| Walk.BfsFinds | pre-installed/bricks/context/brick.py:124-152 | a file is found if and only if the tree has it behind readable directories, no name on its path is ignored, its suffix is one of text and it is small enough |
| Walk.DirCountExact | pre-installed/bricks/context/brick.py:116-136 | the walk counts each directory that it enters once, that is every one below no ignored or unreadable one |
| Walk.BfsLayered | pre-installed/bricks/context/brick.py:100-105 | no file comes before a shallower one |
| Walk.IterFiles | pre-installed/bricks/context/brick.py:97-152 | for every tree and budget the walk terminates, yields a prefix of the unbudgeted sequence within all budgets, all of it when no limit is reported, begins no directory behind the deadline, and reports a limit only when one more would have exceeded it |
| Walk.ScanEntries | pre-installed/bricks/context/brick.py:130-152 | the loop over one directory yields its files and queues its directories in order, or stops at a justified limit |
| Walk.CompleteExactly | pre-installed/bricks/context/brick.py:116-150 | with time enough, the walk is complete if and only if the budgets suffice for everything there is |
| ChunkIndex.ChunkingExcerpts | pre-installed/bricks/context/brick.py:188-201 | below the outline limit the chunks are non-blank stretches of the file, in order and apart |
| ChunkIndex.LineOnce | pre-installed/bricks/context/brick.py:188-191 | each line is in exactly one chunk, or in none just when its window is blank |
| ChunkIndex.OutlineSpans | pre-installed/bricks/context/brick.py:178-186 | a file above the outline limit has one chunk, its outline, which spans all its lines |
| ChunkIndex.IndexLeadsToText | pre-installed/bricks/context/brick.py:167-212 | the path index read with the empty list for a missing path is the increasing list of the positions of that path's chunks, and they are exactly the chunking of the text last indexed |
| ChunkIndex.StoreOf | pre-installed/bricks/context/brick.py:167-203 | the store has of each path just that chunking |
| ChunkIndex.IndexedExact | pre-installed/bricks/context/brick.py:167-173 | a file is taken in with its text when it is there, is no larger than the limit and can be read, and otherwise nothing changes |
| ChunkIndex.InvalidatedTexts | pre-installed/bricks/context/brick.py:364-375 | an invalidation leaves the named files as the disk has them, or absent, and the others as they were; without names it leaves nothing |
| ChunkIndex.ContextRepoMap.IndexFile | pre-installed/bricks/context/brick.py:167-203 | a readable file replaces its own chunks; an unreadable one keeps what it had |
| ChunkIndex.ContextRepoMap.Drop | pre-installed/bricks/context/brick.py:205-212 | the path's chunks go, the others keep their order, and the index agrees with the new positions; the path leaves the index, and when it had chunks so does every path that has none |
| ChunkIndex.ContextRepoMap.Index | pre-installed/bricks/context/brick.py:301-309 | indexing a list of files is indexing them one after the other, and the number answered is that of the chunks made |
| FullIndex.IndexWorkspace | pre-installed/bricks/context/brick.py:97-152 | a full index takes in every eligible file in breadth-first order, or an initial stretch of them when a limit was hit |
| FullIndex.RelExact | pre-installed/bricks/context/brick.py:174 | a path's text is its names joined by slashes, and tells paths of names without one apart |
| ChunkIndex.ContextRepoMap.Invalidate | pre-installed/bricks/context/brick.py:364-375 | clears everything, or drops and re-indexes the named files |
| AgentRun.Run | pre-installed/bricks/orchestrator/brick.py:387-534 | the run ends at the first iteration that completes it or makes `max_recovery` failures in a row, with that status, and otherwise after exactly `max_iterations`; checks are of the objective due, and the usage is the sum over its turns |
| AgentRun.Judge | pre-installed/bricks/orchestrator/brick.py:422-531 | one turn's effect on the failure counter, the objective and the verdict |
| AgentRun.OutcomeExact | pre-installed/bricks/orchestrator/brick.py:422-521 | a turn fails that gives nothing, has an error in any of its tool calls, or replies without passing the check; in chat a reply is the end |
| AgentRun.DoneExact | pre-installed/bricks/orchestrator/brick.py:486-527 | the run completes in chat with a reply, and otherwise with the reply that verifies as many as there are objectives |
| AgentRun.UsageExact | pre-installed/bricks/orchestrator/brick.py:408-416 | input and output tokens are summed up apart over the turns that report any, and there is a usage just when one did |
| AgentRun.IterationStep | pre-installed/bricks/orchestrator/brick.py:422-521 | the failure counter is the length of the run of failures that ends here, so it reaches the limit just when that many iterations failed with no clean turn between |
| AgentRun.CompletedVerified | pre-installed/bricks/orchestrator/brick.py:499-527 | a completed run that is not chat has verified objectives 0 to n-1, in order, once each |
| AgentRun.PassedInOrder | pre-installed/bricks/orchestrator/brick.py:501-524 | at any time the objectives verified are an initial stretch of the list, in order, once each |
| AgentRun.ChecksInRange | pre-installed/bricks/orchestrator/brick.py:501-502 | while a run goes on, the objective looked at is one there is |
| Conversation.LogExact | bricks/conversation/sqlite/brick.py:73-93 | over any interleaving of appends and deletes, each session's rows are its turns since its last delete, in append order, numbered 1 to n |
| Conversation.PagingExact | bricks/conversation/sqlite/brick.py:96-107 | reading backwards with any page size and `before_seq` set to the last page's first number ends and gives the whole log |
| Conversation.ConversationLog.AppendTurn | bricks/conversation/sqlite/brick.py:73-93 | the new turn's number is the length of its session's log |
| Conversation.ConversationLog.LoadTurns | bricks/conversation/sqlite/brick.py:96-107 | the rows below the bound in order of their numbers, cut to the last `limit`; zero means no bound and no limit |
| Conversation.LimitedExact | bricks/conversation/sqlite/brick.py:105-106 | no limit keeps all rows, a limit of n the last n, and a negative one drops so many of the first |
| Conversation.ConversationLog.DeleteSession | bricks/conversation/sqlite/brick.py:134-137 | takes away one session's rows and reports how many |
| Conversation.AfterLastExact | pre-installed/bricks/orchestrator/brick.py:112-117 | the cut begins at the last compaction marker, or is everything |
| Conversation.CutAtLast | pre-installed/bricks/orchestrator/brick.py:112-117 | the loop computes that cut |
| Conversation.BodyExact | pre-installed/bricks/orchestrator/brick.py:612-616 | a compaction sums up the turns behind the last marker, without it |
| Conversation.ViewCommutes | pre-installed/bricks/orchestrator/brick.py:370-375 | taking the last n turns and cutting at the last marker can be done in either order, for every log and n |
| Conversation.CompactionView | pre-installed/bricks/orchestrator/brick.py:599-657 | what a later run sees behind a compaction is its summary and the turns that follow, as far as the last forty go, until the next compaction, whatever the log was |
| Conversation.MeanwhileUnseen | pre-installed/bricks/orchestrator/brick.py:608-650 | so turns appended while the model makes the summary make no difference to what any later run sees until the next compaction |
| Conversation.Compact | pre-installed/bricks/orchestrator/brick.py:599-657 | appends one marked turn, behind whatever others did to the store meanwhile, when more than two turns would be summed up, and otherwise nothing |
| Planner.NextGood | bricks/planning/tree-search/brick.py:55-86 | keeps at most one active step, in the active branch, and every score the done count less the failed count; a step handed out is the first pending one of a best-scoring open branch, the last such branch, and nothing else changes; each reply with a step takes one pending step, and a reply without comes only when none is left |
| Planner.SettledCounts | bricks/planning/tree-search/brick.py:62-70 | an observation turns the active step into a failed one when it reports a failure and into a done one otherwise, moves the score with it, and touches no pending step |
| Planner.ObservedExact | bricks/planning/tree-search/brick.py:62-70 | an observation marks the active step failed or done, moves the score and, when done, the cursor with it, and changes nothing else |
| Planner.RepliesBounded | bricks/planning/tree-search/brick.py:55-86 | over any run the steps handed out are as many as the pending ones that went, and no more than there are steps |
| Planner.CompleteForGood | bricks/planning/tree-search/brick.py:89-95 | a plan once complete stays complete, whatever is observed later |
| Planner.CompleteExact | bricks/planning/tree-search/brick.py:88-95 | a plan is complete just when some branch has done all its steps or every branch has a failed one |
| Planner.PlanningTreeSearch.IsComplete | bricks/planning/tree-search/brick.py:88-95 | the two loops decide that; an unknown plan is an error |
| Planner.NewPlanGood | bricks/planning/tree-search/brick.py:30-52 | a new plan keeps the same invariant; its first branch is active, and each step is pending under the id of its branch and place |
| Planner.ClausesExact | bricks/planning/tree-search/brick.py:32-33 | the clauses are the pieces in order, without the spaces and dots around them and without the empty ones, or the whole goal when that leaves none |
| Planner.Best | bricks/planning/tree-search/brick.py:73-80 | no open branch scores better, and of those that score the same it is the last |
| Planner.PlanningTreeSearch.NextStep | bricks/planning/tree-search/brick.py:55-86 | the loops compute that next plan; the step answered is the plan's one active step, just handed out, and none is answered just when nothing was pending; an unknown plan is an error |
| Permuting.PermutationsExact | bricks/planning/tree-search/brick.py:35 | the permutations listed are exactly the sequences with the pool's elements |
| Permuting.OrderingsExact | bricks/planning/tree-search/brick.py:35 | the orderings taken are the first `max_branches` of the n! permutations in lexicographic order, each once |
| Planner.NewPlanCovers | bricks/planning/tree-search/brick.py:30-52 | each branch is an ordering of all the clauses just when a branch is wanted or there is one clause, and the first branch, which is the answer, has them as the goal does |
| Planner.PlanningTreeSearch.MakePlan | bricks/planning/tree-search/brick.py:30-52 | stores the plan of the goal's clauses under the new id and answers with its first branch; an error just for a negative `max_branches`, and then nothing is stored |
| Versions.VersionKeyShow | src/veridian/plugin_runtime/versions.py:29-36 | reading a written release gives its components back, whatever suffix follows and whatever white space and `v`s stand before it |
| Versions.NoVersion | src/veridian/plugin_runtime/versions.py:33-35 | a text with no digit there sorts lowest |
| Versions.CompareExact | src/veridian/plugin_runtime/versions.py:39-44 | the padded comparison goes by the first component that differs, missing ones counting as zero |
| Versions.ComparePreorder | src/veridian/plugin_runtime/versions.py:39-44 | it is a total preorder on version strings |
| Versions.Highest | src/veridian/plugin_runtime/versions.py:47-55 | the first of the greatest versions, and an error just for the empty list |
| Versions.CompatibleRelease | src/veridian/plugin_runtime/versions.py:75-84 | with at least two components `~=` is exactly the interval from the target up to its bumped prefix (PEP 440, section "Compatible release"), and when it is an error |
| Versions.ClauseExact | src/veridian/plugin_runtime/versions.py:61-74 | the six other operators ask what their signs say of the first component that differs |
| Versions.SatisfiesExact | src/veridian/plugin_runtime/versions.py:88-101 | a list of clauses is answered by the first that does not hold |
| Versions.ParseExact | src/veridian/plugin_runtime/versions.py:58 | a text is accepted as a clause just when it is an operator and a version with white space around the two, and is read as what was written |
| Versions.TargetExact | src/veridian/plugin_runtime/versions.py:58 | a version in a clause is a digit followed by digits and dots |
| Versions.PiecesExact | src/veridian/plugin_runtime/versions.py:94 | each comma of a specifier ends a piece, and nothing else does |
| Versions.SpecExact | src/veridian/plugin_runtime/versions.py:88-101 | a specifier accepts a version just when each piece between commas is blank or a clause that the version satisfies, and is refused as unparsable just when some piece is neither blank nor a clause, whatever the others say |
| Versions.Satisfies | src/veridian/plugin_runtime/versions.py:88-101 | the parsing loop and the conjunction give that answer |
| Loader.SplitRefExact | src/veridian/plugin_runtime/loader.py:87-94 | a reference has a pin just when it is a name, an `@` and a version that begins with a digit |
| Loader.FirstRootExact | src/veridian/plugin_runtime/loader.py:132-135 | the root looked in is the first that holds a brick of the name |
| Loader.ResolveBrickRef | src/veridian/plugin_runtime/loader.py:108-155 | an unpinned name gives a maximal version in the first root that holds the name; a pinned one gives that version there or an error, and never looks further |
| Loader.InstalledEarliest | src/veridian/plugin_runtime/loader.py:72-84 | of bricks with the same version the one found first is taken |

## Left out

- Payloads, errors' messages and data: opaque JSON texts; JSON parsing itself and JSON Schema checks.
- asyncio, sockets, subprocesses, containers and SQLite itself; a write to a transport is one step.
- Handlers that leave calls of their own running after they end: in the model a handler ends only when no call of its own is awaited.
- What a notification handler does with what it is given, and malformed-line reports; request ids that are strings; the handler task of a request whose id cannot be a key, which is made before dispatching raises; a line nested too deeply to parse.
- Stream timeouts send no `$/cancel`, and a task cancelled before its first step answers nothing; the model has it so, and claims "at most one" response.
- A delta that brings a `request_id` of its own goes to the stream of that id, or to none if it cannot be a key (src/veridian/plugin_runtime/ipc.py:383, src/veridian/sdk/brick.py:96); the network's runs leave such deltas out, and `JsonRpc.ClassifyRender` says where they go.
- Supervisors inside `Kernel` are values, and lists of capabilities are sets there, without their order. That the kernel and a lost supervisor share one list is a mark on the latter; listed supervisors of one name that share one are each given what is appended.
- Start, rebind, restart and stop are one kernel step each: a call of a brick, a restrict or a stop in the middle of one is not modelled, nor is a start after a stop. The restart limiter is modelled apart from the kernel, where any restart may be refused; `KernelLost.LostWithholding` counts a restart that is due as one that can come up.
- `Kernel` writes the contract table itself, since what it binds passes the checks: a stack is refused at load when a manifest does not declare its contract, and environments and manifests do not change during a life. `PluginRegistry` and `Supervision.Supervisor` are modelled on their own, not as parts of `Kernel`.
- The host services for logging and events, and the wire validation of params and results.
- `Policy.from_config`, well-formedness of capability strings, and reading a manifest or a stack file.
- Health checks, the messages of the initialisation dialogue (how it ends is free), and shutting a process down.
- A sleep that overshoots: the teardown bound takes sleeps as exact. Of a teardown that is cancelled, the attempts on the command under way.
- ChunkIndex.ContextRepoMap.Index: paths are taken to be relative to the root and normal, without symbolic links; `chunk_lines` is at least 1, since the original fails on 0 and indexes nothing below.
- The text of an outline, tokens, retrieval scores, the repository map and AGENT.md.
- `_maybe_compact_transcript`, splitting a goal into objectives, recognising chat, tool dispatch and what `_verify` looks at: the loop takes their results as given. A call to the model that raises ends the run and is not modelled.
- Session listings and timestamps of the conversation store.
- Planner.PlanningTreeSearch.MakePlan: takes the pieces into which the regular expression splits the goal as given.
- Digits other than 0 to 9 in versions.
- The scan for brick directories, and which of the candidate paths of a reference has a manifest: the loader takes what they find as given.
- Provider bricks, the command line, installers, acquisition, the conformance harness and the TypeScript SDK, which ignores `$/cancel`.
