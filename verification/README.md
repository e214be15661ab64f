# A model of the in-memory A2A server

The server keeps tasks in memory and offers the A2A operations three times over: as plain
JSON-RPC (`server/jsonrpc.go`), as `opsImpl` (`server/ops_impl.go`) and as `DefaultOperations`
without callbacks (`server/default_ops.go`), part of them also through REST paths
(`server/rest.go`). This project models those pieces and proves what they keep, over all
inputs, all runs and all interleavings.

| file | content |
|---|---|
| `Decimal.dfy` | the hand-written 64-bit printer and the ids built from it |
| `Text.dfy`, `Rest.dfy`, `RestCalls.dfy` | first-occurrence search; the REST router and its path extraction; what reaches each handler |
| `Schema.dfy` | value types, the task object |
| `SecondaryAuth.dfy`, `DetectionLaws.dfy` | detection of secondary-auth demands, and the message that answers them |
| `AgentCards.dfy`, `CardLaws.dfy` | the two-shaped capabilities of an agent card |
| `StoreModel.dfy`, `TaskStores.dfy` | the store as a value, and as a class of maps and counters over shared task objects |
| `Handlers.dfy`, `Servers.dfy` | each request as one step on the store value, and the handlers as methods on task objects, proved equal to it |
| `TaskAnswers.dfy`, `PushAnswers.dfy` | every answer and every change of the store, field by field and code by code |
| `Equivalence.dfy`, `Runs.dfy` | sequences of requests, and runs with workers, on the objects |
| `Workers.dfy` | the streaming worker, statement by statement |
| `Lifecycle.dfy` | granularity (a): handlers atomic, workers by statement |
| `FinalEvents.dfy` | granularity (a): which streams are sure to close with an ending |
| `Interleaving.dfy` | granularity (b): look-up, guard and each write of a handler are separate steps |
| `Settling.dfy`, `SettledForever.dfy` | granularity (b): what a streamed task settles to, and when for good |
| `FineFinalEvents.dfy` | granularity (b): which streams are sure to close with an ending |
| `Explanations.dfy` | granularity (b): auth-required explains itself |
| `FineRuns.dfy` | granularity (b): runs of requests and workers on the task objects |
| `RacyPuts.dfy` | what a put records if the task is written while it compares |
| `AtomicHandlers.dfy`, `Simulation.dfy` | (a) is a special case of (b) |
| `Artifacts.dfy` | what tasks carry as artifacts, at both granularities |
| `Conversations.dfy`, `Histories.dfy`, `PushConfigs.dfy` | laws of message/send, of recorded transitions, of push configurations |

`dafny verify dfyconfig.toml` checks everything.

## How the pieces fit

Tasks are heap objects, and `get` and `newTask` hand out the stored object. Handlers change
it and then `put` it back, so `put` usually compares an object with itself. The
methods in `Servers.dfy` are proved on these objects: after each one the whole store is what
the corresponding function of `Handlers.dfy` makes of the store before. The run theorems are
then about those functions. A task named by its id there stands for its object: `Runs.ServeRun`
and `FineRuns.FineRun` run requests and workers, at either granularity, on the objects
themselves, and show that no id ever changes its object. What the server supports is read off
its agent card by `Handlers.GateOf`.

Counters are 64-bit registers that wrap. Run theorems are stated for fewer than 2^64 created
tasks (or added configurations); `Decimal.IssuedIdsCollide` shows the bound is exact. Field
writes are sequentially consistent. Clock readings are opaque parameters.

## What turned out

- A terminal state is not final: `tasks/cancel` and the worker have no guard.
  `Lifecycle.TerminalCanBeLeft` gives the run, `Interleaving.FinalIffQuiet` the exact condition.
- With atomic handlers (granularity (a)) a stream always ends in completed or canceled, and the
  last of several overlapping workers to complete its task says so in its final event. Any
  worker still at work is sure to say so, whatever comes next, exactly when the task has ended
  and no worker of it has its first touch ahead (`FinalEvents.ReachableFinalEvents`).
- With handlers interrupted between guard and write (granularity (b)) a stream may also end in
  auth-required, its final event included (`Settling.StreamsSettle`,
  `Settling.StreamMayCloseAsking`). There a worker still at work is sure to report an ending
  exactly when its task is terminal and nothing in flight can reopen it
  (`FineFinalEvents.FinalEventLaw`, `FineFinalEvents.ReachableFinalEvents`); the same condition
  decides whether the task stays ended whenever its workers are done
  (`SettledForever.SettledLaw`).
- `put` is meant to record transitions, and does so for distinct objects. The handlers never
  pass it one, so with `put` as one step a history never gets past its creation entry
  (`Histories.HandlersRecordNothing`). In the source `put` loads the state twice, and the task
  has no lock: an entry is recorded exactly when another thread writes a different state between
  the loads (`RacyPuts.RecordsTheRace`, `RacyPuts.RaceReached`).
- Decoding a legacy card over a card that had a capabilities object keeps the old object,
  which then still answers (`AgentCards.StaleObject`, `AgentCards.StaleAnswer`).
- The least int64 prints as a bare sign. It is first reached at the 2^63-th id, and even then
  the ids stay distinct.

## Model

| member | source | states |
|---|---|---|
| `Decimal.Itoa` | server/tasks.go:77-98 | on every int64 the fixed 20-byte buffer suffices (indices stay in range) and the result is the decimal text of the number; only the least int64, whose negation overflows, prints as a bare sign |
| `Decimal.FillDigits` | server/tasks.go:86-92 | the digit loop, with the remaining number as its measure, leaves the digits right-aligned and the first cell free for a sign |
| `Decimal.PrintParse` | server/tasks.go:77-98 | decimal parsing gives the number back exactly when it is not the least int64; no leading zeros; only digits and at most one leading sign |
| `Decimal.PrintedInjective` | server/tasks.go:73-98 | no two int64 values print alike, the misprinted one included |
| `Decimal.WrapCollides` | server/tasks.go:32 | two counts leave the same 64-bit counter value if and only if they differ by a multiple of 2^64 |
| `Decimal.IssuedIdsCollide` | server/tasks.go:32-33 | the j-th and the k-th id, for tasks and for push configurations, coincide if and only if j and k differ by a multiple of 2^64 |
| `Decimal.LaterIdIsNew` | server/tasks.go:32-42 | within 2^64 calls the next task id is not among the issued ones |
| `Decimal.IssuedCount` | server/tasks.go:32-42 | n calls issue n different ids |
| `Decimal.TaskIdShape` | server/tasks.go:73-98 | an issued id is non-empty and made of digits, signs and the letter t |
| `Decimal.IdsTellTheirNumber` | server/tasks.go:73-98 | up to the largest counter value, "t-" or "pc-" is followed by the decimal text of the number of the call |
| `Text.FirstSeparator` | server/rest.go:208-213 | a separator in which the first character reappears at most as the last one, is first found right after the text before it if and only if it does not occur in that text followed by its own first character |
| `Text.FirstBorderless` | server/rest.go:78 | where it does not reappear at all the condition is that it does not occur in the text before it |
| `Text.IndexOf` | server/rest.go:208 | first-occurrence search: negative exactly when there is no occurrence, and otherwise no earlier occurrence |
| `Rest.ConfigPathRoundTrip` | server/rest.go:201-215 | for all strings: extraction returns (task id, configuration id) from the path built of them if and only if the separator does not occur in the task id followed by a slash; the configuration id is unrestricted |
| `Rest.ExtractionIsFirstSplit` | server/rest.go:201-215 | the converse direction: whatever is extracted rebuilds the path, and ("", "") is returned without a split only for a path that has none |
| `Rest.CancelUrl` | server/jsonrpc.go:104-112 | POST {id}:cancel reaches cancel with exactly that id if and only if the id is non-empty, free of ":cancel", and does not bring in the configuration separator |
| `Rest.SubscribeUrl` | server/jsonrpc.go:95-103 | the same for {id}:subscribe |
| `Rest.GetUrl` | server/jsonrpc.go:113-117 | GET {id} reaches get with exactly that id, if and only if the id is non-empty and none of the other routes claims the path |
| `Rest.ConfigsUrl` | server/jsonrpc.go:82-94 | GET and POST on the configuration collection reach list and create with exactly the id, under the exact condition, push support included |
| `Rest.ConfigUrl` | server/jsonrpc.go:68-81 | GET and DELETE on one configuration reach get and delete with exactly both ids, under the exact condition |
| `Rest.RootAddsNothing` | server/jsonrpc.go:69 | the leading /v1/tasks cannot make the separator appear in a path |
| `Rest.IdBeforeSeparator` | server/rest.go:40-89 | the id found before a suffix written right after it is that id if and only if the suffix does not occur in it |
| `Rest.RouterInvertsIssuedIds` | server/jsonrpc.go:66-119 | for every id the store issues and every non-empty configuration id, all seven URLs dispatch to their own handler and recover exactly the ids |
| `RestCalls.FixedCalls` | server/jsonrpc.go:57-64 | for every verb and path: send is reached by exactly POST /v1/message:send, the task listing by exactly GET /v1/tasks |
| `RestCalls.CancelCalls` | server/jsonrpc.go:104-112 | for every verb and path: cancel of an id is reached exactly by POST on a task path ending in ":cancel", and the id is the text before its first ":cancel" |
| `RestCalls.SubscribeCalls` | server/jsonrpc.go:95-103 | the same for ":subscribe" |
| `RestCalls.GetCalls` | server/jsonrpc.go:113-118 | for every verb and path: get of an id is reached exactly by GET on the path of that id, when no other route claims it |
| `RestCalls.ConfigsCalls` | server/jsonrpc.go:82-94 | for every verb and path: list and create are reached exactly by GET and POST on a configuration collection, push supported |
| `RestCalls.ConfigCalls` | server/jsonrpc.go:68-81 | for every verb and path: get and delete of a configuration are reached exactly by GET and DELETE on a two-part path, push supported |
| `RestCalls.Unsupported` | server/rest.go:100-104 | 501 is answered exactly on the configuration routes with their own verbs and without push support |
| `RestCalls.FoundBefore` | server/rest.go:106-119 | an id is found before a suffix exactly if the suffix follows it and does not occur in it |
| `Schema.Task.Touch` | schema/events.go:57-60 | state and time change; message, error, artifacts and identity are kept |
| `SecondaryAuth.DetectSecondaryAuth` | server/ops_impl.go:300-338 | the nested loops compute the fold over the flattened parts |
| `SecondaryAuth.AccumulatePart` | server/ops_impl.go:304-334 | one part, with its early exits, combines its findings into the accumulator |
| `SecondaryAuth.AppendScopes` | server/ops_impl.go:328-334 | exactly the string entries are appended, in order |
| `SecondaryAuth.ScanHomomorphism` | server/ops_impl.go:300-338 | detection over a concatenation is the combination of the detections: OR, last present, concatenated scopes |
| `SecondaryAuth.FlattenHomomorphism` | server/ops_impl.go:302-303 | only the flattened part sequence matters, not the message boundaries |
| `SecondaryAuth.DetectionCombines` | server/ops_impl.go:300-338 | both together, for what the handlers see |
| `SecondaryAuth.LastPresentWins` | server/ops_impl.go:319-327 | resource, URI and token are each the value of the last part that has them as a string, for every position of that part |
| `SecondaryAuth.AnyPartRequires` | server/ops_impl.go:316-318 | a token is required if and only if some part says so |
| `SecondaryAuth.AuthMessageExplains` | server/ops_impl.go:340-351 | reading the authorization message gives back the resource, the scopes and the URI |
| `DetectionLaws.LookedAt` | server/ops_impl.go:304-334 | name by name, what a part says: a data part its four fields and its scopes, any other part nothing |
| `DetectionLaws.LowerOfData` | server/ops_impl.go:309 | the type counts as data in any of its sixteen spellings, and in no other |
| `DetectionLaws.DetectedByName` | server/ops_impl.go:300-338 | a request asks with the last string under "resource", "authorization_uri" and "secondaryAuthToken", and requires a token if some part says so |
| `DetectionLaws.ScopesFromTheFront` | server/ops_impl.go:328-334 | scopes are collected from the first part on |
| `DetectionLaws.StringsInOrder` | server/ops_impl.go:329-333 | strings keep their order across lists |
| `DetectionLaws.AuthMessageShape` | server/ops_impl.go:340-351 | the authorization message has one object with resource and scopes, and a URI just if there is one |
| `DetectionLaws.Echo` | server/ops_impl.go:300-351 | a client that copies that object into a data part, with a demand and a token, is detected as exactly that |
| `DetectionLaws.PlainEcho` | server/ops_impl.go:300-351 | without them, as resource, scopes and URI alone |
| `DetectionLaws.MissingIfTrimmedAway` | server/ops_impl.go:62 | a token counts as missing exactly if trimming leaves nothing of it |
| `DetectionLaws.AsciiTokens` | server/ops_impl.go:62 | for ASCII text: exactly if it is blanks, tabs and line ends |
| `AgentCards.CardRoundTrip` | schema/types.go:153-239 | decoding an encoded card into a fresh one gives every field back if and only if its list agrees with its object |
| `AgentCards.ProfileRoundTrip` | schema/types.go:158-203 | name, title, version, description, endpoints and authentication come back, whatever the capabilities |
| `AgentCards.EndpointsRoundTrip` | schema/types.go:147 | the endpoint map comes back, the empty one included |
| `AgentCards.FieldsFound` | schema/types.go:158-180 | fields of distinct names, present or left out, do not disturb each other |
| `AgentCards.CapabilitiesRoundTrip` | schema/types.go:153-239 | the object comes back with its three flags, set or unset, and its extension list |
| `AgentCards.ExtensionsRoundTrip` | schema/types.go:175-178 | every extension comes back, in order |
| `AgentCards.ListRoundTrip` | schema/types.go:231-236 | the legacy list comes back in order |
| `AgentCards.BuildersAreCoherent` | schema/types.go:209-228 | setting capabilities, a list without an object, and decoding afresh all build cards that round-trip |
| `AgentCards.ListAnswersForObject` | schema/card_capabilities.go:5-61 | on such a card the legacy list alone gives all three accessor answers |
| `AgentCards.StaleObject` | schema/types.go:205-238 | decoding over a used card equals decoding afresh if and only if there was no object or a new one arrives |
| `AgentCards.StaleAnswer` | schema/types.go:205-238 | a witness: a legacy card without streaming, decoded over one with it, still reports streaming |
| `CardLaws.SupportedByName` | schema/card_capabilities.go:5-44 | each accessor reads its own flag, and else its own name in the list |
| `CardLaws.GateReadsCard` | server/ops_impl.go:82-185 | streaming and push requests are gated by their own capability |
| `CardLaws.DerivedList` | schema/card_capabilities.go:46-61 | the derived list names exactly the true flags, each once, in a fixed order |
| `CardLaws.ObjectWritten` | schema/capabilities.go:5-14 | each flag and the extensions are written under their own names, just if they are set |
| `CardLaws.ExtensionWritten` | schema/capabilities.go:17-26 | so are the fields of an extension |
| `CardLaws.CardWritten` | schema/types.go:155-181 | a card writes its object, else its list unless empty, else no capabilities; its plain fields under their own names, just if they are set |
| `CardLaws.ReadExactly` | schema/types.go:195-197 | decoding succeeds exactly for null and for objects whose plain fields have the right kind |
| `CardLaws.ProfileRead` | schema/types.go:198-203 | each plain field is read under its own name; null and absence leave it empty |
| `CardLaws.FlagsRead` | schema/capabilities.go:5-14 | flags are read under their own names; any of another kind rejects the object |
| `CardLaws.ExtensionRead` | schema/capabilities.go:17-26 | an extension is read, or rejected, by the kinds of its fields |
| `CardLaws.ListRead` | schema/types.go:232-236 | a list of strings is read as it stands, null as empty; one other element voids it |
| `CardLaws.OtherShapes` | schema/types.go:204-238 | capabilities of any other shape leave the list empty and the object as it was |
| `AgentCards.AgentCard.Contains` | schema/card_capabilities.go:37-44 | the loop finds exactly membership |
| `AgentCards.AgentCard.StreamingSupported` | schema/card_capabilities.go:5-13 | the object decides where it has the flag, the list otherwise |
| `AgentCards.AgentCard.PushNotificationsSupported` | schema/card_capabilities.go:16-24 | the same for push notifications |
| `AgentCards.AgentCard.StateTransitionHistorySupported` | schema/card_capabilities.go:27-35 | the same for state transition history |
| `AgentCards.AgentCard.SetCapabilities` | schema/card_capabilities.go:48-61 | the object is replaced and the list derived from it by three conditional appends |
| `AgentCards.AgentCard.UnmarshalJSON` | schema/types.go:184-239 | every field becomes the decoded value, or the card is unchanged on an error; an object of the wrong shape falls through to the list |
| `TaskStores.TaskStore.NewTask` | server/tasks.go:29-46 | a fresh running object is filed under the next id with its creation entry; everything else is unchanged |
| `TaskStores.TaskStore.Get` | server/tasks.go:48-53 | the stored object itself, not a copy |
| `TaskStores.TaskStore.Put` | server/tasks.go:55-71 | for the stored object or any other: the whole new state, with an entry appended exactly when the task is new or the states differ, dated by the clock when undated |
| `TaskStores.TaskStore.AddPush` | server/tasks.go:110-127 | counts every add to an existing task, numbers an empty id, replaces under the same id; nothing for an unknown task |
| `TaskStores.TaskStore.GetPush` | server/tasks.go:129-138 | finds exactly what is filed under both ids |
| `TaskStores.TaskStore.ListPush` | server/tasks.go:140-155 | for any iteration order each configuration of the task exactly once |
| `TaskStores.TaskStore.DeletePush` | server/tasks.go:157-169 | removes exactly that entry and says whether there was one; an emptied inner map stays |
| `TaskStores.TaskStore.ListTasks` | server/tasks.go:171-179 | for any iteration order each stored object exactly once |
| `TaskStores.TaskStore.GetHistory` | server/tasks.go:182-193 | the recorded transitions in order |
| `TaskStores.InAnyOrder` | server/tasks.go:150-154 | a loop over a map with distinct values collects each once, whatever the order |
| `StoreModel.PutOfStoredObject` | server/tasks.go:58-65 | putting back the stored object compares it with itself: nothing is recorded and nothing changes |
| `Servers.PutBack` | server/tasks.go:55-71 | after changes through the shared pointer, put leaves every field of the store as it is, history included |
| `Servers.CompleteText` | server/default.go:59-65 | status and artifacts are overwritten; a stored object stays filed with its history unchanged, any other is filed as put says |
| `Servers.CompleteNew` | server/jsonrpc.go:173-184 | a new task, completed at once: the store and the answer in full |
| `Servers.CancelTask` | server/ops_impl.go:150-152 | canceled without looking at the old state; the whole store as `TaskAnswers.CancelAnswered` spells it out |
| `Servers.AskForAuth` | server/ops_impl.go:63-65 | auth-required with the message that explains it |
| `Servers.StreamDemo` | server/ops_impl.go:269-279 | the worker as a whole on the heap: final task, whole store, and the three events in order |
| `Servers.StreamWorker.Step` | server/ops_impl.go:269-279 | one statement of a worker, on the object it was handed, is that statement on the store |
| `Servers.StreamWorker.Perform` | server/ops_impl.go:269-279 | what the statement does to the task and to the worker |
| `Servers.StreamWorker.RunAlone` | server/ops_impl.go:269-279 | n statements on the object are n statements on the store |
| `Servers.Server.RpcGetTask` | server/jsonrpc.go:187-202 | answer as the shared specification of tasks/get; changes nothing |
| `Servers.Server.RpcCancelTask` | server/jsonrpc.go:204-221 | answer and whole store as the shared specification of tasks/cancel; the objects stay |
| `Servers.Server.RpcPushConfigSet` | server/jsonrpc.go:259-277 | answer and store as the shared specification |
| `Servers.Server.RpcPushConfigGet` | server/jsonrpc.go:279-297 | answer as the shared specification |
| `Servers.Server.RpcPushConfigList` | server/jsonrpc.go:299-316 | answer as the shared specification |
| `Servers.Server.RpcPushConfigDelete` | server/jsonrpc.go:318-336 | answer and store as the shared specification |
| `Servers.Server.RpcSendMessage` | server/jsonrpc.go:163-185 | always a new completed task, whatever task id is named |
| `Servers.Server.RpcResubscribe` | server/jsonrpc.go:235-253 | the task, or an error when it is unknown |
| `Servers.OpsImpl.ContinueOrCreate` | server/ops_impl.go:47-59 | the named live task itself, a refusal exactly when it is terminal, and otherwise a new task |
| `Servers.OpsImpl.MessageSend` | server/ops_impl.go:37-78 | answer and whole store for every parameter, error paths included; known tasks keep their objects |
| `Servers.OpsImpl.MessageStream` | server/ops_impl.go:81-123 | the same, and exactly which object is handed to a worker |
| `Servers.OpsImpl.TasksGet` | server/ops_impl.go:125-139 | answer as the shared specification |
| `Servers.OpsImpl.TasksCancel` | server/ops_impl.go:141-158 | answer and store as the shared specification |
| `Servers.OpsImpl.TasksResubscribe` | server/ops_impl.go:160-176 | an unknown or missing id is no error here |
| `Servers.OpsImpl.TasksPushNotificationConfigSet` | server/ops_impl.go:185-204 | answer and store as the shared specification |
| `Servers.OpsImpl.TasksPushNotificationConfigGet` | server/ops_impl.go:206-225 | answer as the shared specification |
| `Servers.OpsImpl.TasksPushNotificationConfigList` | server/ops_impl.go:227-245 | answer as the shared specification |
| `Servers.OpsImpl.TasksPushNotificationConfigDelete` | server/ops_impl.go:247-265 | answer and store as the shared specification |
| `Servers.DefaultOperations.MessageSend` | server/default_ops.go:123-158 | guards a terminal task but always completes a new one |
| `Servers.DefaultOperations.MessageStream` | server/default_ops.go:160-193 | guards a terminal task but always streams a new one |
| `Servers.DefaultOperations.TasksGet` | server/default_ops.go:195-208 | answer as the shared specification |
| `Servers.DefaultOperations.TasksCancel` | server/default_ops.go:210-226 | answer and store as the shared specification |
| `Servers.DefaultOperations.TasksResubscribe` | server/default_ops.go:228-243 | an unknown or missing id is no error here |
| `Servers.DefaultOperations.TasksPushNotificationConfigSet` | server/default_ops.go:44-62 | answer and store as the shared specification |
| `Servers.DefaultOperations.TasksPushNotificationConfigGet` | server/default_ops.go:64-82 | answer as the shared specification |
| `Servers.DefaultOperations.TasksPushNotificationConfigList` | server/default_ops.go:84-101 | answer as the shared specification |
| `Servers.DefaultOperations.TasksPushNotificationConfigDelete` | server/default_ops.go:103-121 | answer and store as the shared specification |
| `Equivalence.ServeThrough` | server/default_ops.go:44-121 | one shared request has one outcome, whichever of the three implementations serves it |
| `Equivalence.ServeAll` | server/default_ops.go:44-121 | for any sequence of shared requests and any routing, the final store and all answers depend on the requests alone |
| `Runs.ServeRequest` | server/jsonrpc.go:140-159 | any request through any implementation, on the task objects, is the atomic step of the runs below |
| `Runs.ServeRun` | server/tasks.go:29-71 | over any run of requests and worker statements from any grounded world, the objects show exactly what the run makes of that world; every worker still holds the stored object, and every task keeps its very object under its id |
| `Runs.TakeStep` | server/ops_impl.go:81-158 | one step of such a run on the objects; a worker is started on the object the handler handed over |
| `Runs.RunFromStart` | server/jsonrpc.go:41-48 | a server with an empty store and any card shows every run from the start |
| `FineRuns.Flow.Step` | server/ops_impl.go:37-158 | granularity (b): one step of a request or worker, on the object it holds, is that step on the store; no id changes its object |
| `FineRuns.Flow.Perform` | server/ops_impl.go:50-158 | each read or write of a request on the object it holds |
| `FineRuns.FineRun` | server/tasks.go:29-71 | granularity (b): over any run of arrivals and steps from any grounded world the objects show exactly what the run makes of it; every request and worker holds the stored object, and every task keeps its very object under its id |
| `FineRuns.FineRunFromStart` | server/jsonrpc.go:41-48 | granularity (b): a server with an empty store and any card shows every run from the start |
| `Handlers.ServeKeepsIntact` | server/tasks.go:29-71 | every request of every implementation keeps the store intact: keys are the issued ids, each task under its own id, one history entry each, every configuration under its own id and task |
| `TaskAnswers.CancelAnswered` | server/ops_impl.go:141-158 | for every implementation and parameter: the error codes as numbers; the canceled task field by field, message, error and artifacts kept; nothing else in the store changes |
| `TaskAnswers.GetAnswered` | server/ops_impl.go:125-139 | the stored task or the error code, and the store as it was |
| `TaskAnswers.FoundIfIssued` | server/ops_impl.go:125-139 | a get succeeds for exactly the ids issued so far |
| `TaskAnswers.ResubscribeAnswered` | server/ops_impl.go:160-176 | the stored task, or what each implementation says instead |
| `TaskAnswers.SendAnswered` | server/ops_impl.go:37-78 | for every implementation and parameter: refused with its code, or one task, named or new, completed with the one artifact "a-" plus its id and "ok", or asking for the token it lacks; answered as stored, nothing else changed |
| `TaskAnswers.StreamAnswered` | server/ops_impl.go:81-123 | the same with a worker started on exactly that task in place of the completion |
| `TaskAnswers.AnswerIsStored` | server/ops_impl.go:125-139 | any answer with a task is what a get right after it answers, through any implementation |
| `PushAnswers.AnsweredFlat` | server/jsonrpc.go:259-336 | for every implementation: a well-posed push request is answered as the one map by both ids answers it, and nothing but push configurations changes |
| `PushAnswers.AnsweredNot` | server/jsonrpc.go:259-336 | any other is refused with its code, and changes nothing |
| `PushAnswers.SetIsAnswered` | server/tasks.go:110-127 | a set answers the client's url and secret under a non-empty id, its own or the next generated one |
| `PushAnswers.SetIsFound` | server/tasks.go:110-155 | what was set is found, and listed once, by every implementation |
| `PushAnswers.SetKeepsOthers` | server/tasks.go:110-127 | and every other configuration is as before |
| `PushAnswers.DropIsAnswered` | server/tasks.go:157-169 | a delete of what is there succeeds and keeps every other configuration |
| `PushAnswers.DeletedIsGone` | server/tasks.go:129-169 | after it, get and delete are refused by every implementation |
| `Workers.WorkIsUpdate` | server/ops_impl.go:269-279 | every statement of a worker touches its own task only, and its put records nothing |
| `Workers.AloneCompletes` | server/ops_impl.go:269-279 | the seven statements without interruption are the worker as a whole |
| `TaskAnswers.StatementSpelledOut` | server/ops_impl.go:269-279 | each statement of a worker: every field it writes and the whole event it sends, flags and artifact included |
| `TaskAnswers.StatementsInOrder` | server/ops_impl.go:269-279 | the order of the statements, and that the artifact sent is the one appended |
| `TaskAnswers.WorkerSpelledOut` | server/ops_impl.go:269-279 | left alone: the final task and the three events, field by field |
| `Lifecycle.StepShape` | server/ops_impl.go:269-279 | granularity (a): every step is a handler that changes tasks as allowed, or one statement of one worker |
| `Lifecycle.InvariantStep` | server/ops_impl.go:269-279 | granularity (a): all run invariants are kept by every step |
| `Lifecycle.Reachable` | server/ops_impl.go:81-158 | granularity (a): hence they hold in every reachable state |
| `Lifecycle.TasksConserved` | server/tasks.go:29-46 | granularity (a): in every run the stored keys are exactly the issued ids, as many as were created; the next id is free; each task carries the id it is stored under |
| `Lifecycle.StreamingEndsTerminal` | server/ops_impl.go:81-158 | granularity (a): once all workers of a streamed task have passed their completed touch, it is completed or canceled, for any number of workers, cancels and sends |
| `Lifecycle.WorkerEvents` | server/ops_impl.go:269-279 | granularity (a): each worker has sent a prefix of status, artifact, final status, all for its own task; the artifact is "a-" plus the task id with "processing...", appended and not the last chunk |
| `Lifecycle.LastFinalEventEnds` | server/ops_impl.go:275-278 | granularity (a): the final event of the last worker to pass its completed touch always carries completed or canceled |
| `Lifecycle.EarlierFinalEventMayNotEnd` | server/ops_impl.go:270-278 | granularity (a): if another worker makes its first touch just before a final event, that event carries running |
| `FinalEvents.FinalEventLaw` | server/ops_impl.go:269-279 | granularity (a), for any worker still at work in any grounded world: through every further run its final event can only be an ending, if and only if the task is terminal, no worker of it has its first touch ahead, and the state is an ending or the worker will make it one |
| `FinalEvents.ReachableFinalEvents` | server/ops_impl.go:81-123 | granularity (a), in every reachable state: the condition is that the task is completed or canceled and no worker of it has its first touch ahead |
| `FinalEvents.SafeForever` | server/ops_impl.go:96-104 | the condition, once met, is kept by every handler and every worker statement |
| `FinalEvents.TerminalStartsNothing` | server/ops_impl.go:96-104 | no request starts a worker on a terminal task |
| `FinalEvents.Spoiled` | server/ops_impl.go:105-122 | where the condition fails, a schedule that creates no task ends in a final event that is no ending |
| `FinalEvents.EarlierFinalEventReached` | server/ops_impl.go:269-279 | after any run: two streams to one task reach a world where one worker closed with running while the other is still to complete the task |
| `FinalEvents.OnlyWritten` | server/tasks.go:100-107 | in every reachable state a task is running, in auth-required, completed or canceled, never failed; workers exist only where streaming is supported |
| `Lifecycle.NewStream` | server/ops_impl.go:105-122 | a request without demands starts one worker on one new running task |
| `Lifecycle.TerminalCanBeLeft` | server/ops_impl.go:149-152 | granularity (a): after any run, a stream, a cancel and one worker statement leave a terminal task running |
| `Lifecycle.AuthRequiredExplained` | server/ops_impl.go:61-68 | granularity (a): in every reachable state a task in auth-required carries the message of an earlier request on that task which required a token and brought none |
| `Lifecycle.MessageKeptAndCleared` | schema/events.go:57-60 | no worker statement drops the message; completion by message/send clears it |
| `Interleaving.ExecState` | server/ops_impl.go:48-68 | granularity (b): seen from a terminal task, each step leaves that state exactly if it reopens it, creates no new threat, and turns no request into a worker |
| `Interleaving.QuietForever` | server/ops_impl.go:48-56 | granularity (b): with nothing in flight a terminal task stays terminal through every further run, and no worker is started on it |
| `Interleaving.HazardStrikes` | server/ops_impl.go:96-122 | granularity (b): with anything in flight, a schedule of at most three steps takes it out of its terminal state |
| `Interleaving.FinalIffQuiet` | server/ops_impl.go:48-123 | granularity (b): terminal forever if and only if terminal with no worker before its first touch and no request between guard or creation and its write or worker start |
| `Interleaving.RunsAreGrounded` | server/tasks.go:48-53 | granularity (b): every run keeps the store intact and every thread on a stored task |
| `Settling.StreamsSettle` | server/ops_impl.go:81-158 | granularity (b): in every reachable state a streamed task whose workers all passed their completed touch is completed, canceled or in auth-required |
| `Settling.EndedUnlessAsked` | server/ops_impl.go:109-113 | granularity (b): a step keeps "settled tasks have ended" if and only if it is not a request, its guard past, asking for credentials on a settled task |
| `Settling.SettlingStep` | server/ops_impl.go:269-279 | granularity (b): the step law behind both, for any set of states with completed and canceled in it |
| `Settling.StreamMayCloseAsking` | server/ops_impl.go:109-113 | granularity (b): after any run a new stream may end with its task, and its final event, in auth-required |
| `FineFinalEvents.FinalEventLaw` | server/ops_impl.go:269-279 | granularity (b), for any worker still at work in any grounded world: through every further run its final event can only be an ending, if and only if its task is terminal with nothing in flight that could reopen it, and the state is an ending or the worker will make it one |
| `FineFinalEvents.ReachableFinalEvents` | server/ops_impl.go:81-123 | granularity (b), in every reachable state: the condition is that the task is terminal with nothing in flight that could reopen it |
| `FineFinalEvents.SafeForever` | server/ops_impl.go:48-56 | granularity (b): the condition, once met, is kept by every step |
| `FineFinalEvents.Spoiled` | server/ops_impl.go:96-122 | granularity (b): where the condition fails, a schedule ends in a final event that is no ending |
| `SettledForever.SettledLaw` | server/ops_impl.go:81-158 | granularity (b), streaming supported: through every further run a task has ended whenever its workers are done, if and only if it is terminal with nothing in flight that could reopen it, and that holds now |
| `Explanations.AuthRequiredExplained` | server/ops_impl.go:61-68 | granularity (b): in every reachable state a task in auth-required carries the message of a request that named or created it, required a token and brought none, or such a request is about to write it |
| `Explanations.ExecKnown` | server/ops_impl.go:37-78 | granularity (b): a request works only with what it brought, on the task it named or created |
| `AtomicHandlers.SoloIsServe` | server/ops_impl.go:37-158 | the separate guard, creation and write steps of one request, uninterrupted, are the atomic request: same store, same answer, same worker |
| `AtomicHandlers.AtomicIsSchedule` | server/ops_impl.go:37-158 | the same in a world with any other threads |
| `Simulation.RunMatched` | server/ops_impl.go:37-158 | every run at granularity (a) is matched, state for state, by a run at granularity (b) |
| `Artifacts.ArtifactStep` | server/ops_impl.go:71-76 | granularity (a): a stored task keeps its id and context, and its artifacts but for a completing send, which replaces them, and a worker's append, which extends them |
| `Artifacts.ReachableArtifacts` | server/ops_impl.go:71-276 | granularity (a): in every reachable state each artifact is named after its task; "ok" stands only first, all others are "processing..." |
| `Artifacts.ExecArtifacts` | server/ops_impl.go:71-76 | granularity (b): the step law |
| `Artifacts.FineReachableArtifacts` | server/ops_impl.go:71-276 | granularity (b): in every reachable state, the same |
| `Artifacts.SameTaskForever` | server/tasks.go:34-36 | granularity (b): through every further run a task keeps its id and context |
| `Conversations.ConversationLaw` | server/ops_impl.go:37-78 | after any number of valid sends to one live task, the answers are requests for credentials, then at most one completion, then refusals only; each request carries the message its own turn calls for, and the completion its one artifact |
| `Conversations.StoreSettles` | server/ops_impl.go:48-53 | from the completion on the whole store stays as it is |
| `Conversations.ExchangeFits` | server/ops_impl.go:37-78 | the invariant behind it: the task is open exactly until the first send that lacks nothing |
| `Conversations.RefusedSendChangesNothing` | server/ops_impl.go:43-53 | a refused send of any implementation leaves the whole store as it was |
| `Histories.HistoryIsDestuttered` | server/tasks.go:55-71 | for any puts of distinct objects, the recorded states are exactly the states put with repetitions removed, and end in the stored state |
| `Histories.HistoryLaw` | server/tasks.go:55-71 | hence the trace is non-empty for a stored task and never repeats a state |
| `Histories.PutRecords` | server/tasks.go:58-69 | one put appends its state unless the stored task has it already |
| `Histories.PutDates` | server/tasks.go:58-69 | an entry is dated by the task, or by the clock when a stored task is put without a date |
| `Histories.PutTouchesOnlyItsTask` | server/tasks.go:55-71 | a put changes its own task and trace, and nothing else |
| `Histories.DestutterLaw` | server/tasks.go:59 | what removing repetitions means: no repetition left, same last element |
| `Histories.HandlersRecordNothing` | server/ops_impl.go:63-75 | with put as one step: in every run of the handlers each history stays the creation entry alone, and is true of the task if and only if that is running |
| `RacyPuts.RecordsTheRace` | server/tasks.go:58-65 | a put of the stored object that loads its state twice records an entry if and only if the loads differ, and then exactly the state written in between |
| `RacyPuts.UndisturbedPut` | server/tasks.go:58-70 | without such a write it is the put of one step |
| `RacyPuts.CancelIsRecorded` | server/tasks.go:58-65 | a cancel between the two loads of a request that asked for credentials leaves the history running, canceled |
| `RacyPuts.RaceReached` | server/ops_impl.go:63-65 | granularity (b): after any run a request can stand at its put with a cancel about to write the same task |
| `PushConfigs.OperationRefines` | server/tasks.go:110-169 | add, find, list and delete on the nested maps are the same operations on one map keyed by both ids |
| `PushConfigs.SequenceRefines` | server/tasks.go:110-169 | so are all sequences of them, results included |
| `PushConfigs.Indistinguishable` | server/tasks.go:140-169 | stores with the same flat view, as with an absent or an emptied inner map, answer every sequence of operations alike |
| `PushConfigs.ListedIdsAreFound` | server/tasks.go:129-155 | a look-up succeeds for exactly the ids carried by the listed configurations |
| `PushConfigs.GeneratedIdsDiffer` | server/tasks.go:116-119 | over any run of requests generated ids are pairwise distinct across all tasks, below 2^64 adds |
| `PushConfigs.StoredWasAdded` | server/tasks.go:110-127 | whatever is stored under an id was added there by an earlier request |
| `PushConfigs.ReplacesOnlySupplied` | server/tasks.go:116-125 | an add without an id replaces an entry only if a client had supplied that very id on the same task |

## Left out

- The client package, the SSE and streaming transports, JSON-RPC mounting, authentication middleware and the command: thin wiring around the parts modelled. Sending an event means appending it to the worker's trace.
- Callbacks of `DefaultOperations`: they may answer with, or file, arbitrary tasks. The run theorems are about the built-in handlers; `CompleteText` and `put` alone are specified for arbitrary tasks.
- The background status notification of a streamed request for credentials (`server/ops_impl.go:114`): its context carries no session.
- JSON text: parameters arrive absent, malformed or decoded. Case-insensitive and repeated field names, the request bodies REST handlers build by string concatenation, and the encoding of parts are not modelled. A malformed payload is the one error code -32602 everywhere.
- REST beyond routing and ids: status codes, bodies, and the mux's own path cleaning. The model starts from the path as the handler sees it.
- The method table of `server/jsonrpc.go:140-159` as strings: a request is a constructor here. The table has no tasks/resubscribe; for the plain server that request stands for the REST subscribe route (`server/rest.go:71-89`).
- Push configurations are values: a caller that keeps the pointer it added and writes through it later is not captured.
- Artifacts have their one text part; contexts and roles are carried along without claims.
- Clocks: one reading for each handler call and each worker statement, where the source may read twice.
- Schema.Task.Touch: its two field writes, like the assignment of a whole status and the two writes of tasks/cancel, are one step at both granularities, so a reader between them is not captured. The read and the write of appending an artifact are one step too, so two workers that lose one of their artifacts are not captured.
- Histories.HandlersRecordNothing: takes each store operation as one step, `put` and its loads of the task's state included; `RacyPuts.RecordsTheRace` says what other loads record, but the runs do not interleave them.
- Data races on Go memory, and the locks inside the store.
- Equality of message/send, message/stream and tasks/resubscribe across implementations: they differ in the source, and each has its own specification.
- Numbering of error codes against the A2A specification: the codes are those of the source.
