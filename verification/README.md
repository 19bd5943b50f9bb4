# Verified model of the lab control plane

The repository runs network labs: a Go platform keeps labs, templates and subscribers, a Go worker
deploys them, and a TypeScript front end lets people draw a topology and turn it into containerlab
text and router configs. This project models the parts of it that carry state, protocols, arithmetic
or text transformations, and proves what they are meant to guarantee, for all inputs and all runs.

`dafny verify dfyconfig.toml` checks everything. Each loop and each object of the source is a method
or a class here, proved equal to a function of its inputs or of its old state; the theorems are
lemmas about those functions and about runs of them. Beside the main theorems, `PrintedText`, `ParserLaws`,
`SocketHistory`, `LabOutcomes`, `Interfaces`, `ScriptJoining`, `ScriptContexts`, `DocumentLaws` and `Profiles` say
in literal terms what each step produces.

| files | what they model |
|---|---|
| `Text`, `TopologyPrinter`, `PrintedText`, `TopologyParser`, `ParserLaws`, `TopologyRoundTrip` | the builder's containerlab text and the scanner that reads it back, character by character |
| `ChannelIndex`, `SubscriptionHub`, `LabSocket`, `SubscriptionAgreement`, `SocketHistory` | the WebSocket hub, the browser socket, and the two with a queue of messages between them |
| `Plan`, `LabLifecycle`, `LabInvariants`, `LabOutcomes`, `LabService` | labs under user calls, sweeps and late status callbacks |
| `RateLimit` | the sliding-window limiter, with slices that share an array |
| `AddressPlan`, `ScenarioConfig`, `Routing`, `Interfaces` | networks, interface addresses, router ids, AS numbers, BGP neighbours and static routes over any graph |
| `NosOverrides`, `ImageOverrides`, `ConfigDelivery`, `TierCheck`, `DeployPreparation`, `DocumentLaws`, `Profiles` | what a deployment prepares: image overrides of a decoded topology, the tier test and the config files sent along |
| `MotoPorts`, `RouterScript`, `ScriptJoining`, `ScriptContexts`, `Completions` | the port allocator, the RouterOS flattener and tab completion |

Some things the design suggests are false of the code. For each there is the exact condition under
which it does hold, and a run or an input at which it fails:

| expected | holds exactly when | fails at |
|---|---|---|
| only a deployment makes a creator's number of active labs grow, so the quota it tests holds | no callback of an old job revives an inactive lab: `GrowthIffRevival`, `Quota` | `LateCallbackBreaksQuota` |
| no dropped client listens to a channel, so a broadcast never meets a closed queue | the hub drops no client between the two halves of an unsubscription, and no client completes a subscription after its drop: `SafeIffNeverSpoiled` | `DroppedInSubscriptionListens`, `DroppedInUnsubscriptionListens` |
| a disconnected browser stays disconnected | no reconnect was scheduled and a socket had been made: `DisconnectIsFinalIff` | `DisconnectUndone` |
| flattening a flattened script changes nothing | every subcommand acts and no command but the last ends in a backslash: `FlattenIdempotentIff` | `SecondFlatteningDiffers` |
| the last config rewrite wins | the first was not for FRR, or the name has no colon and the binds are a list, absent or replaced: `LastRewriteWinsIff` | `FirstRewriteShows` |
| every gateway is some interface's address | the router has no self-link beside another link: `GatewaysOwnedIff` | `UnownedGateway` |
| every port handed out is free and on record | fewer than 1000 labs hold ports: `FallbackIffFull` | `CrowdedOut` |
| builder and platform give a node the same profile | the image is no mirrored FRR image that also mentions GoBGP: `BuilderAgreesIff` | `ProfilesDiffer` |
| a heavyweight profile counts as a heavyweight tier | the kind is not one of the two aliases `nokia_srlinux` and `sonic-vm`: `TierFollowsProfileIff` | these two kinds |
| every address is valid | at most 65024 links and 255 routers: `OctetsValidIff`, `LoopbacksValidIff` | the next link or router |

## Model

| member | source | states |
|---|---|---|
| TopologyPrinter.GenerateContainerlabYAML | frontend/app/src/lib/yaml-generator.ts:48-88 | the pushed lines, joined, are the printed text; TextLineByLine says what stands on its lines |
| PrintedText.TextLineByLine | frontend/app/src/lib/yaml-generator.ts:48-88 | for every state whose fields are on one line each: the name, two fixed lines, then for each node in order its name, kind and image, its two binds if it is an FRR node or its start-up config if it is a MikroTik, OpenWrt or FreeBSD node, and its commands as items in order, and then the links |
| PrintedText.ConfigLinesPrinted | frontend/app/src/lib/yaml-generator.ts:58-68 | which nodes get binds, which a start-up config, and which none, with the literal lines |
| TopologyPrinter.FindById | frontend/app/src/lib/yaml-generator.ts:80-81 | a node with that id if there is one, and nothing only if no node has it |
| TopologyParser.ParseContainerlabYAML | frontend/app/src/lib/yaml-parser.ts:31-124 | for any text the loops compute the reference reading `Parsed`, on which the theorems below are stated |
| TopologyParser.ScanNodeBlock | frontend/app/src/lib/yaml-parser.ts:64-93 | the scan with its pending node gives the nodes of the block in order, the pending one last |
| TopologyParser.CollectLinks | frontend/app/src/lib/yaml-parser.ts:97-121 | pushing links and interfaces in one pass gives the well-formed links and the nodes with each new interface added once |
| ParserLaws.CommentsChangeNoNode | frontend/app/src/lib/yaml-parser.ts:54-69 | a blank line or a comment anywhere in a text changes no node |
| ParserLaws.NameOpensNode | frontend/app/src/lib/yaml-parser.ts:76-84 | a name on the level of the names closes the node before and opens one of kind linux without an image, unless it is one of the property words |
| ParserLaws.PropertyLine | frontend/app/src/lib/yaml-parser.ts:86-92 | a deeper line changes the open node's kind or image if it gives one, and nothing else |
| ParserLaws.KeyGives | frontend/app/src/lib/yaml-parser.ts:88-91 | the value of a key is the word after it, whatever indentation precedes it |
| ParserLaws.StrayLine | frontend/app/src/lib/yaml-parser.ts:86-92 | a line between the two levels, or a deeper one before the first name, is ignored |
| ParserLaws.BlockEnds | frontend/app/src/lib/yaml-parser.ts:73-74 | a line no deeper than the nodes line ends the block, and the pending node is kept |
| ParserLaws.EndParts | frontend/app/src/lib/yaml-parser.ts:105-106 | of an endpoint only the first two parts count, and a missing one is empty |
| ParserLaws.LinkNeedsAllParts | frontend/app/src/lib/yaml-parser.ts:107-111 | a pair of endpoints is a link exactly when none of its four parts is empty |
| ParserLaws.SpacingIgnored | frontend/app/src/lib/yaml-parser.ts:97-99 | white space after the key and between the two texts makes no difference to the pair |
| ParserLaws.OtherLinesPassed | frontend/app/src/lib/yaml-parser.ts:35-37 | a line that does not start with the key has no influence on the name |
| TopologyRoundTrip.RoundTrip | frontend/app/src/lib/yaml-generator.ts:48-88 | parsing the printed text of any printable state gives back its trimmed name, its nodes in order with kind and image, its resolvable links in order, and for each node its link interfaces in first-use order without repeats |
| TopologyRoundTrip.InterfacesOfAnyText | frontend/app/src/lib/yaml-parser.ts:97-121 | in any text at all, the first node of a name gets exactly its interfaces of the parsed links, once each, in order of first use |
| TopologyRoundTrip.OnlyWordsReadBack | frontend/app/src/lib/yaml-parser.ts:22-29 | a node whose name, kind and image survive the round trip has a visible one-word name that is no property word, a visible one-word kind and a one-word image, so those conditions of the round trip cannot be dropped |
| TopologyRoundTrip.NodeScans | frontend/app/src/lib/yaml-parser.ts:66-91 | whatever node was pending and whatever follows, the printed lines of a node flush the pending one and leave exactly this node pending |
| RateLimit.RateLimiter.Allow | platform/internal/auth/ratelimit.go:35-58 | the new table and the answer are those of the value-level step, no array is shared between two keys, and only arrays of the limiter are written |
| RateLimit.RateLimiter.Cleanup | platform/internal/auth/ratelimit.go:60-78 | in whatever order the map is visited, every key keeps exactly its times after the cutoff and keys left without any are gone |
| RateLimit.Compact | platform/internal/auth/ratelimit.go:42-49 | compaction in place leaves the entries later than the cutoff, in order, at the front of the same array: nothing is overwritten before it is read |
| RateLimit.KeepTwice | platform/internal/auth/ratelimit.go:60-78 | dropping old times early loses nothing that a later cutoff keeps |
| RateLimit.StoredMatchesAccepted | platform/internal/auth/ratelimit.go:35-78 | after any run of requests and sweeps under a clock that never goes back, the stored times of a key are the accepted ones under every cutoff still to come |
| RateLimit.StoredAfterRequest | platform/internal/auth/ratelimit.go:35-58 | after a request the table holds for its key exactly the accepted times still in the window |
| RateLimit.StoredAfterSweep | platform/internal/auth/ratelimit.go:60-78 | after a sweep exactly the keys with an accepted time still in the window are left, with those times |
| RateLimit.RefinesFullHistory | platform/internal/auth/ratelimit.go:35-78 | every decision equals that of a limiter that keeps its full accepted history and never compacts or sweeps |
| RateLimit.RateBound | platform/internal/auth/ratelimit.go:35-58 | for every run, key and instant T, at most `limit` requests were let through in (T - window, T] |
| ChannelIndex.ArriveKeeps | platform/internal/ws/manager.go:217-229 | a new client, whose reader may start before the hub has registered it, leaves the index exact |
| ChannelIndex.RegisterKeeps | platform/internal/ws/manager.go:105-108 | registering a client leaves the index exact and the set of open queues as it was |
| ChannelIndex.ListenersRegistered | platform/internal/ws/manager.go:101-144 | while no registration is under way every listener is registered |
| ChannelIndex.UnregisterKeepsIff | platform/internal/ws/manager.go:110-125 | dropping a client takes it off every channel it is subscribed to and a repeated request changes nothing; the index stays exact unless the client is half way out of a channel it still listens to, and then a closed client is left there |
| ChannelIndex.BeginSubscribeKeeps | platform/internal/ws/manager.go:285-296 | the half of a subscription under the client's lock keeps the index exact up to the half-done pair |
| ChannelIndex.BeginUnsubscribeKeeps | platform/internal/ws/manager.go:306-309 | so does the half of an unsubscription under the client's lock |
| ChannelIndex.FinishKeepsIff | platform/internal/ws/manager.go:298-318 | the half under the hub's lock makes the pair agree again, unless it completes a subscription of a client already dropped, and then that closed client is a listener |
| ChannelIndex.ListensToItsSubs | platform/internal/ws/manager.go:285-319 | a client not dropped whose reader is between messages listens to exactly what it subscribed to |
| ChannelIndex.AlwaysExact | platform/internal/ws/manager.go:101-144 | in every interleaving without those two events, channels and subscriptions are exact inverses up to half-done pairs, no dropped client listens and no channel is empty |
| ChannelIndex.SafeIffNeverSpoiled | platform/internal/ws/manager.go:101-144 | throughout a run no dropped client listens if and only if no client is dropped half way through an unsubscription and none completes a subscription after its drop |
| ChannelIndex.DroppedInSubscriptionListens | platform/internal/ws/manager.go:294-303 | a client dropped between the halves of its subscription ends dropped and on the channel |
| ChannelIndex.DroppedInUnsubscriptionListens | platform/internal/ws/manager.go:306-319 | a client dropped between the halves of its unsubscription stays on the channel with no subscription left |
| ChannelIndex.WellFormedChannels | platform/internal/ws/manager.go:321-333 | a channel of one to three parts is accepted exactly when the first is lab, shell or status |
| ChannelIndex.MalformedChannels | platform/internal/ws/manager.go:321-333 | more than three parts, or another first part, are refused |
| ChannelIndex.OthersUntouched | platform/internal/ws/manager.go:101-144 | an operation of one client changes nothing for another |
| ChannelIndex.OwnEffect | platform/internal/ws/manager.go:285-319 | a client's subscriptions follow its requests and survive its drop, and a dropped client stays dropped |
| SubscriptionHub.SubsequenceGrows | platform/internal/ws/manager.go:127-141 | a message sent or lost keeps the queue an ordered subsequence of what was offered |
| SubscriptionHub.QueueConserves | platform/internal/ws/manager.go:131-139 | over every sequence of offers and deliveries, what was delivered and what waits are together exactly the messages that found fewer than 256 waiting, in order |
| SubscriptionHub.Client.TrySend | platform/internal/ws/manager.go:131-139 | a non-blocking send never exceeds 256 waiting messages and keeps everything delivered or waiting in broadcast order |
| SubscriptionHub.Client.Pump | platform/internal/ws/manager.go:275-283 | the write pump takes messages off the front, so delivered plus waiting is unchanged |
| SubscriptionHub.SendAll | platform/internal/ws/manager.go:130-140 | whatever the order, every target is offered the message exactly once and exactly the targets with a full buffer are reported; it panics exactly when some target's queue is closed |
| SubscriptionHub.Hub.Connect | platform/internal/ws/manager.go:217-229 | a fresh client with an empty, open queue is handed over for registration and everyone else is as before |
| SubscriptionHub.Hub.ReceiveRegister | platform/internal/ws/manager.go:105-108 | the client is registered, with whatever its reader has subscribed it to meanwhile |
| SubscriptionHub.Hub.ReaderEnds | platform/internal/ws/manager.go:231-235 | a reader that ends leaves one more unregister request |
| SubscriptionHub.Hub.ReceiveUnregister | platform/internal/ws/manager.go:110-125 | one request is taken; however many there are, a registered client's queue is closed by the first and never again, and the index is that without the client |
| SubscriptionHub.Hub.ReceiveBroadcast | platform/internal/ws/manager.go:127-141 | it panics exactly when some listener has been dropped; otherwise exactly the channel's listeners are offered the message, each of them with a full buffer gets one unregister request, and no index entry changes |
| SubscriptionHub.Hub.BroadcastToAll | platform/internal/ws/manager.go:171-194 | exactly the registered clients are offered the message; a full queue loses it |
| SubscriptionHub.Hub.BeginSubscribe | platform/internal/ws/manager.go:285-296 | the client's side gains the channel and the other half is to come, unless the channel is malformed |
| SubscriptionHub.Hub.EndSubscribe | platform/internal/ws/manager.go:298-303 | the channel gains the client, dropped or not |
| SubscriptionHub.Hub.BeginUnsubscribe | platform/internal/ws/manager.go:306-309 | the client's side loses the channel and the other half is to come |
| SubscriptionHub.Hub.EndUnsubscribe | platform/internal/ws/manager.go:311-318 | the channel loses the client and is deleted if that was its last listener |
| LabSocket.LabWebSocket.ConnectWith | frontend/app/src/lib/ws.ts:39-45 | without a token nothing happens; with one the socket is connecting and nothing else changes |
| LabSocket.LabWebSocket.FireTimer | frontend/app/src/lib/ws.ts:70 | a due reconnect is used up and connects, whether or not one is still wanted |
| LabSocket.LabWebSocket.OnOpen | frontend/app/src/lib/ws.ts:46-53 | one subscribe message for every active channel, in the order the map yields them, and the delay is reset |
| LabSocket.LabWebSocket.OnClose | frontend/app/src/lib/ws.ts:67-76 | a reconnect is scheduled exactly when it is wanted, and the delay doubles up to 30 seconds |
| LabSocket.LabWebSocket.AddHandler | frontend/app/src/lib/ws.ts:79-85 | the handler joins those of its channel, and a message is sent only for the first of a channel and only on an open socket |
| LabSocket.LabWebSocket.RemoveHandler | frontend/app/src/lib/ws.ts:87-95 | a message is sent only with the last handler of a channel, which then disappears from the map |
| LabSocket.LabWebSocket.Close | frontend/app/src/lib/ws.ts:107-111 | no reconnect is wanted any more and all handlers are gone, but a reconnect that is scheduled stays scheduled |
| SubscriptionAgreement.ServerApplyIsHub | platform/internal/ws/manager.go:285-319 | the server's half of the protocol is what the first half of the hub's work does to the client's side of its index, and the second half leaves that side alone |
| SubscriptionAgreement.NextAgrees | frontend/app/src/lib/ws.ts:46-95 | every single step of browser, network or hub preserves the agreement |
| SubscriptionAgreement.AlwaysAgree | frontend/app/src/lib/ws.ts:46-95 | in every reachable state with the socket open and the client not dropped, applying the messages in flight to the hub's subscriptions gives exactly the browser's valid channels, across any number of reconnects |
| SubscriptionAgreement.CaughtUp | platform/internal/ws/manager.go:231-252 | once nothing is in flight the two sides hold the same channels |
| SubscriptionAgreement.CaughtUpChannels | platform/internal/ws/manager.go:285-319 | once nothing is in flight or half done, the hub broadcasts to the client on exactly the valid channels the browser has handlers for |
| SubscriptionAgreement.DisconnectIsFinalIff | frontend/app/src/lib/ws.ts:107-111 | a disconnect leaves a scheduled reconnect scheduled, and keeps the socket from ever opening again if and only if none was scheduled and a socket had been made |
| SubscriptionAgreement.DisconnectUndone | frontend/app/src/lib/ws.ts:67-76 | a lost socket, a disconnect during the wait and the pending reconnect end with an open socket nobody wants |
| SubscriptionAgreement.AlwaysInOrder | frontend/app/src/lib/ws.ts:39-111 | in every run the status follows the socket, a reconnect is scheduled only for a closed socket, no channel is without handlers, and the delay is one of 1, 2, 4, 8, 16 and 30 seconds |
| SocketHistory.HandlersExact | frontend/app/src/lib/ws.ts:79-111 | after every run a channel has exactly the handlers that were added to it and since then neither removed nor cleared by a disconnect |
| SocketHistory.WireStep | frontend/app/src/lib/ws.ts:79-105 | the first handler of a channel and the removal of its last one put one message on an open socket, and nothing else a handler does puts any on any socket |
| SocketHistory.OpenedWire | frontend/app/src/lib/ws.ts:46-53 | a new socket starts with one subscribe message for each channel with handlers, in order, and no other |
| SocketHistory.DelayDoubles | frontend/app/src/lib/ws.ts:67-76 | after every run the next delay is one second doubled for each loss in a row since a socket last opened, at most thirty seconds |
| SocketHistory.TimerStep | frontend/app/src/lib/ws.ts:67-76 | a reconnect is scheduled by the loss of a socket while one is wanted, is used up when due, and only a disconnect ends the wanting |
| SocketHistory.PhaseStep | frontend/app/src/lib/ws.ts:39-77 | which event moves the socket to which state |
| LabServices.LabService.Create | platform/internal/domain/lab/service.go:80-118 | the store gains one scheduled lab with an empty event list |
| LabServices.LabService.Delete | platform/internal/domain/lab/service.go:201-221 | an active lab is refused, any other is removed |
| LabServices.LabService.Deploy | platform/internal/domain/lab/service.go:248-352 | the whole new store and the reply, for every order of refusals, plan limits, preparations and worker answers; a payload is sent exactly with a successful reply, and it is the overridden definition with the files its nodes want |
| DeployPreparation.Prepare | platform/internal/domain/lab/service.go:279-310 | a deployment is prepared exactly when the definition loads and, for a network lab, every image can be overridden, every node is within the plan and the files load; then the final document and its files are sent |
| DeployPreparation.PreparedIsPermitted | platform/internal/domain/lab/service.go:286-310 | a network lab that can be deployed runs no overridden image beyond the plan, and gets every file the template has for the profile of an overridden node |
| DocumentLaws.CloudPreparation | platform/internal/domain/lab/service.go:279-287 | a cloud lab needs its definition only, and is sent it unchanged without files |
| DocumentLaws.PlainPreparation | platform/internal/domain/lab/service.go:295-310 | without image choices the definition is sent unchanged, if the files load and every node is within the plan |
| DocumentLaws.ChosenPreparation | platform/internal/domain/lab/service.go:287-310 | with image choices every choice has to be possible and the tier test is made on the overridden document |
| LabServices.LabService.Destroy | platform/internal/domain/lab/service.go:627-678 | the whole new store and the reply; DestroyDoneIff, DestroyEnds and DestroyJobs say what they are |
| LabOutcomes.DestroyJobs | worker/internal/api/handlers.go:224-283 | the job of a destruction will report stopping and then stopped or failed with its error, a failed call reports failed, and without a reachable worker no job is started |
| LabOutcomes.DestroyEnds | worker/internal/api/handlers.go:224-283 | a destruction whose job succeeds ends with the lab stopped, one whose job or call fails with the lab failed for that reason, and one without a reachable worker stops it at once |
| LabOutcomes.DestroyDoneIff | platform/internal/domain/lab/service.go:627-640 | a destruction goes through exactly for a running, deploying or failed lab, and otherwise changes nothing |
| LabOutcomes.DeployJobs | worker/internal/api/handlers.go:122-203 | the job of a deployment will report deploying and then running or failed with its error; a failed call reports failed |
| LabOutcomes.DeployEnds | worker/internal/api/handlers.go:122-203 | a deployment whose job succeeds ends with the lab running, and one whose job or call fails with the lab failed for that reason |
| LabOutcomes.DeployDoneIff | platform/internal/domain/lab/service.go:248-284 | a deployment goes through exactly for a scheduled, failed or stopped lab whose creator has fewer than 1, 3 or 10 active labs on the free, light or heavy plan, with a worker and everything prepared; otherwise nothing changes |
| LabOutcomes.RefusalReasons | platform/internal/domain/lab/service.go:248-299 | a refused deployment, destruction or deletion is told the first reason that applies: unknown lab, wrong state, plan limit, no worker, not prepared |
| LabOutcomes.DeployRecords | platform/internal/domain/lab/service.go:312-326 | worker, clab name, time and event of a deployment, with any old error gone |
| LabOutcomes.OnlyDeployPromisesRunning | worker/internal/api/handlers.go:122-203 | a job that will report a lab running is started by a deployment of that lab and by nothing else |
| LabOutcomes.DeleteDoneIff | platform/internal/domain/lab/service.go:201-221 | a lab is deleted exactly when it is neither running nor being deployed, and its audit stays |
| LabOutcomes.CreateDoneIff | platform/internal/domain/lab/service.go:80-118 | a new lab is scheduled, has no history, and nothing else changes |
| LabOutcomes.ReportRecords | platform/internal/domain/lab/service.go:681-696 | a report is taken over with state, error and time, and with a stop time exactly for a stopped lab |
| LabOutcomes.ReportAudits | platform/internal/domain/lab/service.go:698-716 | the event a report adds: deployed, destroyed, the failure of a deployment with its error, or the change as it is |
| LabOutcomes.UnstickCases | platform/internal/domain/lab/service.go:963-985 | the sweep fails a deployment and ends a destruction saved before the cutoff, and leaves every other lab alone |
| LabOutcomes.DeliveryTakesOnePush | worker/internal/api/handlers.go:122-283 | a delivery uses up the next push of its job; a lost one changes no lab |
| LabOutcomes.StepTouchesOneLab | platform/internal/domain/lab/service.go:627-716 | no step changes a lab or an event list other than that of the lab it is about |
| LabOutcomes.HistoryOnlyGrows | platform/internal/domain/lab/service.go:681-716 | creator and organisation of a lab never change and its events are only added to |
| LabServices.LabService.UpdateState | platform/internal/domain/lab/service.go:681-716 | any status reported for a known lab is stored with its stop time and its audit event, and an unknown lab changes nothing |
| LabServices.LabService.PauseAllLabs | platform/internal/domain/lab/service.go:944-959 | the creator is left with no running or deploying lab, the count returned is exactly the number there was, every other lab and event list is unchanged, and the result is that of one Destroy a lab |
| LabServices.LabService.CleanupStuckLabs | platform/internal/domain/lab/service.go:963-985 | every lab deploying since before the threshold becomes failed with the time-out message, every one stopping since then stopped, each with its event, and no other lab or event list changes |
| LabServices.DestroyPauses | platform/internal/domain/lab/service.go:944-959 | destroying one active lab succeeds and removes exactly it from the creator's active labs |
| LabServices.UnstickSweeps | platform/internal/domain/lab/repository.go:184-189 | a lab still to visit is still stuck when the sweep comes to it, and the visit leaves the others alone |
| LabInvariants.NextKeepsLabs | worker/internal/api/handlers.go:122-283 | every call, sweep, late callback and lost callback keeps each lab's fields in step with its state and each job's pushes proper |
| LabInvariants.AlwaysInOrder | platform/internal/domain/lab/service.go:681-716 | in every reachable store a lab that is not scheduled has worker, clab name and deploy time, a stopped one a stop time, a failed one an error, and scheduled, deploying, running and stopped ones none |
| LabInvariants.NeverScheduledAgain | platform/internal/domain/lab/service.go:254-256 | a lab that has left the scheduled state is never scheduled again in any continuation of any run |
| LabInvariants.AuditReplays | platform/internal/domain/lab/service.go:681-716 | after every run, folding a lab's events from scheduled gives its stored state, and each "a -> b" entry starts at the state replayed so far |
| LabInvariants.OnlyDeployOrRevivalActivates | platform/internal/domain/lab/service.go:627-716 | no step but a deployment or a callback to an inactive lab adds to a creator's active labs |
| LabInvariants.DeployWithinLimit | platform/internal/domain/lab/service.go:258-269 | a deployment keeps the creator within any limit its plan does not exceed |
| LabInvariants.QuotaWithin | platform/internal/plan/plan.go:44-71 | in every run without reviving callbacks whose deployments all run under plans of at most that limit, the creator stays within it |
| LabInvariants.Quota | platform/internal/domain/lab/service.go:258-269 | in every run without reviving callbacks no creator has more than 10 active labs, nor more than a plan allows when all deployments stay on it |
| LabInvariants.RevivalAdds | platform/internal/domain/lab/service.go:681-716 | a callback that revives a lab adds exactly that lab to its creator's active ones |
| LabInvariants.GrowthIffRevival | platform/internal/domain/lab/service.go:681-716 | a step that is no deployment makes a creator's number of active labs grow exactly when it is a reviving callback for a lab of that creator |
| LabInvariants.LateCallbackBreaksQuota | worker/internal/api/handlers.go:122-203 | a run on the free plan, within its limit at every deployment, ends with two active labs |
| AddressPlan.AllocateSubnets | frontend/app/src/lib/config-generator.ts:28-46 | the table maps each link id to the subnet of its last position |
| AddressPlan.AllocateLoopbacks | frontend/app/src/lib/config-generator.ts:48-55 | the table maps each router id to the loopback of its last position |
| AddressPlan.AllocateASNumbers | frontend/app/src/lib/config-generator.ts:57-63 | the table maps each router id to 65001 plus its last position |
| AddressPlan.NetworkInjective | frontend/app/src/lib/config-generator.ts:35-37 | two positions never print as the same network text |
| AddressPlan.AddressesDistinct | frontend/app/src/lib/config-generator.ts:38-43 | two link ends have the same address text only if they are the same end of the same link |
| AddressPlan.SubnetOfLink | frontend/app/src/lib/config-generator.ts:28-46 | with distinct link ids the i-th link gets the i-th network |
| AddressPlan.LastLinkCounts | frontend/app/src/lib/config-generator.ts:28-46 | of several links with one id the last one's network is the one kept |
| AddressPlan.LastRouterCounts | frontend/app/src/lib/config-generator.ts:48-63 | of several routers with one id the last one's numbers are the ones kept |
| Interfaces.DecimalReadsBack | frontend/app/src/lib/config-generator.ts:37 | reading a printed number gives the number |
| Interfaces.PlanTexts | frontend/app/src/lib/config-generator.ts:35-51 | a network's text is 10 and two numbers, position / 255 + 1 and position % 255, and a loopback's is the router's position four times |
| AddressPlan.OctetsValidIff | frontend/app/src/lib/config-generator.ts:35-36 | all octets of the first n networks are at most 255 exactly when n is at most 65024 |
| AddressPlan.NumbersDistinct | frontend/app/src/lib/config-generator.ts:48-63 | distinct routers get distinct AS numbers and distinct loopbacks |
| AddressPlan.LoopbacksDistinct | frontend/app/src/lib/config-generator.ts:48-55 | two positions never print as the same loopback text |
| AddressPlan.LoopbacksValidIff | frontend/app/src/lib/config-generator.ts:51 | the first n loopbacks are valid addresses exactly when n is at most 255 |
| ScenarioConfig.GetNodeLinks | frontend/app/src/lib/config-generator.ts:75-103 | the links of a node in link order, with the source end taken first; SourceAddressed and TargetAddressed say which interface gets which address |
| Interfaces.SourceAddressed | frontend/app/src/lib/config-generator.ts:84-91 | in every router and host config the source of a link has the first address of its network, on the interface the link names for the source |
| Interfaces.TargetAddressed | frontend/app/src/lib/config-generator.ts:92-100 | the target, unless it is the source too, has the second one, on the interface the link names for the target |
| Interfaces.AddressesExact | frontend/app/src/lib/config-generator.ts:75-103 | a router or host has no other addresses than those |
| Interfaces.AddressesOnce | frontend/app/src/lib/config-generator.ts:75-103 | and none of them twice |
| Interfaces.RouterKinds | frontend/app/src/lib/config-generator.ts:105-108 | the nodes that are routers, by kind and image |
| Interfaces.WhoSpeaksWhat | frontend/app/src/lib/config-generator.ts:388-424 | OSPF is for MikroTik and FRR, BGP for these and GoBGP, every other router gets static routes, and nobody gets two of the three |
| Interfaces.OspfNetworks | frontend/app/src/lib/config-generator.ts:190-192 | an OSPF router announces exactly the networks of its links |
| Interfaces.RouterIdOf | frontend/app/src/lib/config-generator.ts:385-386 | the k-th router's id is the k-th loopback and its AS number 65001 + k |
| Interfaces.LinkedHosts | frontend/app/src/lib/config-generator.ts:428-433 | the hosts that get a config are those with a link |
| ScenarioConfig.CollectNeighbors | frontend/app/src/lib/config-generator.ts:213-217 | one neighbour for each link whose peer has another AS number |
| ScenarioConfig.CollectRoutes | frontend/app/src/lib/config-generator.ts:237-244 | for each link, the peer's other networks via the peer's address |
| ScenarioConfig.GenerateScenarioConfigs | frontend/app/src/lib/config-generator.ts:361-436 | one config for each router in node order and one for exactly those hosts that have a link, each the one its node's kind and the scenario call for |
| Routing.NodeSeesItsLinks | frontend/app/src/lib/config-generator.ts:75-103 | a node sees exactly the links that have it as an end, with the addresses of those links |
| Routing.InterfaceAddressesDistinct | frontend/app/src/lib/config-generator.ts:75-103 | over all (node, link) pairs the interface addresses are pairwise distinct |
| Routing.EndsAgree | frontend/app/src/lib/config-generator.ts:84-100 | the two ends of a link see one network, and each sees the other's address as remote |
| Routing.NeighborsExact | frontend/app/src/lib/config-generator.ts:146-151 | a BGP router's neighbours are exactly the routers at the other ends of its links, each with its address on that link and its own AS number |
| Routing.NeighborsOnce | frontend/app/src/lib/config-generator.ts:213-217 | no neighbour is listed twice |
| Routing.BothSidesPeer | frontend/app/src/lib/config-generator.ts:213-217 | over every link between two BGP routers each side names exactly the address that the other side's config puts on an interface and the AS number it gives itself, and the two numbers differ |
| Routing.RouterIdsDistinct | frontend/app/src/lib/config-generator.ts:385 | no two routers' configs name the same router id |
| Routing.ConfiguresItsEnd | frontend/app/src/lib/config-generator.ts:205-209 | a router's config puts the planned address on its interface for each of its links |
| Routing.RoutesExact | frontend/app/src/lib/config-generator.ts:166-173 | for any graph, a static route is listed exactly for a link, a router peer on it and another link of that peer |
| Routing.RoutesOnce | frontend/app/src/lib/config-generator.ts:166-173 | no static route is listed twice |
| Routing.RoutesCorrect | frontend/app/src/lib/config-generator.ts:237-244 | without self-links each gateway is an adjacent router's address on the shared link, that router is in the destination network, and every other network of every adjacent router is routed |
| Routing.GatewaysOwnedIff | frontend/app/src/lib/config-generator.ts:84-91 | every gateway of a router is some interface's address if and only if the router has no self-link beside another link |
| Routing.UnownedGateway | frontend/app/src/lib/config-generator.ts:84-91 | in every scenario, a router with a self-link and a link to a host routes via 10.1.1.2, which no interface has |
| Routing.HostRoutesExact | frontend/app/src/lib/config-generator.ts:346-355 | a host routes exactly to the other networks of the router at the far end of its first link |
| Routing.HostDefaults | frontend/app/src/lib/config-generator.ts:341-345 | without self-links a host's default gateways are exactly the addresses at the far ends of its links |
| NosOverrides.NodeData.RewriteNodeConfig | platform/internal/domain/lab/service.go:564-610 | the node is left with its foreign binds and the delivery of the new profile, all other fields unchanged |
| NosOverrides.UnrelatedBindsKeepOrder | platform/internal/domain/lab/service.go:575-590 | every foreign bind survives, at the position given by the foreign binds before it |
| NosOverrides.DeliveredBindsAreOwn | platform/internal/domain/lab/service.go:613-624 | the delivered FRR binds are recognised as the node's own exactly when its name has no colon |
| NosOverrides.LastRewriteWinsIff | platform/internal/domain/lab/service.go:564-610 | rewriting for k1 and then k2 is rewriting for k2 alone if and only if k1 is not FRR, or the node's name has no colon and its binds are a list or absent or k2 is FRR too |
| NosOverrides.FirstRewriteShows | platform/internal/domain/lab/service.go:564-610 | two nodes for which a rewrite for OpenWrt differs after one for FRR: one keeps FRR binds, one loses its own |
| Profiles.PlatformProfiles | platform/internal/domain/lab/service.go:456-480 | which kind and image give which profile, and that there is no other |
| Profiles.BuilderAgreesIff | frontend/app/src/lib/yaml-generator.ts:34-46 | a profile the builder gives is the platform's too if and only if the image is no mirrored FRR image that also mentions GoBGP |
| Profiles.ProfilesDiffer | frontend/app/src/lib/yaml-generator.ts:34-46 | an image that is GoBGP for the builder and FRR for the platform |
| Profiles.BuilderAndRewriteDeliverTheSame | platform/internal/domain/lab/service.go:564-610 | for one profile, the lines the builder prints name the same start-up config or the same two binds as the platform's rewrite leaves in the node |
| Profiles.OwnBinds | platform/internal/domain/lab/service.go:613-624 | the six bind sources that count as a node's own |
| Profiles.StartupConfigs | platform/internal/domain/lab/service.go:592-609 | the start-up config each profile gets, and the profiles that get none |
| Profiles.OtherFieldsKept | platform/internal/domain/lab/service.go:564-610 | a rewrite touches the start-up config and the binds and nothing else |
| ImageOverrides.ApplyImageOverrides | platform/internal/domain/lab/service.go:396-452 | whatever order the image map is visited in, the call succeeds exactly when every node can be overridden, then gives one and the same document, and otherwise names a node without a section or, if it has one, with an unknown image |
| DocumentLaws.OverrideChangesOnlyItsNodes | platform/internal/domain/lab/service.go:416-437 | every chosen node gets the kind and image of its choice, and every other node and every other part of the document is kept |
| DocumentLaws.OverrideRewritesLinks | platform/internal/domain/lab/service.go:440-445 | the links are rewritten for exactly the nodes that become SR Linux, and the rest of the topology section is kept |
| DocumentLaws.BothEndsRewritten | platform/internal/domain/lab/service.go:509-524 | both ends of a link are rewritten, its other fields kept, and what is no link of two ends is left as it is |
| DocumentLaws.EndRewritten | platform/internal/domain/lab/service.go:493-508 | node:ethN becomes node:e1-N for the given nodes and any other endpoint is kept |
| ImageOverrides.OrderDoesNotMatter | platform/internal/domain/lab/service.go:416-445 | a fold over any order of any set of the images succeeds exactly when each of them does and gives a result in which the order does not occur |
| ImageOverrides.AnyTwoOrders | platform/internal/domain/lab/service.go:416-445 | two orders of the same images succeed together and then give the same nodes |
| ImageOverrides.EndpointLaws | platform/internal/domain/lab/service.go:483-525 | the SR Linux rewrite keeps an endpoint's node, does nothing the second time, and changes exactly the eth interfaces of overridden nodes |
| ImageOverrides.LinkRewriteIdempotent | platform/internal/domain/lab/service.go:483-525 | rewriting the links of a whole topology twice is rewriting them once |
| ImageOverrides.NoSrlNoRewrite | platform/internal/domain/lab/service.go:440-445 | calling the link rewrite for no node would change nothing, so skipping it is harmless |
| ImageOverrides.RewriteLinksForSRL | platform/internal/domain/lab/service.go:483-525 | every link with two endpoints is rewritten end by end and every other entry is kept |
| ConfigDelivery.ExtractNosKinds | platform/internal/domain/lab/service.go:528-560 | the profiles some node of the document has and no others, each listed once |
| ConfigDelivery.GetBindFilesForNos | platform/internal/domain/template/loader.go:54-77 | the files that are universal or tagged with one of the profiles, the later of two with one path |
| ConfigDelivery.DeliveredExactly | platform/internal/domain/lab/service.go:301-306 | the paths sent are exactly those of files that are universal or tagged with a profile some node uses, or all of them when no profile is in use |
| DocumentLaws.ContentSent | platform/internal/domain/template/loader.go:54-77 | for a path the content of its last file is sent that is universal or of a wanted kind |
| DocumentLaws.KindsInUse | platform/internal/domain/lab/service.go:542-553 | the profiles in use are those of the document's nodes, as their kind and image texts give them |
| ConfigDelivery.RewrittenRefersTo | platform/internal/domain/lab/service.go:564-624 | a rewritten node refers to exactly its profile's config files and to no other file of its own, unless the profile is FRR and the name has a colon, and then to none |
| ConfigDelivery.OverriddenKind | platform/internal/domain/lab/service.go:416-437 | in the overridden document a node has the profile of the image it was given, the link rewrite notwithstanding |
| ConfigDelivery.DeliveryClosure | platform/internal/domain/lab/service.go:301-306 | every file the template has under an overridden node's new profile is among the files sent, whatever the node's name; the node refers to exactly its profile's config files, unless it runs FRR and has a colon in its name |
| TierCheck.CheckNosTiers | platform/internal/domain/lab/service.go:355-382 | in whatever order the nodes are visited, the deployment is refused exactly when some node's NOS is beyond the plan, and the refusal names such a node |
| DocumentLaws.EveryNodeTested | platform/internal/domain/lab/service.go:369-381 | every node of the document is tested by its kind and image texts, overridden or not |
| Profiles.TierFollowsProfileIff | platform/internal/plan/plan.go:26-42 | a node's tier follows its profile, except that the alias kinds of the two heavyweight profiles count as lightweight |
| Profiles.PlanLimits | platform/internal/plan/plan.go:44-71 | 1, 3 and 10 active labs on the three plans, and an unknown plan is the free one |
| TierCheck.MinPlanIsLeast | platform/internal/domain/lab/service.go:384-392 | the plan named in a refusal is the least one: a tier is allowed exactly under that plan and higher ones |
| TierCheck.HigherPlanPermitsMore | platform/internal/plan/plan.go:44-82 | a document that passes under a plan passes under every higher one |
| TierCheck.OverridesAreChecked | platform/internal/domain/lab/service.go:287-299 | if the overridden document passes, the plan allows the tier of every image that was chosen, so an override cannot get past the plan |
| MotoPorts.Service.AllocatePort | worker/internal/terraform/service.go:47-62 | the search loop records and returns the least free port, and without one records nothing and returns the first |
| MotoPorts.Service.StopMoto | worker/internal/terraform/service.go:95-109 | only a container that was removed gives its port back |
| MotoPorts.RecordedIsHandedOut | worker/internal/terraform/service.go:47-69 | after every run, looking a lab up finds 0 exactly when it holds no port, and the port just handed out to it exactly when fewer than 1000 labs hold ports or it already held the first port |
| MotoPorts.AlwaysSound | worker/internal/terraform/service.go:47-109 | over every sequence of allocations and releases recorded ports are pairwise distinct and in [15000, 16000) |
| MotoPorts.FallbackIffFull | worker/internal/terraform/service.go:47-62 | after every run the fallback is taken exactly when 1000 labs hold ports, and it hands out a port in use; otherwise the least free port is returned and recorded |
| MotoPorts.CrowdedOut | worker/internal/terraform/service.go:59-61 | after 1000 allocations the next lab is given a port in use, and nothing is recorded for it |
| RouterScript.JoinContinuationLines | worker/internal/clab/startup_config.go:266-279 | the loop that overwrites its last line is a fold of one joining step over the raw lines; the laws of ScriptJoining say what it gives |
| ScriptJoining.JoiningKeepsText | worker/internal/clab/startup_config.go:266-279 | for every text, the visible characters of the joined lines are those of the text, in order, without the backslashes that end continued lines |
| ScriptJoining.TwoLinesJoin | worker/internal/clab/startup_config.go:269-274 | a line ending in a backslash and the next are one line: the first without its trailing blanks, one space, the second trimmed |
| ScriptJoining.FirstTwoLinesJoin | worker/internal/clab/startup_config.go:269-274 | the same with more lines to follow, which may continue the joined line |
| ScriptJoining.ClosedLineStands | worker/internal/clab/startup_config.go:269-277 | a line that does not end in a backslash stands alone and does not influence the rest |
| ScriptJoining.ReturnIgnored | worker/internal/clab/startup_config.go:268 | a carriage return before the end of a line makes no difference |
| RouterScript.FlattenRSC | worker/internal/clab/startup_config.go:227-262 | the loop emits exactly the commands of the joined lines, each with the context in force |
| ScriptContexts.FlattenLineByLine | worker/internal/clab/startup_config.go:227-262 | each command is told from the lines above it alone: the line itself, or behind the nearest context line above, and nothing for blank lines, comments and contexts |
| ScriptContexts.WordsAct | worker/internal/clab/startup_config.go:240-250 | a line of words acts exactly when one of them is add, set, remove or print |
| RouterScript.OnlyLastJoinedLineOpen | worker/internal/clab/startup_config.go:266-279 | of the joined lines of any text only the last can end in a backslash |
| RouterScript.FlattenedCommands | worker/internal/clab/startup_config.go:227-262 | every command emitted is trimmed, visible, on one line and no comment |
| RouterScript.FlattenTwice | worker/internal/clab/startup_config.go:227-262 | flattening its own output changes nothing exactly when every command stands alone |
| RouterScript.FlattenIdempotentIff | worker/internal/clab/startup_config.go:227-262 | the same, told on the script: exactly when under a context each subcommand has an action word and no line that becomes a command, but the last, ends in a backslash |
| RouterScript.ActionOfBoth | worker/internal/clab/startup_config.go:240-260 | a context joined with a subcommand has an action word exactly when one of the two has |
| RouterScript.SecondFlatteningDiffers | worker/internal/clab/startup_config.go:227-262 | the script with lines "/a" and "b" flattens to one command, and that command flattens to nothing |
| Completions.GetCompletions | frontend/app/src/lib/completions.ts:112-144 | with two or more candidates the completed text extends the trimmed input, is a prefix of every candidate, case ignored, and no longer text is; with one it is that candidate and a space; with none the input |
| Completions.LongestCommonPrefix | frontend/app/src/lib/completions.ts:128-137 | the two nested loops end with a common prefix of all matches that no common text exceeds |

## Left out

- HTTP, authentication, Gin routing and JSON: a call is its decoded arguments, a reply its outcome.
- GORM and SQL: repositories are maps, saving succeeds, and each service call is one atomic step; the races of reads and saves in the real database, and the stale copy the sweep saves, are not modelled.
- Docker, containerlab, SSH, Terraform and the worker client: their outcomes are parameters (`Dispatch`, `JobResult`, `removed`), in every combination.
- The worker's `activeLabs` table and its capacity: the test and the insertion are separate critical sections, so no bound holds of concurrent requests.
- Node updates and logs pushed by worker jobs: only status pushes matter to a lab's state; a push may also be lost.
- Errors of the query for a creator's active labs, which the source ignores in one place: the query succeeds.
- Go's time type, its overflow and a clock that goes back: times are integers, and the runs of the limiter have a clock that never goes back.
- The hub reads a client's subscriptions without the client's lock while it drops the client: the read is one step here, and Go's own reaction to a map written meanwhile is not modelled.
- SubscriptionHub.Hub.ReceiveBroadcast: a panic ends the program; which listeners were served before it is left open.
- The shell handler, the status listeners and the dispatch of incoming messages to handlers.
- More than one live WebSocket object of a browser: `connect` is called once, for a new instance, and by the reconnect timer, as in the front end.
- The builder's conversion of a parsed topology into a new state with its counters and image matching, and the contents of default config files.
- Parsed nodes are values here; the source updates them in place, and nothing else refers to them.
- TopologyRoundTrip.OnlyWordsReadBack: shows the conditions on words to be needed; the conditions on embedded keys and on quotes are sufficient only.
- YAML decoding on the Go side: the overrides start from the decoded document.
- ConfigDelivery.GetBindFilesForNos: of two files with one path the later is sent, and which of two profiles it belongs to is not modelled; DeliveryClosure speaks of paths.
- The text lines that carry addresses, neighbours and routes, RouterOS interface numbers, OSPF areas and daemons files: a config is its addresses, router id, AS number, networks, neighbours and routes.
- ScenarioConfig.GenerateScenarioConfigs: GoBGP configs, which the source files among the host commands, are listed with the other routers.
- Unicode: text is compared character by character, and case mapping keeps the length.
- The dictionaries of tab completion and the choice among them.
