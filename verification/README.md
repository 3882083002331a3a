# Verified model of the gateway's concurrency and retry core

A Dafny model of the parts of the gateway where interleavings and control flow are subtle, with the
properties they are there for. `dafny verify dfyconfig.toml` checks all of it.

**Provider queues** (`MessageStore`, `QueueLife`, `Gateway`, then the proofs in `GatewayDuties`,
`GatewayCallers`, `GatewayFlow`, `GatewayTheorems`, `GatewayWindow`, `GatewayBilling`, `GatewayExample`). One transition
system of callers, workers, drain loops, `UpdateProvider`'s transfer, `RemoveProvider`, creation and
`Shutdown`, with one step per atomic action: a flag read, a send, a receive, the two halves of
`signalClosing`, a wait group's Done, a reply. A `select` with several ready cases is one step per case.
Messages, reply channels and their pools are explicit. The theorems are about every finite run.

**Retries** (`Failures`, `EncryptedReasoning`, `Backoff`, `KeySelectors`, `KeyPool`, `RetryEngine`,
`RetryTheorems`, `Fallbacks`, `SessionStickiness`). `RetryEngine.Execute` is the loop of
`executeRequestWithRetries` with its local variables; it is proved to produce exactly the attempts,
outcome and trail of a specification that looks at the attempts so far, and the properties are proved
about that specification. The provider's handler, the pool filter (which returns keys of its input), the
key selector (which returns one of its input or an error) and lower-casing are parameters.

**MCP connections** (`ExclusiveSlot`, `McpClient`, `McpGenerations`, `McpManager`). The
exclusive-operation slot as a transition system over its atomic map operations, and the lifecycle of a
client's connection with each section under the manager's lock as one step and the dial in between.

**Agent loop** (`Usage`, `AgentLoop`). `executeAgent` with the chat adapter; the model, the tools, the
client lookup and the completion order of parallel calls are parameters.

`Options`, `Floats` and `Sequences` hold what several of these share.

## Properties the code does not have

Each comes with a concrete run or input and with the exact condition under which the property holds.

- "Every enqueued request is answered": `SomeRequestIsNeverAnswered` is a run that strands one. Of a queue
  swept empty that no worker, controller or drain loop will look at again, every request is settled or
  moved on, in every continuation, exactly when no caller is past its closing check; otherwise some
  continuation loses one (`ServedIff`). A queue swept by Shutdown is still routed and a later removal may
  sweep it again; for it the condition decides whether the queue stays empty (`SweptQueueStaysEmptyIff`). A
  worker's panic and a caller that left are further ways a request ends without a reply; both are steps of
  the model.
- "The result of an abandoned request is always billed": the reply slot of a caller that has given up is
  free, so the worker may put the result there, and then nobody runs the hooks (`SomeResultIsNeverBilled`).
  They run exactly when the worker takes the cancellation case (`BilledIff`), and at any such moment both
  cases are ready (`BothCasesReady`).
- "All requests of a session use one key": a stale ID left in the store, which two requests read before
  either deletes it, lets the slower one delete the faster one's choice (`StaleDisagrees`); an empty key
  ID breaks it too. `AgreeIff` is the exact condition.
- "A late check cannot touch a replaced connection": true within one map entry's lifetime
  (`StaleWriterChangesNothing`), but generations restart with a new entry, and a client connected from
  scratch is always at generation 2, so a check that outlives a removal and re-addition writes the old
  connection's tools (`StaleToolsAfterReAdd`). `WriteBackIff` is the exact condition.
- "Only EnableClient takes a client out of Disabled" and "a disabled client has no tools":
  `DisabledClientTurnsHealthy` and `DisabledClientGetsTools` are runs against them; `WhoLeavesDisabled` and
  `WhoGivesADisabledClientTools` say exactly which steps do it.
- "Backoff doubles up to the maximum": the 64-bit product wraps (`OverflowExample`); `BaseIsIdealIff` is
  the exact condition. The upper bound holds regardless.

## Where code and comments differ

The model follows the code.

- core/bifrost.go:7566-7578 argues that a value landing in the abandoned branch cannot also have been
  delivered because of a rendezvous. Reply channels have one buffer slot, so the hooks run at most once
  (`AtMostOneReply`) but not always (`BilledIff`).
- core/bifrost.go:8822 calls the error channel freshly allocated per request. It is pooled; that its slot
  is empty at every send is proved instead (`ReplySlotIsFree`).
- core/mcp/agentadaptors.go:294-299 says that the finish reason "stop" makes the response count as having
  no tool calls. It counts as having some exactly when calls are pending (`CombinedStillHasCalls`).
- core/bifrost.go:5382-5394 reads the error field of a failed fallback without a nil check, unlike the
  check of the primary's error; `HandleRequest` has a panic as outcome there.

## Model

| member | source | states |
|---|---|---|
| MessageStore.ExactlyOnePlace | core/bifrost.go:8756-8875 | every allocated message is in the pool, in one goroutine's hand, in one slot of one queue, or settled, and in no second place |
| MessageStore.ChannelsNotShared | core/bifrost.go:8756-8788 | two messages outside the pool share no reply channel, and hold none that is in the channel pools |
| MessageStore.SlotsEmptyUntilSettled | core/bifrost.go:8791-8830 | a message that is queued or in hand has an empty slot on each of its reply channels |
| MessageStore.AcquireKeepsValid | core/bifrost.go:8756-8788 | getChannelMessage, with pooled or new message and channels, keeps the places and channels consistent |
| MessageStore.ReturnKeepsValid | core/bifrost.go:8833-8875 | a producer that gives an unsent message back keeps them consistent, and the message has its channels |
| MessageStore.RecycleKeepsValid | core/bifrost.go:8833-8875 | so does a caller that releases its answered message |
| MessageStore.OfferKeepsValid | core/bifrost.go:5838-5841 | a send into a queue with room keeps them consistent: capacity, distinctness, first in first out |
| MessageStore.TakeKeepsValid | core/bifrost.go:7035-7040 | so does a receive |
| MessageStore.SettleKeepsValid | core/bifrost.go:7510-7560 | so does letting go of a message after at most one send on its channels |
| QueueLife.RemovalWaitsForEveryGeneration | core/bifrost.go:3800-3841 | when RemoveProvider may delete the routing entry, every worker of every generation of the provider has called Done |
| QueueLife.ShutdownWaitsForEveryWorker | core/bifrost.go:9325-9359 | once Shutdown has finished waiting, every worker of every provider has called Done, unless a provider was created meanwhile |
| QueueLife.DeskKept | core/bifrost.go:3880-4075 | every step of create, update, remove, worker and cleanup keeps: wait groups count the unfinished workers, the retired counter counts the unfinished cleanups, running workers are reachable from the routed queue, the update or a cleanup |
| QueueLife.LifeKept | core/bifrost.go:9325-9359 | with Shutdown and all providers: the global cleanup counter counts unfinished cleanups, routed queues are open before Shutdown, what Shutdown waited for stays silent |
| QueueLife.UnstaffedStable | core/bifrost.go:4047-4069 | a signalled queue whose workers are gone and that nobody is staffing stays so |
| QueueLife.DutyEffect | core/bifrost.go:7022-7065 | a control step changes what no other goroutine than its own holds or sweeps |
| GatewayDuties.DutiesAfterWork | core/bifrost.go:7035-7065 | a worker step keeps: goroutines hold a message exactly between taking and settling it, and sweep exactly where their program counter says |
| GatewayDuties.DutiesAfterDrain | core/bifrost.go:8806-8830 | the same for a step of a drain loop |
| GatewayDuties.DutiesAfterMove | core/bifrost.go:3996-4037 | the same for a step of the transfer |
| GatewayDuties.DutiesAfterControl | core/bifrost.go:3880-4075 | the same for a step of a controller, cleanup or Shutdown |
| GatewayCallers.BaseAfterCall | core/bifrost.go:5810-5974 | a caller's step keeps: its message is where it believes it is, settled at most once, hooks at most once |
| GatewayCallers.BaseAfterWork | core/bifrost.go:7504-7560 | the same for a worker, with a reply, a caller that left, or a panic |
| GatewayCallers.BaseAfterDrain | core/bifrost.go:8806-8830 | the same for a drain loop |
| GatewayCallers.BaseAfterMove | core/bifrost.go:3996-4037 | the same for the transfer |
| GatewayCallers.HeldIsSent | core/bifrost.go:5966-5973 | a message in another goroutine's hand belongs to a caller that still waits or has gone, unsettled, with empty reply slots |
| GatewayCallers.ReplyNeverTimesOut | core/bifrost.go:7510-7560 | the five-second escape of a worker's reply send is never enabled |
| GatewayFlow.StepIsStep | core/bifrost.go:3992-4037 | every step has one of eight effects on the flow of messages, and changes nothing else about it |
| GatewayFlow.ArmedKept | core/bifrost.go:5810-5879 | a caller that can still send into a signalled queue passed its closing check before the signal |
| GatewayFlow.LateKept | core/bifrost.go:8791-8805 | what is found in a queue swept empty after its workers exited was sent by such a caller |
| GatewayFlow.SourceKept | core/bifrost.go:8806-8830 | a goroutine works for the same queue as long as it has the same message in hand |
| GatewayFlow.FlowKept | core/bifrost.go:3996-4037 | every request that went through a queue is still at it, was settled, or was moved to another queue that accounts for it |
| GatewayFlow.OrderKept | core/bifrost.go:3996-4037 | what an update has moved, with the message it has in hand, left the old queue and entered the new one in the same order |
| GatewayTheorems.StepKeepsInv | core/bifrost.go:5810-5879 | any enabled step of any goroutine keeps all of the above |
| GatewayTheorems.EveryMessageInOnePlace | core/bifrost.go:3992-4037 | in every reachable state each message is in exactly one place and in at most one slot of each queue |
| GatewayTheorems.QueuesAreBoundedFifos | core/bifrost.go:4710-4718 | in every reachable state no queue exceeds its capacity and what was received is a prefix of what was sent |
| GatewayTheorems.TransferKeepsOrder | core/bifrost.go:3992-4037 | in every reachable state what updates moved from one queue to another is a subsequence of what left the one and of what entered the other |
| GatewayTheorems.EveryRequestIsAccountedFor | core/bifrost.go:3992-4037 | in every reachable state every request that went through a queue is still at it, was settled, or was moved to a queue that accounts for it |
| GatewayTheorems.AtMostOneReply | core/bifrost.go:7504-7597 | in every reachable state a request was settled at most once and its post-LLM hooks ran at most once after it was enqueued |
| GatewayTheorems.ReplySlotIsFree | core/bifrost.go:7510-7560 | at every settling step the request is unsettled, its hooks have not run and all its reply slots are empty; the timeout is never taken |
| GatewayTheorems.PooledIsFree | core/bifrost.go:8833-8875 | no message in the pool is in a queue or in any hand, and it has no channels |
| GatewayTheorems.NobodyIsStuck | core/bifrost.go:8806-8830 | a worker serving a message and a drain loop that has taken one can always send an error reply at once |
| GatewayTheorems.RemovalIsLast | core/bifrost.go:3818-3841 | in every reachable state where RemoveProvider deletes the routing entry, no worker of any generation runs |
| GatewayTheorems.ShutdownIsLast | core/bifrost.go:9345-9359 | in every reachable state where Shutdown has finished waiting, no worker of any provider runs, given no concurrent creation |
| GatewayTheorems.OpenQueueKeepsItsWorkers | core/bifrost.go:7017-7033 | a worker, even one that panicked, leaves only a signalled queue |
| GatewayTheorems.UpdateReroutesCallers | core/bifrost.go:5813-5834 | a caller that found its queue closing is sent to the provider's current queue, another one and open, unless the provider is being removed or shut down |
| GatewayWindow.LateMessagesCheckedEarly | core/bifrost.go:8791-8805 | a message found in a queue after the final sweep belongs to a caller that, at the step of the run that first signalled the queue, was past its closing check |
| GatewayWindow.SealedForever | core/bifrost.go:191-204 | a swept queue with no caller past its closing check stays empty in every continuation |
| GatewayWindow.SweptQueueStaysEmptyIff | core/bifrost.go:8799-8805 | in every reachable state, a swept queue stays empty in every continuation if and only if no caller is past its closing check |
| GatewayWindow.SweptQueueIsAccountedFor | core/bifrost.go:8791-8830 | and if none is, every request that went through it was settled, moved on, or is in the hand of another drain loop of it |
| GatewayWindow.ServedIff | core/bifrost.go:8799-8805 | of a swept queue nobody will look at again: in every continuation every request that went through it is settled or moved on if and only if no caller is past its closing check; otherwise some continuation puts a request into it that stays there unanswered in every further continuation |
| GatewayWindow.StrandedMessageIsLost | core/bifrost.go:8799-8805 | a message left in a queue nobody will look at again stays there, with the same request, in every continuation, and the request is never sent a reply |
| GatewayBilling.BothCasesReady | core/bifrost.go:7513-7560 | in every reachable state where a worker serves a message whose non-streaming caller has given up, a reply of either kind and the cancellation case are both ready |
| GatewayBilling.BilledIff | core/bifrost.go:7566-7597 | the worker's next step settles that request, and its hooks have run once in every continuation if and only if that step is the cancellation case; otherwise they never run |
| GatewayWindow.GuardsAskNothingExtra | core/bifrost.go:5810-5879 | the bookkeeping the steps' guards mention is always there |
| GatewayExample.SomeRequestIsNeverAnswered | core/bifrost.go:3806-3841 | a concrete run with one provider, one worker and one caller after which the enqueued request is never answered, refuting that every enqueued request is |
| GatewayExample.SomeResultIsNeverBilled | core/bifrost.go:7545-7560 | a concrete run in which the caller gives up, the provider's result goes into the free reply slot, and the hooks run in no continuation |
| EncryptedReasoning.Strip | core/encryptedreasoning.go:100-146 | reports a change exactly when some item carries ciphertext, and returns the specified remainder (the input itself when nothing changed) |
| EncryptedReasoning.NothingToStrip | core/encryptedreasoning.go:138-142 | without ciphertext the rewrite is the identity |
| EncryptedReasoning.StripsAll | core/encryptedreasoning.go:78-99 | no ciphertext survives, and stripping twice is stripping once |
| EncryptedReasoning.StripKeepsTheRest | core/encryptedreasoning.go:80-86 | the output is the input in order with ciphertext removed, missing exactly the encrypted items without summary and content |
| Backoff.BaseIsIdealIff | core/utils.go:146-150 | the capped base is min(initial * 2^attempt, max) exactly when the product fits in 64 bits or wraps to at least the cap |
| Backoff.DelayBounds | core/utils.go:146-155 | while the product fits, a delay lies between four fifths of that (rounded down) and max |
| Backoff.NeverAboveMax | core/utils.go:152-155 | no delay exceeds max, overflow or not |
| Backoff.OverflowExample | core/utils.go:148-149 | with the default initial delay the 36th retry wraps negative and does not wait |
| Backoff.TotalWaitBound | core/utils.go:146-155 | delays of at most max sum up to at most their number times max |
| KeySelectors.WeightedRandom | core/keyselectors/weightedrandom.go:9-35 | the chosen position owns the random value; with non-negative weights a position is returned exactly on its winning values; a zero total chooses uniformly; no result exactly where the generator panics; the final fallback is unreachable |
| KeySelectors.OwnedOnce | core/keyselectors/weightedrandom.go:24-31 | with non-negative weights no second position owns the value |
| KeySelectors.SelectionIsProportional | core/keyselectors/weightedrandom.go:9-35 | a position has exactly as many winning values, those on which WeightedRandom returns it, as its weight in hundredths, none for weight zero |
| KeyPool.SelectKey | core/bifrost.go:7272-7317 | the rotating and the fixed keyProvider choose as specified and clear the used set exactly on a reset |
| KeyPool.Collect | core/bifrost.go:7273-7279 | the keys of the pool outside the exclusion set, in order |
| RetryEngine.Execute | core/bifrost.go:6449-6968 | attempts, outcome and trail are exactly those the step-by-step specification determines |
| RetryEngine.NextKey | core/bifrost.go:6461-6567 | selection at the head of an attempt settles the previous record's rotation flag, and only that one |
| RetryEngine.FailSoft | core/bifrost.go:6896-6911 | ciphertext is stripped exactly on the first non-retryable 400 rejection of a rewritable input that has some |
| RetryEngine.Exclude | core/bifrost.go:6917-6947 | a permanent failure goes to the dead set, any other per-key failure to the used set, nothing else to either |
| RetryTheorems.DeadKeyIsNeverCalledAgain | core/bifrost.go:6917-6953 | a key ID that failed with 401, 402 or 403 is never passed to the provider again, for rotating and fixed providers |
| RetryTheorems.ReuseOnlyWhenNoneIsFresh | core/bifrost.go:7272-7317 | a rate-limited key is selected again only after a reset at which no live unused key passed the filter |
| RetryTheorems.RoundIsDistinct | core/bifrost.go:7273-7279 | selections between two resets are pairwise distinct |
| RetryTheorems.WholePoolBeforeReuse | core/bifrost.go:7287-7315 | without a filter every live key was rate-limited in the round before the reset |
| RetryTheorems.UsedMeans | core/bifrost.go:6932-6936 | the used set holds exactly the keys rate-limited since the last reset |
| RetryTheorems.DeadMeans | core/bifrost.go:6924-6931 | the dead set holds exactly the keys that failed permanently |
| RetryTheorems.ExhaustedIff | core/bifrost.go:6536-6551 | the 502 is returned exactly when a key is due and every pool key is dead |
| RetryTheorems.NoEligibleIff | core/bifrost.go:6504-6535 | the 429 is returned exactly when a key is due, some key is live and the filter rejects all |
| RetryTheorems.ExhaustedNeedsBudget | core/bifrost.go:7305-7311 | the 502 needs at most MaxRetries distinct pool key IDs |
| RetryTheorems.CallsAreBounded | core/bifrost.go:6449-6451 | at most MaxRetries + 1 handler calls, one more only after a strip, and at most one strip |
| RetryTheorems.StripIsRetried | core/bifrost.go:6896-6911 | a strip answers a 400 on an input with ciphertext and is followed at once by a call on the same key without any |
| RetryTheorems.SleepsIff | core/bifrost.go:6596-6630 | no sleep follows a permanent key failure or a strip; every other retry sleeps with its own exponent |
| RetryTheorems.TotalWaitIsBounded | core/utils.go:146-155 | the time slept in a run is at most the number of retries times max |
| RetryTheorems.TrailIsComplete | core/bifrost.go:6556-6579 | one record per call, a fail reason on every non-final one, the rotation flag exactly when the next record has another key ID |
| RetryTheorems.RotationHasCause | core/bifrost.go:6963-6967 | a flagged record failed in a way bound to its key |
| RetryTheorems.RunsAreUnique | core/bifrost.go:6384-6968 | the specification determines attempts and outcome |
| Fallbacks.HandleRequest | core/bifrost.go:5448-5535 | attempts are a prefix of primary and configured fallbacks; all but the last continue; the first success, a halting error, a panic on a missing error field, or the primary's error is returned |
| Fallbacks.DueInOrder | core/bifrost.go:5475-5506 | the due attempts are increasing and exactly the primary and the configured fallbacks |
| SessionStickiness.OneKeyPerSession | core/bifrost.go:9238-9283 | once an ID is stored it never changes and every request returns it, from a sound start |
| SessionStickiness.AgreeIff | core/bifrost.go:9238-9283 | all requests agree in every interleaving if and only if the store starts with a supported ID, or empty with no empty key ID |
| SessionStickiness.StaleDisagrees | core/bifrost.go:9244-9250 | a run in which a stale ID makes two requests return different keys |
| ExclusiveSlot.StepKeepsInv | core/mcp/clientmanager.go:284-313 | every atomic step of the loop keeps the slot pointing at the one unfinished operation or the last finished one |
| ExclusiveSlot.MutualExclusion | core/mcp/clientmanager.go:284-306 | at most one operation per client is unfinished, in every interleaving |
| ExclusiveSlot.RejectionIsJustified | core/mcp/clientmanager.go:300-303 | a caller is rejected only by an operation unfinished when it looked |
| ExclusiveSlot.FinishedNeverBlocks | core/mcp/clientmanager.go:270-300 | with no unfinished operation a caller gets the slot in at most three steps of its own |
| ExclusiveSlot.ErrorIsFinal | core/mcp/clientmanager.go:308-313 | a finished operation stays finished with the same error |
| ExclusiveSlot.AwaitReportsFinalError | core/mcp/clientmanager.go:322-336 | a successful wait reports the final error of a finished operation |
| McpClient.ConnsKept | core/mcp/clientmanager.go:1807-2276 | every step keeps: the entry's connection is open, open connections are referenced or held by the attempt, dormant entries hold none |
| McpGenerations.StepKeepsInv | core/mcp/clientmanager.go:2202-2223 | every step keeps, besides, one generation per installed connection and what in-flight checks and callbacks captured |
| McpGenerations.GenerationsGrow | core/mcp/clientmanager.go:2218-2223 | within an entry's lifetime generations only grow, and a connection that appears is new and has a new one |
| McpGenerations.StaleWriterChangesNothing | core/mcp/connectionchecker.go:320-348 | a check or loss callback that captured a connection since replaced changes nothing |
| McpGenerations.WriteBackIff | core/mcp/connectionchecker.go:320-336 | a write-back leaves a live entry with its own connection's tools unless the check started on an earlier entry with the same generation number |
| McpGenerations.WhoLeavesDisabled | core/mcp/connectionchecker.go:369-407 | exactly which steps take an entry out of Disabled; checks, loss callbacks, failing attempts and updates are not among them |
| McpGenerations.WhoGivesADisabledClientTools | core/mcp/connectionchecker.go:320-336 | a disabled entry without tools gets some exactly by the write-back of a check that captured its current generation |
| McpGenerations.WhoLeavesNeedsReauth | core/mcp/clientmanager.go:2278-2306 | the same for NeedsReauth |
| McpManager.NoEntryReferencesAClosedConnection | core/mcp/clientmanager.go:2348-2377 | in every reachable state of all clients |
| McpManager.NoConnectionIsLost | core/mcp/clientmanager.go:2176-2276 | with no operation of a client in progress its open connections are exactly the one its entry references |
| McpManager.DormantHoldsNoConnection | core/mcp/clientmanager.go:1136-1186 | a disabled client and a per-call client hold no persistent connection |
| McpManager.ToolsBelongToTheConnection | core/mcp/clientmanager.go:2212-2223 | along runs whose write-backs come from checks of the entry they write to, a live entry's tools are its connection's or were set from outside |
| McpManager.ConnectsAtTwo | core/mcp/clientmanager.go:1852-1915 | a client added and connected from scratch is at generation 2 |
| McpManager.StaleToolsAfterReAdd | core/mcp/connectionchecker.go:320-336 | a concrete run in which a check outlives a removal and writes the old connection's tools into the new entry |
| McpManager.DisabledClientGetsTools | core/mcp/clientmanager.go:1136-1186 | a concrete run in which a disabled client ends up with the tools of its closed connection |
| McpManager.DisabledClientTurnsHealthy | core/mcp/clientmanager.go:1054-1072 | a concrete run in which a client added disabled turns healthy without EnableClient |
| Usage.MergeAdds | core/mcp/agent.go:401-511 | merging adds every listed token count and cost |
| Usage.MergeCommutes | core/mcp/agent.go:401-511 | mergeUsage is commutative |
| Usage.MergeAssociates | core/mcp/agent.go:401-511 | and associative |
| Usage.MergeIdentity | core/mcp/agent.go:402-407 | with nil as identity |
| AgentLoop.ExtractToolCalls | core/mcp/agent.go:522-538 | all calls of all choices in order, and none unless the response counts as having some |
| AgentLoop.AddAssistantMessage | core/mcp/agentadaptors.go:126-134 | the conversation grows by the response's messages in order |
| AgentLoop.Classify | core/mcp/agent.go:177-271 | the calls split by the auto-execution rule, in order |
| AgentLoop.SplitIsComplementary | core/mcp/agent.go:173-271 | the two groups are subsequences that together are all calls; executed calls pass the rule, the others do not |
| AgentLoop.RunTools | core/mcp/agent.go:284-347 | results in completion order and the first authorization error |
| AgentLoop.OneResultPerCall | core/mcp/agent.go:315-347 | the results are a permutation of one result per call |
| AgentLoop.ResultsNameTheirCalls | core/mcp/agent.go:549-586 | a result the loop writes itself carries its call's ID and is marked as an error exactly when the call failed |
| AgentLoop.AuthIff | core/mcp/agent.go:327-342 | authorization is reported exactly when some executed call needs it |
| AgentLoop.ExecuteAgent | core/mcp/agent.go:168-397 | responses and outcome are those the turn-by-turn specification determines |
| AgentLoop.DepthIsBounded | core/mcp/agent.go:168-170 | at most maxAgentDepth further model calls |
| AgentLoop.ResultsBeforeNextCall | core/mcp/agent.go:340-392 | before the next model call the conversation has exactly one result for each call of the previous response, all auto-executable |
| AgentLoop.OnlyAutoIsExecuted | core/mcp/agent.go:273-290 | no call without permission is ever executed |
| AgentLoop.UsageIsTotal | core/mcp/agent.go:358-397 | without an error the reported usage is the merge over all responses |
| AgentLoop.TotalCountsAdd | core/mcp/agent.go:401-420 | each listed count of it is the sum over the responses |
| AgentLoop.TotalCostsAdd | core/mcp/agent.go:490-508 | and each listed cost |
| AgentLoop.CombinedStillHasCalls | core/mcp/agentadaptors.go:294-318 | the response handed back counts as having tool calls exactly when calls are pending, whatever its finish reason |

## Left out

- Provider adapters, request dispatch and validation, plugins before the enqueue, tracing and logging: no effect on the modelled control flow.
- Time: timers, deadlines, cancellation and expiry are steps that may happen at any point; nothing is proved about progress beyond `NobodyIsStuck` and `FinishedNeverBlocks`.
- A provider whose construction fails after its queue was published (core/bifrost.go:4718-4726): creation and update succeed in the model, and buffer sizes are positive.
- Whether excess requests are dropped: a free choice at each full queue; streaming differs only in the reply channel used and in who runs the hooks.
- GatewayWindow.SweptQueueIsAccountedFor: does not say that a concurrent drain loop of the same queue has finished, because Shutdown and RemoveProvider may sweep one queue at the same time; what it still holds gets an error reply attempt next. `ServedIff` has no such exception: a queue nobody will look at again has no drain loop.
- GatewayTheorems.ShutdownIsLast: assumes that no provider is created while Shutdown runs, because lazy creation does not take the lifecycle lock.
- GatewayTheorems.AtMostOneReply: at most once, not exactly once; `SomeRequestIsNeverAnswered` and `BilledIff` show what is missing and when.
- RetryEngine.Execute: assumes a tracer and MaxRetries >= 0; does not model the raw-JSON form of the strip, whose drop rule differs and which rests on a JSON library, nor a request without key selection whose context already carries a trail from an earlier attempt: the source overwrites the last fail reason of that trail.
- RetryTheorems.DeadKeyIsNeverCalledAgain: not for requests without key selection, which have no key.
- Backoff.DelayBounds: float rounding is not modelled; jitter is a real number in [0, 1).
- SessionStickiness.OneKeyPerSession: no expiry and no store errors (selector errors are modelled); all requests have the same supported keys.
- Fallbacks.HandleRequest: the streaming twin has the same loop and is not modelled separately; clearing the context between attempts is not modelled.
- McpClient.ConnsKept: the dial is a nondeterministic success, failure or dead credential; UpdateClientCredentials is modelled for persistent connections only, every transport registers a loss callback, and the in-process host is absent. Clients with different IDs share nothing, so names being unique is not modelled.
- McpManager.ToolsBelongToTheConnection: SetClientTools may put any tools on any entry and marks it Healthy, so tools handed in that way are excepted.
- Deadlock freedom of starting and stopping connection checkers: not claimed.
- AgentLoop.ExecuteAgent: the Responses adapter and the text summarising executed results are not modelled; validation of code for the code-mode tool is a parameter.
- Usage.MergeAdds: fields mergeUsage does not list are dropped when both sides are present, and costs are reals.
