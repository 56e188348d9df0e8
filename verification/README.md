# The brain-turn runtime, modelled

This project models the Rust brain-turn runtime of rusty-crew: the buffered turn coordinator that sits between
a provider's stream and its host, the durable ledger that keeps a host tool from running twice across restarts,
context compaction with its untrusted strategies, the tool-failure policy, the runtime buffer store and the
base64url codec. Everything that moves time, storage, threads or the network becomes a parameter or a step.

| files | what they hold |
|---|---|
| `TurnStream`, `TurnModel` | stream items and coalescing; a turn's state and every coordinator operation as a function |
| `TurnSafety`, `TurnTools`, `TurnRuns`, `TurnWitness` | the invariants every operation keeps, what follows for whole runs, and a concrete run |
| `TurnOutcomes` | exactly when each operation succeeds, what it changes and what its refusals mean |
| `TurnCoordinator` | the coordinator class; its methods update fields in place and take the model's step |
| `ToolPolicy` | output bounding and the failure policy, with counters tied to the full history |
| `OperationIds`, `OperationLedger`, `LedgerSafety` | operation names, the ledger's transactions, their invariant |
| `LedgerRuns`, `LedgerHandOver`, `LedgerReplay`, `LedgerCalls` | what follows over runs: the shape of slots, what reaches the host, what a restarted wake gets, and the whole story of calls made, cancelled, lost and replayed |
| `LedgerOutcomes` | exactly when each transaction succeeds and what it changes |
| `CompactionPolicy`, `CompactionDecision`, `RollingSummary`, `StrategyPool` | threshold arithmetic, the two validators, the built-in strategy, the worker pool |
| `BufferModel`, `BufferStore` | the reference-counted store as values with its runs, and as objects |
| `BitStrings`, `Base64Url` | bit strings as the reference reading, and the codec proved against it |
| `Text`, `Wrappers` | UTF-8 lengths, decimal numbers, `Option` and `Result` |

How runs are stated: `TurnModel.Run`, `OperationLedger.Run`, `StrategyPool.Run` and `BufferModel.Run` apply an
arbitrary sequence of steps, and the results quantify over all of them. Logs such as `dispatched`, `drained` or
`taken` are written by steps and read by none. The coordinator's ghost field `turn` starts as a new turn, every method
advances it by the model step of the same name, and `Valid()` holds the invariant of all runs, so each method keeps it
and says which earlier facts stay true; `StreamIsFaithful` and `StaysFinished` state run results on the object.
The buffer store's ghost field `live` holds its live lease objects, and its `Valid()` ties every count to them.

Results that show the code to be weaker than it looks come with the exact condition:

- the `[truncated N chars]` count is taken before room is made for the marker;
- the failure key joins tool and reason with a colon, so a tool name can continue another;
- a result refused by the result limit has already been counted as a failure;
- the fill percentage saturates, so a window whose threshold share is not representable never compacts, and the
  target share saturates likewise;
- the decision validator accepts references outside the snapshot;
- a copied buffer lease is not counted, a failed wake request leaves unleased entries behind unless its first part was
  the empty one, and a wrapped handle counter can overwrite a leased entry;
- a leased operation whose drain fails is stored and never handed to the host.

Two places where a comment or name promises more than the code: `assert_no_leaks` looks only at leased entries, and
the byte limit of the stream does not bound a delta that meets an empty queue. The model follows the code.

## Model

| member | source | states |
|---|---|---|
| `TurnRuns.CoalescingIsLossless` | crates/brains/brain-runtime/src/coordinator.rs:175-211 | over every run, what was drained followed by what is queued expands, character by character with kind and reasoning format, to exactly the accepted items in order; sequence numbers are 1, 2, 3, … and no two neighbours in the queue are both text, or both reasoning of one format |
| `TurnRuns.QueueStaysBounded` | crates/brains/brain-runtime/src/coordinator.rs:476-511 | over every run, the byte limit is exceeded only by one oversized delta at the head with no delta behind it, and the item limit by at most one, a terminal item at the end |
| `TurnRuns.RunKeepsInv` | crates/brains/brain-runtime/src/coordinator.rs:468-902 | every interleaving of every operation, from a new turn, keeps the stream, phase, tool-protocol and failure-count invariants |
| `TurnRuns.PhaseTellsTheTruth` | crates/brains/brain-runtime/src/coordinator.rs:563-593 | over every run, the turn awaits host tools exactly while requests are pending, and has terminal details exactly when its phase is terminal |
| `TurnRuns.TerminalItemIsLast` | crates/brains/brain-runtime/src/coordinator.rs:518-551 | over every run, a terminal stream item is the last item ever accepted, and the turn is then completed or failed |
| `TurnRuns.FirstEndingWins` | crates/brains/brain-runtime/src/coordinator.rs:817-875 | after an ending, every continuation keeps phase and details, except that attention-required may become cancelled |
| `TurnRuns.TerminalDrainIsFinal` | crates/brains/brain-runtime/src/coordinator.rs:877-902 | once a drain reports the end, every later drain after any operations is empty and reports the end |
| `TurnRuns.DrainTakesAll` | crates/brains/brain-runtime/src/coordinator.rs:877-902 | one drain with a large enough limit empties the queue of any reachable turn |
| `TurnRuns.BackpressureIsHarmless` | crates/brains/brain-runtime/src/coordinator.rs:449-511 | a buffer-limit refusal leaves the whole state unchanged and the turn running, on both enqueue paths |
| `TurnRuns.BackpressureIsRecoverable` | crates/brains/brain-runtime/src/coordinator.rs:468-554 | after a buffer-limit refusal, draining the queue makes the very same item acceptable whatever its size, unless sequence numbers are exhausted |
| `TurnRuns.EmptyQueueAccepts` | crates/brains/brain-runtime/src/coordinator.rs:476-511 | an empty queue accepts an item of any size |
| `TurnRuns.AcceptedItemIsAtTheEnd` | crates/brains/brain-runtime/src/coordinator.rs:494-553 | the number returned for an accepted item is that of the last queue entry, and the item's contents are the end of that entry's contents |
| `TurnRuns.RequestsAreHandedOutOnce` | crates/brains/brain-runtime/src/coordinator.rs:563-612 | over every run, requests reach the host in queue order and at most once, pending and accepted ids are disjoint, and a request that was skipped had already been answered |
| `TurnRuns.OutputsAreTakenOnce` | crates/brains/brain-runtime/src/coordinator.rs:678-756 | over every run, each accepted output is waiting or was taken exactly once with its accepted content, unless a failure or cancellation discarded the waiting ones |
| `TurnRuns.TakenOutputNeverReturns` | crates/brains/brain-runtime/src/coordinator.rs:728-756 | a taken output is never handed over again, by either way of taking, after any operations |
| `TurnRuns.PolledDispositionIsTheHosts` | crates/brains/brain-runtime/src/coordinator.rs:746-756 | polling returns the accepted output together with the disposition its host result carried |
| `TurnRuns.HostSubmissionErrors` | crates/brains/brain-runtime/src/coordinator.rs:630-676 | in every reachable turn a host result is never too large and never lacks a stored decision; the only refusal after the policy recorded it is the result limit; a first success is always Accepted |
| `TurnRuns.AcceptedResultIsStored` | crates/brains/brain-runtime/src/coordinator.rs:666-675 | a successful host submission stores result and decision |
| `TurnRuns.ResubmissionIsDuplicate` | crates/brains/brain-runtime/src/coordinator.rs:636-651 | at any later point of any run, even after the end, resubmitting a stored result changes nothing and returns the same decision; a different result is a conflict |
| `TurnRuns.FailuresAreAccounted` | crates/brains/brain-runtime/src/coordinator.rs:660-665 | over every run, recorded failures equal accepted failing results plus failing submissions refused by the result limit, so a retry after that refusal counts again |
| `TurnWitness.RefusedFailureIsCountedTwice` | crates/brains/brain-runtime/src/coordinator.rs:660-665 | a run with room for one waiting output in which one accepted failing result stands on record as two failures |
| `TurnOutcomes.ItemIsAcceptedIff` | crates/brains/brain-runtime/src/coordinator.rs:468-554 | an item is accepted exactly when the turn runs, the item is of this turn, its text fits with the waiting text, and it joins a delta of its kind or fits as an entry of its own |
| `TurnOutcomes.ItemRefusalIsTrue` | crates/brains/brain-runtime/src/coordinator.rs:468-554 | a refused item changes nothing and its error names the first thing wrong with it |
| `TurnOutcomes.JoiningDeltaExtendsTheLast` | crates/brains/brain-runtime/src/coordinator.rs:175-211 | an accepted delta behind one of its kind keeps the queue length and the next number, extends the last text and returns the last number |
| `TurnOutcomes.OtherItemIsAppended` | crates/brains/brain-runtime/src/coordinator.rs:511-553 | any other accepted item gets the next number at the end of the queue; actions complete the turn, a failed wake fails it with its own code or else its kind's and its message |
| `TurnOutcomes.ProviderRefusalFailsTheTurn` | crates/brains/brain-runtime/src/coordinator.rs:449-466 | the provider path gives the same answer, and a refusal other than for lack of room fails an open turn |
| `TurnOutcomes.DrainReports` | crates/brains/brain-runtime/src/coordinator.rs:877-902 | a drain takes from the front, reports what is left, and the end exactly when the turn ended and nothing is left |
| `TurnOutcomes.PhaseChangesObeyTheTable` | crates/brains/brain-runtime/src/coordinator.rs:430-815 | starting, yielding and asking for attention succeed exactly in their phases and change the phase and its details alone |
| `TurnOutcomes.EndingsObeyTheTable` | crates/brains/brain-runtime/src/coordinator.rs:817-875 | failing ends exactly the open turns, cancelling also one that waits for an operator; cancelling again changes nothing; what waited is cleared, what was accepted stays |
| `TurnOutcomes.ProviderStateIsKept` | crates/brains/brain-runtime/src/coordinator.rs:758-771 | provider state is kept except before the start and after a cancellation |
| `TurnOutcomes.RequestIsAcceptedIff` | crates/brains/brain-runtime/src/coordinator.rs:563-593 | in every reachable turn a request is accepted exactly when the turn is open, the call was never requested before and there is room; it is then last in line, and a refusal is true |
| `TurnOutcomes.HandOutTakesTheOldest` | crates/brains/brain-runtime/src/coordinator.rs:595-612 | a hand-out takes ids off the front, at least one, and yields those still pending |
| `TurnOutcomes.HandOutReachesAll` | crates/brains/brain-runtime/src/coordinator.rs:595-612 | one large enough hand-out leaves no pending request the host was not given |
| `TurnOutcomes.OutputIsAcceptedIff` | crates/brains/brain-runtime/src/coordinator.rs:678-726 | in every reachable turn an output is accepted exactly when its call is pending, its text fits and there is room; the turn runs again exactly when that was the last pending call |
| `TurnOutcomes.OutputRefusalIsTrue` | crates/brains/brain-runtime/src/coordinator.rs:678-726 | a refused output's error names the first thing wrong with it |
| `TurnOutcomes.HostResultIsAcceptedIff` | crates/brains/brain-runtime/src/coordinator.rs:630-676 | in every reachable turn a host result is accepted exactly when its call is pending and there is room, whatever its size, and a duplicate exactly when it is the stored one |
| `TurnOutcomes.GuidanceComesInTime` | crates/brains/brain-runtime/src/tool_policy.rs:124-133 | in every reachable turn an accepted result brings guidance exactly at the second failure under its key or the third in a row, showing the last five failures, and passes on the debug id |
| `TurnOutcomes.HostRefusalIsTrue` | crates/brains/brain-runtime/src/coordinator.rs:630-676 | a refused host result's error names the first thing wrong with it, and only one refused for lack of room leaves a trace, in the failure history |
| `TurnOutcomes.OutputCanBeTakenIff` | crates/brains/brain-runtime/src/coordinator.rs:728-756 | an output can be taken exactly when it was accepted, not yet taken and not discarded by an ending |
| `TurnOutcomes.ProviderGetsTheHostsResult` | crates/brains/brain-runtime/src/tool_policy.rs:173-197 | over every run, whatever is or could be handed over for a stored host result is an error exactly when the tool did not succeed, with the host's fingerprint and bounded text |
| `TurnRuns.StepAdvances` | crates/brains/brain-runtime/src/coordinator.rs:468-902 | every single operation keeps the run invariants and takes nothing back: identity, an ending, accepted records and the accepted stream of an ended turn |
| `TurnStream.CoalescingKeepsMeaning` | crates/brains/brain-runtime/src/coordinator.rs:175-211 | merging two deltas yields a delta whose expansion is the two expansions in order, with the bytes added |
| `TurnStream.MergesIffSameKind` | crates/brains/brain-runtime/src/coordinator.rs:175-211 | two items merge exactly when both are text, or both reasoning of one format; the merged one is the earlier with the later text behind its own |
| `TurnStream.MergingKeepsKind` | crates/brains/brain-runtime/src/coordinator.rs:175-211 | a grown delta merges with its predecessor exactly when the original did |
| `TurnSafety.StepKeepsStream` | crates/brains/brain-runtime/src/coordinator.rs:468-554 | every operation keeps the stream invariant |
| `TurnTools.StepKeepsTools` | crates/brains/brain-runtime/src/coordinator.rs:563-756 | every operation keeps the tool-protocol invariant |
| `TurnTools.HostSubmissionOutcome` | crates/brains/brain-runtime/src/coordinator.rs:630-676 | after the policy has recorded a result, its bounded output is accepted exactly when the result limit leaves room |
| `TurnModel.Limits.FirstZero` | crates/brains/brain-runtime/src/coordinator.rs:65-80 | no limit is reported exactly when all are positive |
| `TurnModel.FirstZeroIsTheFirst` | crates/brains/brain-runtime/src/coordinator.rs:65-80 | the limit reported is the first, in the checked order, that is zero |
| `TurnCoordinator.PopItems` | crates/brains/brain-runtime/src/coordinator.rs:877-891 | the drain loop takes the longest allowed front of the queue, stops after a terminal item, and its byte counter never needs the saturation |
| `TurnCoordinator.PopRequests` | crates/brains/brain-runtime/src/coordinator.rs:595-612 | the request drain loop returns, in order, those popped ids that are still pending |
| `TurnCoordinator.BufferedBrainTurnCoordinator.New` | crates/brains/brain-runtime/src/coordinator.rs:301-337 | creation fails exactly when a limit is zero, naming the first, and otherwise yields a new turn |
| `TurnCoordinator.BufferedBrainTurnCoordinator.constructor` | crates/brains/brain-runtime/src/coordinator.rs:301-337 | the fresh fields are those of a new turn |
| `TurnCoordinator.BufferedBrainTurnCoordinator.Start` | crates/brains/brain-runtime/src/coordinator.rs:434-440 | only a created turn starts; the object stays a reachable turn |
| `TurnCoordinator.BufferedBrainTurnCoordinator.CheckAdmission` | crates/brains/brain-runtime/src/coordinator.rs:473-493 | the refusal of an item before coalescing, using the running byte counter instead of the queue |
| `TurnCoordinator.BufferedBrainTurnCoordinator.CoalesceAdjacentDelta` | crates/brains/brain-runtime/src/coordinator.rs:494-502 | merges in place exactly when the last entry is text like the delta, or reasoning of its format; the entry count stays and the last number is returned |
| `TurnCoordinator.BufferedBrainTurnCoordinator.AppendItem` | crates/brains/brain-runtime/src/coordinator.rs:513-553 | a new entry with the next number, terminal bookkeeping included, keeping counters exact |
| `TurnCoordinator.BufferedBrainTurnCoordinator.EnqueueStreamItem` | crates/brains/brain-runtime/src/coordinator.rs:468-554 | the result and new fields are the model's, the object stays a reachable turn, and an ended one accepts nothing |
| `TurnCoordinator.BufferedBrainTurnCoordinator.EnqueueProviderStreamItem` | crates/brains/brain-runtime/src/coordinator.rs:449-466 | refusals other than backpressure fail the turn |
| `TurnCoordinator.BufferedBrainTurnCoordinator.DrainStream` | crates/brains/brain-runtime/src/coordinator.rs:877-902 | a drain reports the end exactly when the object is then finished, and a finished object drains nothing and reports the end |
| `TurnCoordinator.BufferedBrainTurnCoordinator.QueueToolRequest` | crates/brains/brain-runtime/src/coordinator.rs:563-593 | the object stays a reachable turn and its fields follow the model step, with every refusal |
| `TurnCoordinator.BufferedBrainTurnCoordinator.DrainHostToolRequests` | crates/brains/brain-runtime/src/coordinator.rs:595-612 | the object stays a reachable turn and its fields follow the model step |
| `TurnCoordinator.BufferedBrainTurnCoordinator.AcceptOutput` | crates/brains/brain-runtime/src/coordinator.rs:678-726 | the submission itself, with every refusal and the return to running when nothing is pending |
| `TurnCoordinator.BufferedBrainTurnCoordinator.SubmitToolOutput` | crates/brains/brain-runtime/src/coordinator.rs:678-726 | the object stays a reachable turn and its fields follow the model step |
| `TurnCoordinator.BufferedBrainTurnCoordinator.SubmitHostToolResult` | crates/brains/brain-runtime/src/coordinator.rs:630-676 | never too large and never without a stored decision; an accepted result and its decision are kept |
| `TurnCoordinator.BufferedBrainTurnCoordinator.TakeSubmittedToolOutput` | crates/brains/brain-runtime/src/coordinator.rs:728-737 | the object stays a reachable turn and its fields follow the model step |
| `TurnCoordinator.BufferedBrainTurnCoordinator.PollSubmittedHostToolOutput` | crates/brains/brain-runtime/src/coordinator.rs:746-756 | the object stays a reachable turn and its fields follow the model step |
| `TurnCoordinator.BufferedBrainTurnCoordinator.SetProviderStateOutput` | crates/brains/brain-runtime/src/coordinator.rs:758-771 | the object stays a reachable turn and its fields follow the model step |
| `TurnCoordinator.BufferedBrainTurnCoordinator.YieldTurn` | crates/brains/brain-runtime/src/coordinator.rs:777-787 | the object stays a reachable turn and its fields follow the model step |
| `TurnCoordinator.BufferedBrainTurnCoordinator.RequireAttention` | crates/brains/brain-runtime/src/coordinator.rs:797-815 | the object stays a reachable turn and its fields follow the model step |
| `TurnCoordinator.BufferedBrainTurnCoordinator.Fail` | crates/brains/brain-runtime/src/coordinator.rs:825-839 | the object stays a reachable turn and its fields follow the model step |
| `TurnCoordinator.BufferedBrainTurnCoordinator.Cancel` | crates/brains/brain-runtime/src/coordinator.rs:849-875 | the object stays a reachable turn and its fields follow the model step |
| `TurnCoordinator.BufferedBrainTurnCoordinator.TransitionTerminal` | crates/brains/brain-runtime/src/coordinator.rs:958-977 | ending clears pending, undelivered and waiting tool state and nothing else |
| `TurnCoordinator.BufferedBrainTurnCoordinator.Cancellation` | crates/brains/brain-runtime/src/coordinator.rs:382-394 | details are there exactly when the turn is cancelled, so the unwrap is safe |
| `TurnCoordinator.BufferedBrainTurnCoordinator.StreamIsFaithful` | crates/brains/brain-runtime/src/coordinator.rs:877-902 | of the object at any time: drained plus queued expands to what was accepted, numbered without gap, within limits; it awaits the host exactly while requests are pending |
| `TurnCoordinator.BufferedBrainTurnCoordinator.StaysFinished` | crates/brains/brain-runtime/src/coordinator.rs:877-902 | of two valid moments of the object, the later following the earlier as every method ensures and any chain of calls inherits: finished stays finished |
| `ToolPolicy.BoundToolOutput` | crates/brains/brain-runtime/src/tool_policy.rs:316-351 | the two loops compute the specified bounded text and truncation record |
| `ToolPolicy.KeepPrefix` | crates/brains/brain-runtime/src/tool_policy.rs:327-335 | the first loop keeps the longest prefix within both limits |
| `Text.CharBytesIsShortest` | crates/brains/brain-runtime/src/tool_policy.rs:327-335 | the byte length used is that of the shortest UTF-8 sequence holding the character, by section 3 of RFC 3629 |
| `ToolPolicy.MakeRoom` | crates/brains/brain-runtime/src/tool_policy.rs:338-343 | the trimming loop leaves the longest prefix that fits beside the marker, or nothing |
| `ToolPolicy.BoundedOutputFits` | crates/brains/brain-runtime/src/tool_policy.rs:316-351 | the result always fits the byte limit; it is untouched exactly when it already fitted both limits |
| `ToolPolicy.TruncatedOutputIsLongest` | crates/brains/brain-runtime/src/tool_policy.rs:316-351 | a truncated output is a prefix plus a marker that counts what the longest prefix within both limits leaves out, and no longer prefix would have left room for it; it is empty when the marker alone does not fit |
| `ToolPolicy.MarkerCountIsExactIffNothingWasTrimmed` | crates/brains/brain-runtime/src/tool_policy.rs:336-340 | the advertised count never exceeds the true one and equals it exactly when prefix and marker fit together untrimmed |
| `ToolPolicy.MarkerCountCanUnderstate` | crates/brains/brain-runtime/src/tool_policy.rs:336-340 | a concrete input whose marker understates what was dropped |
| `ToolPolicy.ToolFailurePolicy.constructor` | crates/brains/brain-runtime/src/tool_policy.rs:151-163 | a new policy agrees with the empty history |
| `ToolPolicy.ToolFailurePolicy.RecordFailure` | crates/brains/brain-runtime/src/tool_policy.rs:238-272 | total, trailing, per-key and recent-window fields stay equal to those computed from the full history; guidance is the history's |
| `ToolPolicy.ToolFailurePolicy.RecordResult` | crates/brains/brain-runtime/src/tool_policy.rs:173-197 | one history entry per result; the provider gets an error exactly when the tool did not succeed, the host's fingerprint and its bounded text, and the decision its failure, guidance and debug id |
| `ToolPolicy.DecisionTellsTheResult` | crates/brains/brain-runtime/src/tool_policy.rs:173-234 | the same of the decision as a function of the history: error flag, fingerprint, text, failure with the reason given or else its status's own, truncation and debug id |
| `ToolPolicy.KeyCountIsCardinality` | crates/brains/brain-runtime/src/tool_policy.rs:252-254 | the per-key count is the number of results that failed under the key |
| `ToolPolicy.FailureCountIsCardinality` | crates/brains/brain-runtime/src/tool_policy.rs:246-247 | the total is the number of failing results |
| `ToolPolicy.TrailingRunIsMaximal` | crates/brains/brain-runtime/src/tool_policy.rs:242-247 | the consecutive count reaches n exactly when the last n results all failed |
| `ToolPolicy.GuidanceExactlyAtThresholds` | crates/brains/brain-runtime/src/tool_policy.rs:242-271 | guidance comes exactly when a failure reaches the repeat threshold, else the consecutive one, with repeat first; never on success |
| `ToolPolicy.KeysAgreeIff` | crates/brains/brain-runtime/src/tool_policy.rs:252-252 | two failures share a key exactly when tool and reason agree, or one tool name continues the other after a colon with the start of its reason |
| `ToolPolicy.ToolsCanBeConfusedIff` | crates/brains/brain-runtime/src/tool_policy.rs:252-252 | two different tools can share a key for some reasons exactly when one name starts with the other and a colon |
| `ToolPolicy.KeysWithColonsCanCollide` | crates/brains/brain-runtime/src/tool_policy.rs:252-252 | two different failures with the same key |
| `OperationIds.AttemptOfAttemptId` | crates/bridge/core-bridge-node/src/binding_brain_runs.rs:617-685 | parsing undoes printing for every attempt number |
| `Text.ParsesToIff` | crates/bridge/core-bridge-node/src/binding_brain_runs.rs:676-685 | what an attempt suffix may be: the digits of a fitting number, leading zeros and one plus sign allowed |
| `OperationIds.AttemptsAreReadBackExactly` | crates/bridge/core-bridge-node/src/binding_brain_runs.rs:538-685 | within a turn a printed id is read as attempt a of slot s exactly when it was printed for it, for every slot, continuation text and attempt |
| `OperationIds.SlotIdsCollideIff` | crates/bridge/core-bridge-node/src/binding_brain_runs.rs:538-541 | two slots share an id exactly when everything agrees, or the numbers agree and one turn id continues the other after a colon with the start of its continuation id |
| `OperationIds.EngineOperationIdsAreDistinct` | crates/core/core-engine/src/logical_turns.rs:704-711 | operation ids of turns the engine made, being of one length, coincide only for the same turn, continuation, slot and attempt |
| `OperationIds.ProviderRequestsAreNotAttempts` | crates/bridge/core-bridge-node/src/binding_brain_runs.rs:472-485 | provider request ids in the same ledger are never read as host-tool attempts |
| `LedgerRuns.EveryRunIsSafe` | crates/bridge/core-bridge-node/src/binding_brain_runs.rs:523-767 | every interleaving of claim, prepare, lease, complete, settle, cancel, crash, restart and operator resolution keeps the ledger invariant |
| `LedgerRuns.SlotIsAChain` | crates/bridge/core-bridge-node/src/binding_brain_runs.rs:545-662 | attempts of a slot are contiguous from zero, share one fingerprint, and all but the last were superseded |
| `LedgerRuns.AtMostOneAttemptStands` | crates/bridge/core-bridge-node/src/binding_brain_runs.rs:545-662 | at most one attempt of a slot is not superseded, so at most one has a result |
| `LedgerRuns.LeasesIffAllGivenUp` | crates/bridge/core-bridge-node/src/binding_brain_runs.rs:545-627 | a request is leased exactly when every stored attempt of its slot was superseded and has the same fingerprint |
| `LedgerHandOver.DispatchedAtMostOnce` | crates/bridge/core-bridge-node/src/binding_brain_runs.rs:345-355 | over every run, only stored operations reach the host, each at most once, and a lease waiting in a drain has not yet reached it |
| `LedgerHandOver.HandedOverIff` | crates/bridge/core-bridge-node/src/binding_brain_runs.rs:349-355 | a stored operation ever reaches the host exactly when it already has, or a live wake holds its lease in a drain that can still succeed; otherwise no run brings it back |
| `LedgerHandOver.LostForever` | crates/bridge/core-bridge-node/src/binding_brain_runs.rs:349-355 | an operation lost by a failed drain or the end of its process stays lost in every run |
| `LedgerHandOver.FailedDrainLosesItsLeases` | crates/bridge/core-bridge-node/src/binding_brain_runs.rs:349-355 | two requests in one drain, the turn cancelled in between: the first is stored as leased and never handed over |
| `LedgerRuns.SettledOperationsAreFinal` | crates/core/core-persistence/src/repos/logical_turns.rs:691-758 | completed, completed-after-cancel and superseded operations never change again, in any run |
| `LedgerOutcomes.ResultIsRecordedIff` | crates/core/core-persistence/src/repos/logical_turns.rs:691-758 | in every reachable world a result is recorded exactly when its call is open and the turn is as the claim left it, or was cancelled: as done and delivered in the first case, as done-after-cancel and undelivered in the second; otherwise the record is unchanged |
| `LedgerOutcomes.LateResultIsKept` | crates/core/core-persistence/src/repos/logical_turns.rs:713-724 | from any reachable world with an open call: cancelled before the answer, the answer is stored as done-after-cancel and nobody is given it |
| `LedgerCalls.CancelledCallKeepsItsResult` | crates/core/core-persistence/src/repos/logical_turns.rs:713-724 | the same as a run from a new turn: lease, hand over, cancel, complete |
| `LedgerOutcomes.ResultIsLookedUp` | crates/bridge/core-bridge-node/src/binding_brain_runs.rs:687-754 | an open call is about to be recorded with the result addressed to wake and call; a completed one is delivered again exactly when the result is the recorded one |
| `LedgerOutcomes.LeaseIsGrantedIff` | crates/core/core-persistence/src/repos/logical_turns.rs:649-689 | in every reachable world a lease is granted exactly when nothing happened to the turn since the claim and the name is free; a refusal stores nothing and loses the drain's earlier leases |
| `LedgerOutcomes.AbortedDrainLosesItsLeases` | crates/bridge/core-bridge-node/src/binding_brain_runs.rs:349-355 | a drain that fails on a malformed request or an unreadable ledger loses the leases it was granted in every run; only the latter takes the slot |
| `LedgerOutcomes.LeaseIsAskedFor` | crates/bridge/core-bridge-node/src/binding_brain_runs.rs:535-655 | a request to be leased takes its slot and asks under the wake's own claim; nothing is stored yet |
| `LedgerOutcomes.OtherRequestsChangeNothing` | crates/bridge/core-bridge-node/src/binding_brain_runs.rs:555-627 | a request that can be neither leased nor replayed takes its slot and fails the drain, unless its call was completed after a cancellation |
| `LedgerOutcomes.StandingAttemptDecides` | crates/bridge/core-bridge-node/src/binding_brain_runs.rs:545-627 | the attempt not given up decides: another fingerprint diverges, a completed one replays, one completed after a cancellation yields nothing, any other cannot be replayed |
| `LedgerOutcomes.NextAttemptIsTheFirstUnused` | crates/bridge/core-bridge-node/src/binding_brain_runs.rs:545-627 | a lease is for the first attempt number not yet used |
| `LedgerOutcomes.ClaimSucceedsIff` | crates/core/core-persistence/src/repos/logical_turns.rs:207-274 | a turn is claimed exactly when it is admitted, runnable or yielded and the wake is new; the claim is the next generation and the wake starts at slot zero |
| `LedgerOutcomes.SettlementCountsIff` | crates/core/core-persistence/src/repos/logical_turns.rs:276-524 | a settlement counts exactly when nothing happened to the turn since the claim and its continuation is new, with the turn it leads to |
| `LedgerOutcomes.CancellationEndsTheTurn` | crates/core/core-persistence/src/repos/logical_turns.rs:526-619 | cancelling ends exactly the turns not ended, bumps the cancellation generation once and leaves no claim valid |
| `LedgerOutcomes.RestartOutcome` | crates/core/core-persistence/src/repos/logical_turns.rs:870-1010 | what a restart makes of a turn in each phase, and when the operator may decide about the open call |
| `LedgerOutcomes.ResolutionCountsIff` | crates/core/core-persistence/src/repos/logical_turns.rs:402-447 | an operator's answer counts exactly when the turn waits for it, the attention allows it and, for a call, exactly one outcome is unknown; confirmed calls are done, denied ones given up |
| `LedgerOutcomes.OperatorDecides` | crates/core/core-persistence/src/repos/logical_turns.rs:1540-1646 | a call confirmed as completed is replayed with the operator's word as its result; one confirmed as not completed is retried as the next attempt |
| `LedgerHandOver.CompletedSlotIsNeverDispatchedAgain` | crates/bridge/core-bridge-node/src/binding_brain_runs.rs:345-627 | once an attempt has a result, no run hands any attempt of that slot to the host, except a lease some live drain was already holding |
| `LedgerHandOver.CompletedSlotIsQuietBetweenDrains` | crates/bridge/core-bridge-node/src/binding_brain_runs.rs:345-627 | so never, when no drain is in progress |
| `LedgerReplay.CompletedSlotReplays` | crates/bridge/core-bridge-node/src/binding_brain_runs.rs:555-612 | a request on a completed slot gets the recorded result readdressed to its call if the fingerprint agrees and the run takes it, and nothing otherwise, which fails the drain; ledger and hand-overs stay as they were |
| `LedgerReplay.CrashedWakeIsReplayed` | crates/bridge/core-bridge-node/src/binding_brain_runs.rs:535-612 | a new wake that sends the same k requests as the crashed one gets all k recorded results in slot order, addressed to its own calls, leases nothing and has nothing to hand over |
| `LedgerReplay.RestartedWakeIsReplayed` | crates/bridge/core-bridge-node/src/binding_brain_runs.rs:535-612 | from any reachable world with no call open: the wake dies, the service restarts, another wake claims the turn and asks again; it gets every recorded result in slot order, and neither the ledger nor what reached the host changes |
| `LedgerCalls.CallsAreRecorded` | crates/bridge/core-bridge-node/src/binding_brain_runs.rs:523-767 | a wake that makes any number of calls, each leased, handed over and answered, hands each over once and leaves every result recorded in its slot |
| `LedgerCalls.CompletedCallsAreReplayed` | crates/bridge/core-bridge-node/src/binding_brain_runs.rs:523-767 | the whole story from a new turn: one wake completes k calls and dies, the service restarts, and a second wake asking the same gets exactly the k recorded results in order; the host is asked k times in all |
| `LedgerRuns.DeliveriesAgreeWithLedger` | crates/bridge/core-bridge-node/src/binding_brain_runs.rs:575-612 | over every run, whatever a provider's run took for an operation is its recorded result, and the operation is completed |
| `LedgerRuns.OnlyAnOperatorGivesUp` | crates/core/core-persistence/src/repos/logical_turns.rs:1540-1608 | an operation becomes superseded only by an operator confirming that an outcome-unknown tool did not complete |
| `LedgerRuns.RestartSettlesLeases` | crates/core/core-persistence/src/repos/logical_turns.rs:870-1010 | hydrating a running turn leaves no lease: leased operations become outcome-unknown, and the turn goes on by itself exactly when there were none |
| `LedgerHandOver.EndedTurnStaysQuiet` | crates/core/core-persistence/src/repos/logical_turns.rs:649-758 | after a turn ended, no run stores an operation or makes one deliverable, and only leases a drain already held still reach the host |
| `LedgerSafety.StepKeeps` | crates/core/core-persistence/src/repos/logical_turns.rs:207-758 | every transaction keeps the ledger invariant |
| `LedgerSafety.AbortKeeps` | crates/bridge/core-bridge-node/src/binding_brain_runs.rs:532-553 | a drain that fails on a malformed request or an unreadable ledger forgets the leases it was granted and keeps the ledger invariant |
| `LedgerSafety.ClaimIsNotAReplay` | crates/core/core-engine/src/logical_turns.rs:1155-1168 | an epoch made from the current revision is never the active one, so the claim's replay branch is not taken |
| `LedgerSafety.GrantedIsFresh` | crates/core/core-persistence/src/repos/logical_turns.rs:649-689 | a granted lease is always for a new id: the store's identical-record branch is not taken |
| `LedgerSafety.LatestIsTheLatest` | crates/bridge/core-bridge-node/src/binding_brain_runs.rs:545-553 | the highest attempt parsed from the listed ids is the slot's latest attempt and covers all others |
| `LedgerSafety.EvolvingKeepsLedger` | crates/core/core-persistence/src/repos/logical_turns.rs:1303-1332 | revision-checked updates keep names, chains, dispatches and deliveries |
| `OperationLedger.Latest` | crates/bridge/core-bridge-node/src/binding_brain_runs.rs:545-553 | the stored operation with the highest attempt number of a slot |
| `CompactionPolicy.FillReachesIff` | crates/brains/brain-runtime/src/context_compaction.rs:101-118 | for all inputs, the saturating fill reaches a percentage exactly when the true usage does and that share of the window is representable |
| `CompactionPolicy.FillIsExactIff` | crates/brains/brain-runtime/src/context_compaction.rs:101-118 | the fill never overstates; it is the ceiling percentage exactly for windows up to u64::MAX/100 or inputs within the largest representable multiple of the window |
| `CompactionPolicy.FillCanUnderstate` | crates/brains/brain-runtime/src/context_compaction.rs:101-118 | a full window that is reported as one percent |
| `CompactionPolicy.FillIsMonotone` | crates/brains/brain-runtime/src/context_compaction.rs:101-118 | an empty window is full, and more input never lowers the fill |
| `CompactionPolicy.EstimateIsCeiling` | crates/brains/brain-runtime/src/context_compaction.rs:78-87 | the byte estimate is the ceiling of a third for every 64-bit count, saturation included |
| `CompactionPolicy.CompactsIff` | crates/brains/brain-runtime/src/context_compaction.rs:121-174 | an active policy compacts exactly when 100 times the tokens in use, the provider's count or else a third of the bytes rounded up, exceeds (threshold−1)·window and threshold·window is representable; the decision reports those tokens and their source |
| `CompactionPolicy.ProjectionIsDecidedIff` | crates/brains/brain-runtime/src/context_compaction.rs:121-149 | a measured usage is decided on its fill exactly against the window it was measured for; another window is an error, and each answer has its exact condition |
| `CompactionPolicy.PolicyIsValidIff` | crates/brains/brain-runtime/src/context_compaction.rs:25-44 | a policy passes exactly when it names a strategy, has a window and aims below a threshold of at most 100; an error names the first of these that fails |
| `CompactionPolicy.TargetIsExactIff` | crates/brains/brain-runtime/src/context_compaction.rs:46-50 | the target is the target share of the window rounded down exactly when it is at most u64::MAX/100 |
| `CompactionPolicy.InactiveNeverCompacts` | crates/brains/brain-runtime/src/context_compaction.rs:150-159 | an inactive policy never compacts and errs exactly when malformed |
| `CompactionPolicy.TargetIsBelowThreshold` | crates/brains/brain-runtime/src/context_compaction.rs:46-142 | whatever fits the target is below the threshold, for all values, saturated or not |
| `CompactionDecision.ValidateInput` | crates/brains/brain-runtime/src/context_compaction.rs:419-457 | the loop with its reference set finds the first error in source order |
| `CompactionDecision.InputPassesIff` | crates/brains/brain-runtime/src/context_compaction.rs:419-457 | no error exactly when the declarative validity holds |
| `CompactionDecision.Collect` | crates/brains/brain-runtime/src/context_compaction.rs:487-502 | building the hash set loses nothing exactly when the references are distinct |
| `CompactionDecision.ValidateDecision` | crates/brains/brain-runtime/src/context_compaction.rs:459-517 | the validator returns the first error in source order |
| `CompactionDecision.CheckPartition` | crates/brains/brain-runtime/src/context_compaction.rs:503-516 | the partition loop returns the first item error |
| `CompactionDecision.AcceptedIff` | crates/brains/brain-runtime/src/context_compaction.rs:419-517 | acceptance by both validators is exactly: right identity and lineage, unique disjoint lists, and every item on one side only, compacted only before the boundary, completed and outside the active exchange |
| `CompactionDecision.InputErrorIsTheFirst` | crates/brains/brain-runtime/src/context_compaction.rs:419-457 | a reported input error is the first there is, header checks in order and then the items in order |
| `CompactionDecision.DecisionErrorIsTheFirst` | crates/brains/brain-runtime/src/context_compaction.rs:459-517 | a reported decision error is the first there is, identity checks in order, then the references, then the items in order |
| `CompactionDecision.SomethingIsRetained` | crates/brains/brain-runtime/src/context_compaction.rs:419-517 | an accepted decision always retains the item at the boundary |
| `CompactionDecision.OnlySnapshotRefsIff` | crates/brains/brain-runtime/src/context_compaction.rs:503-515 | an accepted decision names only snapshot items exactly when its lists together are as long as the snapshot |
| `CompactionDecision.ForeignRefIsAccepted` | crates/brains/brain-runtime/src/context_compaction.rs:503-515 | for every valid input, compacting one made-up reference and retaining everything is accepted |
| `CompactionDecision.SomeInputIsValid` | crates/brains/brain-runtime/src/context_compaction.rs:419-457 | a concrete valid input without the reference "z", for which that failure occurs |
| `RollingSummary.TruncateUtf8` | crates/brains/brain-runtime/src/context_compaction.rs:691-700 | stepping back to a character boundary yields the longest prefix of whole characters within the limit |
| `RollingSummary.Summarize` | crates/brains/brain-runtime/src/context_compaction.rs:645-653 | the loop builds the header followed by one piece per item in order, each the longest whole-character front of "role: content" and a line break within the bytes left and 320, as long as more than 32 bytes are left |
| `RollingSummary.SummaryIsPieces` | crates/brains/brain-runtime/src/context_compaction.rs:645-653 | a text is the summary exactly when it is the header followed by such pieces, ending with the items or with at most 32 bytes left |
| `RollingSummary.RolledIsBounded` | crates/brains/brain-runtime/src/context_compaction.rs:645-653 | the summary stays within the budget and keeps its header |
| `RollingSummary.Preserve` | crates/brains/brain-runtime/src/context_compaction.rs:634-676 | fails exactly when nothing precedes the boundary, and otherwise returns the decision of `BaselineSays` |
| `RollingSummary.BaselineSays` | crates/brains/brain-runtime/src/context_compaction.rs:634-676 | the decision compacts the items before the boundary and retains the others in order; its summary is the header and the pieces of the compacted items within the target tokens clamped to 256 and 4096 bytes |
| `RollingSummary.BaselineIsAccepted` | crates/brains/brain-runtime/src/context_compaction.rs:634-676 | for every valid input that selects it with a positive boundary, its decision is accepted, names only snapshot items and stays within clamp(target, 256, 4096) bytes |
| `StrategyPool.PoolStaysBounded` | crates/brains/brain-runtime/src/context_compaction.rs:341-417 | in every interleaving, running ≤ workers, queued ≤ capacity, accepted = queued + running + finished with every call in one place, and unfinished calls ≤ workers + capacity |
| `StrategyPool.ExecutorStaysBounded` | crates/brains/brain-runtime/src/context_compaction.rs:10-11 | with 4 workers and 32 places at most 36 accepted calls are unfinished, and a valid call is turned away exactly when the queue is full |
| `StrategyPool.NoWorkerBlocks` | crates/brains/brain-runtime/src/context_compaction.rs:385-390 | in every interleaving a worker's result send goes through, whether the caller waits or has timed out |
| `StrategyPool.ReturnedDecisionsAreValidated` | crates/brains/brain-runtime/src/context_compaction.rs:541-620 | every decision returned to a caller is what its own strategy answered for that call and passes both validators on that caller's input |
| `StrategyPool.ReturnsAreFinal` | crates/brains/brain-runtime/src/context_compaction.rs:541-620 | what a caller was told never changes; late answers are ignored |
| `StrategyPool.CallWaitsIff` | crates/brains/brain-runtime/src/context_compaction.rs:541-575 | a call waits exactly when its input is valid, its strategy selected and the queue has room, and is then last in line |
| `StrategyPool.WaitingEndsWithTheAnswer` | crates/brains/brain-runtime/src/context_compaction.rs:576-620 | a waiting caller is answered exactly when its strategy answered and can give up exactly until then; it gets the decision exactly when both validators pass it |
| `StrategyPool.ReportedFailuresAreTrue` | crates/brains/brain-runtime/src/context_compaction.rs:541-620 | over every run, a failure a caller was told of is true |
| `StrategyPool.IdleWorkerTakesAJob` | crates/brains/brain-runtime/src/context_compaction.rs:364-399 | an idle worker takes the job at the front of the queue |
| `StrategyPool.OldestJobFirst` | crates/brains/brain-runtime/src/context_compaction.rs:364-399 | in every continuation, when a call made later has been taken by a worker, a job that was waiting before it no longer is |
| `StrategyPool.StepKeeps` | crates/brains/brain-runtime/src/context_compaction.rs:341-417 | every step of callers and workers keeps the pool invariant |
| `BufferModel.CountsAreLiveLeases` | crates/bridge/core-bridge-api/src/buffers.rs:65-166 | in every run with fewer inserts than handles, the live leases on a handle are those the store counts plus the copies made of live ones |
| `BufferModel.CountsAreExactIff` | crates/bridge/core-bridge-api/src/buffers.rs:31-36 | over every run, the counts are the live leases exactly when no live lease was copied |
| `BufferModel.CopyIsHarmlessIff` | crates/bridge/core-bridge-api/src/buffers.rs:31-36 | a copy keeps exact counts exact precisely when the copied lease was already released |
| `BufferModel.LiveLeaseReads` | crates/bridge/core-bridge-api/src/buffers.rs:123-144 | through a live lease the inserted content is read back exactly while live leases outnumber copies of live ones, so always without copies |
| `BufferModel.LeaseReleasesIff` | crates/bridge/core-bridge-api/src/buffers.rs:238-249 | releasing succeeds exactly for a live lease on a handle whose live leases outnumber copies of live ones; a second release never does |
| `BufferModel.NoLeaksIff` | crates/bridge/core-bridge-api/src/buffers.rs:168-183 | the leak check reports exactly the handles whose live leases outnumber copies of live ones; without copies it passes exactly when no lease is live |
| `BufferModel.HandlesAreNotReused` | crates/bridge/core-bridge-api/src/buffers.rs:65-166 | a handle's content never changes and a removed handle never returns |
| `BufferModel.InsertOverwritesIff` | crates/bridge/core-bridge-api/src/buffers.rs:77-84 | an insert disturbs a leased entry exactly when the wrapped counter equals its handle |
| `BufferModel.WrappedCounterOverwrites` | crates/bridge/core-bridge-api/src/buffers.rs:77-84 | from an empty store: an entry is inserted and leased, then entries come and go until the counter has come round; one more insert gets the leased handle, and the live lease, which read its bytes until then, reads nothing |
| `BufferModel.InsertedReadsBack` | crates/bridge/core-bridge-api/src/buffers.rs:65-144 | what is inserted can be leased and is then read back with its media type |
| `BufferModel.AcquireSucceedsIff` | crates/bridge/core-bridge-api/src/buffers.rs:102-121 | a lease is granted exactly on an entry whose count has room, and adds one to that count alone; each refusal is true |
| `BufferModel.ReadSucceedsIff` | crates/bridge/core-bridge-api/src/buffers.rs:123-144 | an entry is read exactly while its count is not zero; each refusal is true |
| `BufferModel.ReleaseSucceedsIff` | crates/bridge/core-bridge-api/src/buffers.rs:146-166 | a release takes one from that count alone, and the entry goes exactly with its last lease; each refusal is true |
| `BufferModel.WakePartsRead` | crates/bridge/core-bridge-api/src/buffers.rs:185-215 | the leases of a wake request read its body and role assembly as JSON and its prompt as text |
| `BufferModel.BuildWakeSucceedsIff` | crates/bridge/core-bridge-api/src/buffers.rs:185-215 | a wake request is built exactly when none of its parts is empty |
| `BufferModel.WakeLeasesRestore` | crates/bridge/core-bridge-api/src/buffers.rs:185-249 | after any run with room for three handles, releasing a wake request's three leases through the lease objects, in any order, restores the earlier contents |
| `BufferModel.FailedWakeLeavesOrphans` | crates/bridge/core-bridge-api/src/buffers.rs:185-196 | a failed wake request leaves the contents unchanged exactly when its first part is empty; otherwise exactly the parts before the empty one stay, unreadable, unreleasable and unseen by the leak check |
| `BufferModel.CopiedLeaseBreaksCounting` | crates/bridge/core-bridge-api/src/buffers.rs:31-36 | a run from the empty store in which releasing a copied lease and its original removes the entry under another live lease |
| `BufferStore.RuntimeBufferStore.constructor` | crates/bridge/core-bridge-api/src/buffers.rs:56-63 | an empty store starting at handle 1, with no live lease |
| `BufferStore.RuntimeBufferStore.Insert` | crates/bridge/core-bridge-api/src/buffers.rs:65-86 | follows the model; counts still match the live lease objects exactly when the handle taken has none |
| `BufferStore.RuntimeBufferStore.Acquire` | crates/bridge/core-bridge-api/src/buffers.rs:102-121 | follows the model; a granted lease is a new live object and counts keep matching the live lease objects |
| `BufferStore.RuntimeBufferStore.GetBuffer` | crates/bridge/core-bridge-api/src/buffers.rs:123-144 | reads back what was inserted exactly when some lease object on the handle is live |
| `BufferStore.RuntimeBufferStore.ReleaseBuffer` | crates/bridge/core-bridge-api/src/buffers.rs:146-166 | the fields follow the model operation; the entry goes at zero |
| `BufferStore.RuntimeBufferStore.LeakedHandles` | crates/bridge/core-bridge-api/src/buffers.rs:168-183 | collects exactly the handles with a lease: none exactly when no lease object is live |
| `BufferStore.RuntimeBufferStore.BuildBrainWakeRequest` | crates/bridge/core-bridge-api/src/buffers.rs:185-215 | follows the model; three new live leases, and counts keep matching the live lease objects |
| `BufferStore.RuntimeBufferLease.Release` | crates/bridge/core-bridge-api/src/buffers.rs:238-249 | a lease the store gave out can be released exactly once, whatever happened to the others, and then is no longer live; counts keep matching |
| `BufferStore.RuntimeBufferLease.Copy` | crates/bridge/core-bridge-api/src/buffers.rs:31-36 | a copy is a lease object that is not among those the store counts |
| `Base64Url.Decode` | crates/brains/openai-responses/src/openai_oauth.rs:527-554 | the shift-register loop computes the bit-string meaning: whole bytes of the symbols before the first '=', an error for a foreign character before it |
| `Base64Url.ShiftIn` | crates/brains/openai-responses/src/openai_oauth.rs:541-552 | the register stays below 2^bits and below 2^13, and one byte leaves exactly when eight bits are there |
| `Base64Url.Emit` | crates/brains/openai-responses/src/openai_oauth.rs:543-546 | the inner loop gives out the top byte at most once |
| `Base64Url.Encode` | crates/brains/openai-responses/src/openai_oauth.rs:984-1004 | the grouping loop computes the bits of the bytes cut into symbols, the last filled with zeros |
| `Base64Url.RoundTrip` | crates/brains/openai-responses/src/openai_oauth.rs:527-1004 | decoding an encoding returns the bytes, for every byte string |
| `Base64Url.DecodedLength` | crates/brains/openai-responses/src/openai_oauth.rs:527-554 | n accepted symbols give floor(6n/8) bytes |
| `Base64Url.DecodedBytes` | crates/brains/openai-responses/src/openai_oauth.rs:527-554 | every decoded value is a byte |
| `Base64Url.ReencodesIff` | crates/brains/openai-responses/src/openai_oauth.rs:527-1004 | re-encoding an accepted unpadded text gives it back exactly when its length is not 1 mod 4 and the dropped bits are zero |
| `Base64Url.AlphabetIsABijection` | crates/brains/openai-responses/src/openai_oauth.rs:532-540 | the decoder's ranges and the encoder's table are inverse to each other |
| `Base64Url.AlphabetIsTheStandards` | crates/brains/openai-responses/src/openai_oauth.rs:532-540 | value v is written as character v of the alphabet section 5 of RFC 4648 lists, and a character has value v exactly when it is that one |

## Left out

- `BufferedBrainTurnRegistry` (insert, remove, cleanup, diagnostics): a map keyed by wake id; it would only add easy members.
- Timestamps other than the time of the ending, Display text, guidance prose and failure detail text carry no invariant.
- Operation names, buffer names and the runtime's own reason codes in errors and terminal details are enumerations instead of their fixed texts.
- Stream events other than text and reasoning deltas, provider state and metadata are opaque payloads.
- `usize` is taken as 64 bits wide; the failure policy's own counters are unbounded.
- ToolPolicy.ToolFailurePolicy.constructor: asks for positive thresholds and limits, where the source asserts them.
- RollingSummary.Preserve: asks for a boundary within the snapshot, where the source would panic on the slice; its caller has validated the input.
- A wake without a logical claim bypasses the ledger: its requests are dispatched and its results delivered without a record.
- The ledger is that of one logical turn; an id taken by another turn would be a refusal of the lease (`EngineOperationIdsAreDistinct` shows that turns the engine made never share one). Continuation tickets, lifecycle outbox, checkpoints' contents and cancellation receipts are not modelled.
- OperationLedger.Latest: does not say which record is chosen when two ids parse to the same attempt; under the ledger invariant there is only one.
- The execution epoch id and the request fingerprint are hashes; the first is taken to be injective and the second is an opaque text.
- LedgerSafety.ClaimIsNotAReplay: reads the turn record and claims it in one step, where the engine reads it in an earlier transaction; that no claim comes in between rests on the bridge's lock within a process and on distinct service ids across processes.
- The provider's own operations in the ledger are only shown not to be mistaken for host-tool attempts.
- BufferModel.CountsAreLiveLeases: speaks of runs with fewer inserts than there are 64-bit handles; what happens at the wrap is stated by `InsertOverwritesIff` and shown by `WrappedCounterOverwrites`.
- The strategy pool lives as long as the process; a shut-down executor and a worker thread that cannot be spawned are not modelled. A strategy reports the same id and revision each time it is asked.
- Poisoned locks, JSON encoding and decoding, and the napi layer.
- OAuth exchange, JWT claims, RFC 3339 formatting, the model catalog, context accounting, compaction artifacts and their validators, contract generation, TypeScript hosts and smoke programs.
