# Motif Feedback: a verified model

Motif Feedback is a local chat room in which three agents, each behind a language-model provider, answer one user in
turn. A room turn drives its participants one after the other; each speaks in one or more beats, and each beat passes
four durable checkpoints: the provider's completion, the message, the memory event, and the end of the beat. The process
may die between any two storage calls. A failed or interrupted turn can be resumed later, with the speakers in another
order, after other turns have run.

This project models that protocol and the stores around it, and proves what they promise.

**The durable turn protocol** (`Records`, `Steps`, `Invariant`, `StepLemmas`, `RowLemmas`, `Journal`, `Storage`,
`Execution`, `Speakers`, `Orchestration`, `TurnLemmas`, `Turns`, `Schedules`, `Guarantees`, `OperationIds`). `Steps`
says what each storage call commits, and `Storage` carries those steps out on its tables. `Invariant` says what every
reachable state satisfies. `Execution`, `Orchestration` and `Turns` follow the program's own objects: the ledger, the
executor of one agent's beats, the orchestrator of one room run, and the turn service. An `Attempt` decides how many
storage calls are left before the attempt is killed, cancelled or raises, and what providers answer; nothing is assumed
of either. `Schedules.RunSchedule` closes the argument: for every sequence of submissions, resumes, acceptances,
restarts and prunings, each attempt ending wherever it likes, the invariant holds, no ledger call is ever refused for
belonging to different work or having a different result, and the request budget is kept. `Guarantees` draws what a
reader can rely on from the invariant: exactly-once rows, the order of stages and beats, write-once completions.
The history of a run (`Journal`) says what was asked, granted, stored and dropped, and in which order.

Three facts of the program shape the statements. A failed provider call leaves its own checkpoint open while the beat
ends, so the completed stages are a prefix of the four except in one exactly described case. Requests granted to an
attempt that is killed outright appear in no trace; the model keeps exact count of them, so that the budget is a bound
for every turn none of whose attempts was killed, and otherwise grows by what those attempts were granted. And an agent
that searches for the replacement of a failed page is finished without a message or a memory event when its answer
cites nothing; no other agent is, and a turn completes with somebody unheard only after an attempt that read no page.

**Tools** (`ToolExecution`, `JsonControls`). A state-changing tool runs under one operation and is recovered after a
restart; a recovered file write is always reported as having replaced a file, which is true only if it did. The repair
of raw control characters in JSON strings is shown to lose nothing except in one exactly described case, which the
program's comment overlooks.

**The motif ledger** (`MotifSteps`, `MotifInvariant`, `MotifLemmas`, `MotifReports`, `MotifLedger`, `Text`).
Observations are recorded in transactions; every counter, running mean, status and alias agrees with the append-only
log of events, and the answer to a batch agrees with what was submitted and what is stored. The counter of distinct
turns counts changes of turn: it is exact if and only if no turn in a motif's history was interrupted by another, which
a resumed older turn can bring about.

**Persona governance** (`PersonaValues`, `PersonaRules`, `PersonaCandidates`, `PersonaStore`, `PersonaGuarantees`).
What agents commit on their own leaves every locked and review-only subtree untouched; what they may not commit is kept, with its evidence, as a
candidate whose paths no other active candidate shares. A refused update should change nothing, and this fails of the
program: that the policy's threshold for attractors is not a number is found out only after the other changes are
written and overlapping candidates superseded. The exact condition, and an input of either kind, are among the results.

**Supporting algorithms** (`Trajectories`, `ProviderLoop`, `ProcessTree`). Mining repeated runs of motifs, the loop of
requests and tool rounds with one provider, and the closure of a process tree.

Modules that change things step by step are classes and methods; each method is proved against a function of its inputs
or of the old state, and the properties are lemmas about those functions. Predicates ending in `Ok`, `Valid` and `Sound`
are invariants.

## Model

| member | source | states |
|---|---|---|
| Storage.Storage.BeginTurnOperation | motif_feedback/storage_turns.py:284-367 | Claiming an operation commits a new started row, or returns the stored one, or is refused for other work or an unknown turn; nothing else changes |
| Steps.SameWork | motif_feedback/execution_ledger.py:54-85 | Two attempts claim a stage for the same work exactly if stage, provider and model agree |
| Steps.ClaimRefused | motif_feedback/storage_turns.py:299-330 | A claim is refused exactly for an unknown turn, or a row of other work |
| Storage.Storage.CompleteTurnOperation | motif_feedback/storage_turns.py:369-411 | Completing commits the result once; completing again with the same result changes nothing, with another is refused |
| Storage.Storage.InsertMessage | motif_feedback/storage_messages.py:21-89 | One row is appended, or the row already stored under the operation is found |
| Storage.Storage.InsertMemoryEvent | motif_feedback/storage_memory.py:37-133 | The same for memory events, which also receive the next sequence number of their agent and project |
| Steps.TruncatedIsPrefix | motif_feedback/storage_memory.py:98-99 | A stored text is the longest prefix that fits |
| Storage.Storage.InsertGlobalEvent | motif_feedback/storage_memory.py:260-370 | At most one card per memory event, only for an event of that agent and project, numbered within the agent and holding bounded summaries of its texts |
| Text.StripKeeps | motif_feedback/agent_turn_execution.py:454 | Stripping takes away the white space at both ends of a text, and nothing else |
| Records.RecoveredIsWhole | motif_feedback/execution_ledger.py:100-156 | Storing a completion and recovering it loses the raw message and no other field |
| Text.CompactFits | motif_feedback/storage_memory.py:26-36 | A summary fits its limit, holds no run of white space, is its own summary, and equals the text exactly when that already fits and is free of such runs |
| Text.CompactEnds | motif_feedback/storage_memory.py:26-36 | A summary is the text's words joined by single spaces when these fit; otherwise it fills its limit with the start of them, seven tenths, and the end |
| Text.GatheredJoins | motif_feedback/storage_memory.py:28 | Collapsing white space joins a text's words by single spaces |
| Storage.Storage.BeginChatTurn | motif_feedback/storage_turns.py:16-82 | A turn is created once; the identifier cannot be reused for another request |
| TurnLemmas.KnownTurnConflicts | motif_feedback/storage_turns.py:33-50 | A known turn is found again for its own request, and every other request under its identifier is a conflict |
| Storage.Storage.FinishChatTurn | motif_feedback/storage_turns.py:116-145 | Status, result, trace and failure of one turn are replaced together |
| Storage.Storage.ResumeChatTurn | motif_feedback/storage_turns.py:236-262 | Only an unresolved failed or interrupted turn goes back to running |
| Storage.Storage.ResolveChatTurn | motif_feedback/storage_turns.py:264-282 | Only an unresolved failed or interrupted turn can be accepted as partial |
| Storage.Storage.InterruptRunning | motif_feedback/storage_schema.py:392-399 | After the startup sweep every turn that was running is interrupted, with its trace, request and everything else as they were; no other row changes |
| Storage.Storage.PruneChatTurnTraces | motif_feedback/storage_turns.py:201-234 | An operation goes exactly if its turn is stale and has ended; such turns lose their trace and nothing else; all other rows stay |
| Guarantees.CallsAreIdempotent | motif_feedback/storage_turns.py:315-391 | A claim repeated at any later moment finds the row of the first, if that was at most completed since; a completion repeated while its row stands is found; neither changes anything |
| Guarantees.InsertsAreIdempotent | motif_feedback/storage_messages.py:45-65 | Inserting a message, memory event or card again, in any later tables that still hold the first row, finds it and changes nothing |
| RowLemmas.MaxIsCount | motif_feedback/storage_memory.py:74-83 | The greatest sequence number of an agent in a project is the number of its events there, so the next one is never taken |
| Guarantees.NumberedWithoutGaps | motif_feedback/storage_memory.py:74-83 | An agent's memory events in a project carry the numbers 1 to their count, each exactly once |
| StepLemmas.BeginKeepsInv | motif_feedback/execution_ledger.py:54-85 | Whatever happened before, claiming a stage whose predecessors are durable is never refused, keeps every invariant and rewrites nothing durable |
| StepLemmas.CompleteKeepsInv | motif_feedback/execution_ledger.py:87-98 | The same for completing a stage, first time or replayed |
| StepLemmas.SameResult | motif_feedback/storage_turns.py:385-390 | A stage found completed by an earlier attempt was completed with the very result this attempt computes |
| RowLemmas.MessageKeepsInv | motif_feedback/agent_turn_execution.py:474-485 | Storing a beat's message is never refused and keeps every invariant |
| RowLemmas.MemoryKeepsInv | motif_feedback/agent_turn_execution.py:974-985 | Storing a beat's memory event is never refused, even when an earlier attempt stored it with another outcome |
| RowLemmas.GlobalKeepsInv | motif_feedback/agent_turn_execution.py:986-995 | Adding the card of a memory event is never refused and keeps every invariant |
| RowLemmas.UserMessageKeepsInv | motif_feedback/orchestrator.py:136-142 | The first user message of a turn may be inserted; it stays the only one |
| Journal.RecordEvent | motif_feedback/agent_turn_execution.py:395-437 | A provider may be asked, and a completion stored, only where the history stays ordered: nothing is asked after it is stored |
| Journal.RecordFinish | motif_feedback/agent_turn_execution.py:222-240 | An agent is finished for the first time over all attempts, and the history says whether its answer was dropped, at the first beat and without citations, or its last beat is over and in the room |
| Execution.RoomReport.constructor | motif_feedback/turn_service.py:138-146 | An attempt's request counter starts at the number of requests the persisted trace holds |
| Execution.RoomReport.ModelRequested | motif_feedback/turn_service.py:148-156 | A request within the budget is counted and traced; one beyond it stops the attempt and is not |
| Execution.ExecutionLedger.Begin | motif_feedback/execution_ledger.py:54-85 | From any reachable state the ledger call returns the stage's row or the attempt ends; it never meets the "different work" error |
| Execution.ExecutionLedger.Complete | motif_feedback/execution_ledger.py:87-98 | It never meets the "different result" error |
| Execution.ExecutionLedger.RecoverCompletion | motif_feedback/execution_ledger.py:100-141 | None while the checkpoint is open; otherwise every field of the stored completion but the raw message |
| Execution.ExecutionLedger.CheckpointCompletion | motif_feedback/execution_ledger.py:143-156 | The completion without its raw message becomes durable, for the first and only time |
| Execution.ExecutionLedger.MarkBeatFinished | motif_feedback/execution_ledger.py:196-203 | The beat is finished once its memory is, and no other stage changes |
| Execution.ExecutionLedger.MarkAgentFinished | motif_feedback/execution_ledger.py:205-212 | The agent is finished at its last beat, and recorded as dropped only if it is the one searching; no other stage changes |
| Execution.AgentTurnExecutor.AskProvider | motif_feedback/agent_turn_execution.py:415-432 | A provider is asked only for an open checkpoint of an unfinished agent, and each of its requests passes the budget |
| Execution.AgentTurnExecutor.CompletionForBeat | motif_feedback/agent_turn_execution.py:380-437 | The reply is the stored completion or, failing that, an answer that is stored first, or a failure that leaves the checkpoint open |
| Execution.AgentTurnExecutor.StoreMessage | motif_feedback/agent_turn_execution.py:480-485 | The stored message is the stripped completion of exactly this beat |
| Execution.AgentTurnExecutor.StoreMemory | motif_feedback/agent_turn_execution.py:974-985 | The beat's memory event with this outcome, trigger and text, unless an earlier attempt recorded it |
| Execution.AgentTurnExecutor.StoreGlobal | motif_feedback/agent_turn_execution.py:986-995 | The card repeats the stored memory event |
| Execution.AgentTurnExecutor.RecordMemory | motif_feedback/agent_turn_execution.py:947-996 | A memory event and, for a successful outcome, its card; afterwards the checkpoint may be completed |
| Execution.AgentTurnExecutor.CommitCompletion | motif_feedback/agent_turn_execution.py:439-537 | Message, memory, its card and the end of the beat are all durable; a newly recorded memory event says action_response exactly after a successful tool use other than private observation, and repeats the answer |
| Execution.AgentTurnExecutor.RecordProviderFailure | motif_feedback/agent_turn_execution.py:886-945 | The beat ends with its own checkpoint open, one failure is reported that tells a timeout, a silence and an error apart, and a newly recorded memory event says which |
| Execution.AgentTurnExecutor.RunFollowupBeats | motif_feedback/agent_turn_execution.py:562-663 | The beats run end with one that asks for no more, meets the limit, or failed; the loop ends because the beat number climbs to the limit |
| Execution.AgentTurnExecutor.Run | motif_feedback/agent_turn_execution.py:48-296 | One agent's part: only its own work is added, what the room hears are its messages in beat order, its answer is dropped, and so recorded, exactly if it searched and cites nothing, and then it leaves no row; the ledger refuses nothing |
| Speakers.SelectLead | motif_feedback/search_router.py:167-193 | The lead is the first of the participants no other participant outscores |
| Speakers.Participants | motif_feedback/orchestrator.py:68 | The requested agents in canonical order, each once |
| Speakers.RunOrderPermutes | motif_feedback/orchestrator.py:68-96 | Whatever the message, mode, history and failed pages, the order drives every participant exactly once and puts the search agent, which only a failed page calls for, first |
| Speakers.RunOrderIs | motif_feedback/orchestrator.py:276-333 | Who searches: needed, after a failed page, the first to speak if its provider can search, else the first who can, and somebody whenever somebody can. Who speaks first: a named participant, else the best for the search, else the one after the last speaker, else the first. The others follow in canonical order |
| Orchestration.SpeechStable | motif_feedback/orchestrator.py:170-192 | What one agent said and finished is not disturbed by the agents after it |
| Orchestration.Orchestrator.UserMessageOf | motif_feedback/orchestrator.py:136-149 | The turn has one user message: the stored one, or a new one with the request's text when none was stored |
| Orchestration.Orchestrator.RunSpeakers | motif_feedback/orchestrator.py:170-237 | Every speaker is heard in order, unless the first searched without evidence; messages and failures of the answer are theirs, in order |
| Orchestration.Orchestrator.Chat | motif_feedback/orchestrator.py:60-244 | A room run asks only the given participants and answers with what they said; when no page could be read and nobody can search, nobody is asked and the answer is empty |
| Orchestration.HeardOrShort | motif_feedback/orchestrator.py:108-237 | A room run finishes every participant, unless no page was read and no agent may search, or the one that did found nothing to cite |
| Orchestration.ShortIsSilent | motif_feedback/orchestrator.py:150-237 | A room run that ends short for want of evidence answers with no message |
| Turns.CompletedMeansFinished | motif_feedback/storage_turns.py:472-483 | The query for completed agents finds exactly the finished ones |
| Turns.FinishedBeforeIsFinished | motif_feedback/turn_service.py:236-244 | A resume leaves out exactly the finished agents, also through the fallback on messages |
| Turns.AgentMessages | motif_feedback/turn_service.py:264-269 | All agent messages of the turn and no others, in insertion order |
| TurnLemmas.ResumeTurnSteps | motif_feedback/storage_turns.py:236-262 | A turn can be resumed if and only if it is neither ended nor running |
| TurnLemmas.ResolveTurnSteps | motif_feedback/storage_turns.py:264-282 | A turn can be accepted if and only if it is neither ended nor running, and is ended by it |
| TurnLemmas.SweepSteps | motif_feedback/storage_schema.py:392-399 | After the sweep no turn is running, and ended turns are as they were |
| TurnLemmas.PruneKeepsInv | motif_feedback/storage_turns.py:201-234 | Pruning keeps every invariant and every operation of a turn that can still be resumed |
| TurnLemmas.TurnsOnlyKeepsInv | motif_feedback/storage_turns.py:116-145 | Changing turn rows alone keeps every invariant, provided no ended turn revives |
| Turns.TurnService.PrepareResume | motif_feedback/turn_service.py:218-262 | It succeeds exactly for a resumable turn of the project, and yields the stored request, for exactly the participants not finished yet, with its stored runtime, user message and trace |
| Turns.TurnService.RunRoom | motif_feedback/turn_service.py:160-178 | With nobody left the room is not run at all; otherwise every participant is heard as the room run has it, failures included, and a resume answers with all agent messages of the turn |
| Turns.TurnService.Lose | motif_feedback/turn_service.py:148-156 | A killed attempt loses exactly the requests it was granted, and no other turn loses any |
| Turns.TurnService.RecordFailure | motif_feedback/turn_service.py:186-216 | A raised or cancelled attempt stores its trace with the failure and loses nothing; a killed one loses exactly the requests it was granted |
| Turns.FailureTextIs | motif_feedback/storage_turns.py:98-114 | The stored failure is the detail's words joined by single spaces, cut to the column's length |
| Turns.TurnService.RunTurn | motif_feedback/turn_service.py:138-216 | However the attempt ends, the turn's row says so, a returned result is what the room heard, and the accounts of all turns stay exact, killed attempts included |
| Turns.WholeOrShort | motif_feedback/turn_service.py:160-185 | An attempt that answers leaves every participant the turn was submitted for finished, by it or by earlier attempts, unless it ended short for want of evidence |
| Turns.TurnService.Execute | motif_feedback/turn_service.py:100-216 | A turn submitted again changes nothing: the stored result of a completed turn is returned for its own request and for no other; a resume asks only unfinished participants and, if it returns, has them all finished unless it ended short; answers are dropped only of the search agent; other turns and their accounts are untouched |
| Turns.TurnService.Resolve | motif_feedback/main.py:432-437 | Acceptance succeeds exactly for a resumable turn, which then never runs again |
| Turns.TurnService.Restart | motif_feedback/main.py:118-126 | A restart leaves nothing running and everything durable in place |
| Turns.TurnService.Prune | motif_feedback/main.py:124 | Retention keeps every reachable-state property |
| Turns.OtherBudgetsKept | motif_feedback/turn_service.py:146-158 | An attempt changes no other turn's account of requests |
| Schedules.RunSchedule | README.md:107-127 | For every sequence of submissions, resumes, acceptances, restarts and prunings, each attempt ending anywhere: all invariants hold, no ledger call is refused, ended turns keep their result, nothing stored or finished is asked for again, a turn none of whose attempts was killed is granted at most the budget, a killed attempt adds exactly what it was granted, a turn completes with everyone heard unless an attempt at it read no page, and answers are dropped only where a page failed |
| Schedules.EveryTurnWithinBudget | motif_feedback/turn_service.py:146-158 | No turn is granted more requests than the budget and what its own killed attempts were granted |
| Schedules.NextExplained | motif_feedback/turn_service.py:160-185 | Every dropped answer and every turn completed short has its reason in one of the attempts at that turn |
| Guarantees.NothingTwice | motif_feedback/storage_messages.py:45-65 | At most one message and one memory event per turn, agent and beat, and one card per memory event |
| Guarantees.MessagesSayCompletions | motif_feedback/agent_turn_execution.py:454-485 | Every agent message belongs to one beat and is that beat's stored content less the white space at its ends |
| Guarantees.FinishedAgentLeftEverything | motif_feedback/agent_turn_execution.py:281-296 | Once an agent is finished at beat n and its answer was not dropped, beats 1 to n each left exactly one memory event and each answered one exactly one message, and an answered beat n asked for no more or met the limit; a dropped answer was of one beat and names no source |
| Guarantees.MessageMeansAnswer | motif_feedback/agent_turn_execution.py:202-237 | In a live turn a beat has a message only if its provider answered |
| Guarantees.StagesInOrder | motif_feedback/execution_semantics.py:9-14 | Completed stages are a prefix of the four exactly unless the memory stage completed without the message stage, which only a remembered failure brings about |
| Guarantees.BeatsFollowEachOther | motif_feedback/agent_turn_execution.py:568-569 | Work at beat n means every earlier beat is whole and asked to go on, n is within the limit, and the agent finished at none of them unless its answer was dropped |
| Guarantees.SuccessHasCard | motif_feedback/agent_turn_execution.py:986-995 | A successful memory event of a finished beat has exactly one card |
| Guarantees.CardSaysEvent | motif_feedback/storage_memory.py:285-322 | Every card is of its event's agent and project, with a summary of each of its texts |
| Guarantees.StoredOnce | motif_feedback/execution_ledger.py:143-156 | Over a whole run a beat's completion is stored at most once and an agent finished at most once |
| Guarantees.OrderedMeansOnce | motif_feedback/agent_turn_execution.py:395-402 | Over a whole run each completion is stored once, each agent is finished once, dropped or not, and no provider is asked for a beat after either |
| OperationIds.OperationIdsDiffer | motif_feedback/execution_ledger.py:46-52 | Rendered operation identifiers are distinct for distinct operations, as turn identifiers hold no colon |
| ToolExecution.ToolExecutor.Execute | motif_feedback/agent_tools.py:292-349 | A completed operation answers from its row without effect; otherwise the answer and the effect are exactly those of a first run, of a recovery, or of a run after a restart, tool by tool |
| ToolExecution.ToolExecutor.Recover | motif_feedback/agent_tools.py:351-404 | An interrupted persona update asks for review, a batch is read back, a file counts as written only if it has the content |
| ToolExecution.RecoveredBatchAnswers | motif_feedback/agent_tools.py:363-366 | A batch recorded by an attempt that died before answering is answered as it would have been |
| ToolExecution.RecoveredWriteClaimsOverwrite | motif_feedback/agent_tools.py:305-315 | A file written by an attempt that died before answering is always reported as overwritten, which is true exactly if it existed before |
| ToolExecution.SameToolWork | motif_feedback/agent_tools.py:326-339 | Two calls are the same work exactly if they are of one tool with the same arguments |
| ToolExecution.ToolExecutor.ExecuteOnce | motif_feedback/agent_tools.py:406-488 | The tool has its one effect and answers accordingly, or the attempt ends before it |
| ToolExecution.ToolRowKeepsInv | motif_feedback/agent_tools.py:330-349 | Tool operations leave every invariant of the turn protocol in place |
| JsonControls.EscapeJsonStringControls | motif_feedback/agent_tools.py:516-533 | The scanner computes the escaped text |
| JsonControls.EscapedIsClean | motif_feedback/agent_tools.py:516-533 | No raw newline, return or tab is left inside a string, and the scanner ends on the output as on the input |
| JsonControls.CleanIsFixed | motif_feedback/agent_tools.py:508-510 | The text is unchanged exactly when it was clean |
| JsonControls.EscapingTwice | motif_feedback/agent_tools.py:516-533 | A second pass changes nothing |
| JsonControls.EscapingIsLossless | motif_feedback/agent_tools.py:505-507 | The contents read back are the original ones if and only if no raw control follows an unpaired backslash |
| JsonControls.DanglingControlIsChanged | motif_feedback/agent_tools.py:523-526 | An input whose contents do change |
| Text.NormalizeTwice | motif_feedback/storage_motifs.py:41-43 | Normalizing a label is idempotent, and fixes exactly the normal labels |
| Text.LabelJoins | motif_feedback/storage_motifs.py:41-43 | A normalized label is the words of the text in lower case, joined by single spaces |
| MotifLedger.MotifStore.ValidateConnections | motif_feedback/storage_motifs.py:695-735 | Accepted exactly when every connection is well formed and targets are distinct |
| MotifLedger.MotifStore.ValidateObservations | motif_feedback/storage_motifs.py:656-751 | Accepted exactly when there are one to three well-formed items, one of them primary, no identity twice |
| MotifLedger.MotifStore.RecordOneMotif | motif_feedback/storage_motifs.py:458-654 | One observation inside a transaction |
| MotifReports.ObservationRecorded | motif_feedback/storage_motifs.py:458-654 | Which motif an observation is of, what its row, alias, log entry, links and answer then say, and that nothing else changes |
| MotifReports.RefusedExactly | motif_feedback/storage_motifs.py:472-600 | An observation is refused exactly if it names a motif that is not its observer's, by a label that is another's, or links to itself or out of the project |
| MotifLedger.MotifStore.RecordMotifObservations | motif_feedback/storage_motifs.py:105-196 | A batch is recorded whole or not at all, once per operation and once per beat |
| MotifReports.BatchAnswered | motif_feedback/storage_motifs.py:116-141 | Which of refusal, stored answer and recording a batch meets, and that nothing changes unless it is recorded |
| MotifReports.BatchReports | motif_feedback/storage_motifs.py:142-196 | An accepted batch records each item once, in order and as submitted, under motifs that differ; its answer agrees with the rows and names the motif of the one primary item |
| MotifReports.OnePrimary | motif_feedback/storage_motifs.py:656-668 | The count of primary items is one exactly if one item alone is primary |
| MotifReports.IdentitiesCollide | motif_feedback/storage_motifs.py:728-733 | Two items collide exactly if they name the same motif, or none and have one normalized label |
| MotifLedger.MotifStore.AttachMotifResponseEvidence | motif_feedback/storage_motifs.py:328-372 | The response joins the evidence of each of its beat's observations that lacks it, and the count is theirs |
| MotifReports.AttachedExactly | motif_feedback/storage_motifs.py:354-371 | The message joins exactly the beat's observations that lack it, and they are counted |
| MotifLedger.MotifStore.SetMotifStatus | motif_feedback/storage_motifs.py:374-416 | A user decision sets the status and is logged; an unknown status or motif changes nothing |
| MotifLemmas.RecordedLedgerOk | motif_feedback/storage_motifs.py:458-654 | One observation keeps every counter, mean, status and alias in step with the log, and every link well formed and within its project |
| MotifLemmas.RecordBatchKeeps | motif_feedback/storage_motifs.py:105-196 | So does a batch, accepted or refused |
| MotifLemmas.BatchRecordedOnce | motif_feedback/storage_motifs.py:122-141 | Replaying a batch returns its result and changes nothing; the beat takes no second batch |
| MotifLemmas.RecordAllKeeps | motif_feedback/storage_motifs.py:165-183 | A batch names each motif once and keeps the order and the primary of its observations |
| MotifLemmas.LabelNeverTaken | motif_feedback/storage_motifs.py:500-540 | The uniqueness constraint on a motif's label can never fire |
| MotifLemmas.LabelsTellMotifsApart | motif_feedback/storage_motifs.py:753-792 | A label of one observer names at most one motif |
| MotifLemmas.ConfidenceIsMean | motif_feedback/storage_motifs.py:541-552 | Confidence is the mean of the observations' confidences and lies between 0 and 1 |
| MotifInvariant.BlocksCountTurns | motif_feedback/storage_motifs.py:545-548 | Counting changes of turn never undercounts distinct turns, and is exact if and only if no turn is interrupted |
| MotifLemmas.TurnCounterExact | motif_feedback/storage_motifs.py:545-548 | So the stored counter equals the number of distinct turns exactly for uninterrupted histories |
| MotifInvariant.InterruptedTurnsAreOvercounted | motif_feedback/storage_motifs.py:545-548 | Two turns that interleave are counted as three |
| MotifLemmas.Lifecycle | motif_feedback/storage_motifs.py:500-556 | Candidate means one block of turns, supported at least two, and a user decision stands whatever is observed later |
| MotifLemmas.AgentsOnlyPromote | motif_feedback/storage_motifs.py:549-556 | The only status change an agent causes is candidate to supported, by a motif seen in another turn |
| MotifLemmas.AttachedAt | motif_feedback/storage_motifs.py:354-371 | What attaching does to each event of the log |
| MotifLemmas.AttachedOnce | motif_feedback/storage_motifs.py:356-360 | Attaching the same message again does nothing |
| MotifLemmas.SetStatusKeeps | motif_feedback/storage_motifs.py:374-416 | A user decision keeps every counter, mean and alias in step with the log |
| PersonaValues.SetLeavesOthers | motif_feedback/persona_store.py:703-721 | Setting a path leaves every path apart from it as it was, missing ones missing |
| PersonaValues.SetIsFound | motif_feedback/persona_store.py:681-721 | What is set is what is found: the value, or the list with one more item |
| PersonaValues.SetFailsOnNonLists | motif_feedback/persona_store.py:713-720 | Setting fails exactly when something other than a list is appended to |
| PersonaRules.AutomaticIsApart | motif_feedback/persona_store.py:34-59 | No path an agent may commit lies on the way to, or below, a locked or review-only path |
| PersonaRules.ConstitutionKept | motif_feedback/persona_store.py:247-250 | Whatever changes an agent commits, every locked and review-only subtree stays as it was |
| PersonaRules.CoreMotifKept | motif_feedback/persona_store.py:722-725 | The core-motif assertion can never fail, and committed changes leave the version to the store |
| PersonaStore.EveryChangeIsKept | motif_feedback/persona_store.py:214-250 | Every change of an accepted update is either committed or kept for the user, none lost or doubled |
| PersonaStore.ImmediateIsAllowed | motif_feedback/persona_store.py:232-243 | Only allowed paths are committed, each with the evidence its policy asks for |
| PersonaGuarantees.RequiredEvidenceIs | motif_feedback/persona_store.py:351-369 | Relationship changes need two events and attractor changes five unless the policy's own field says otherwise, other changes one; a field that holds no number cannot be read |
| PersonaGuarantees.CommittedExactly | motif_feedback/persona_store.py:232-243 | A change of an update that passes is committed exactly if its path may be and it has the evidence; otherwise it is kept |
| PersonaGuarantees.RelationshipNeedsEvidence | motif_feedback/persona_store.py:351-362 | A change of relationship memory commits exactly with as many events as the policy asks for, two when it says nothing; with fewer it is kept for the user |
| PersonaGuarantees.RoutedExactly | motif_feedback/persona_store.py:219-236 | A change is committed, proposed or refused exactly by its path, its type, its size and, for a strength, its bound |
| PersonaGuarantees.AutomaticPaths | motif_feedback/persona_store.py:34-42 | The paths agents may commit to, spelled out |
| PersonaGuarantees.ReviewPaths | motif_feedback/persona_store.py:44-52 | The paths left to the user, spelled out |
| PersonaGuarantees.StrengthBounded | motif_feedback/persona_store.py:728-743 | A strength may be proposed exactly for a known attractor and within the policy's bound, a twentieth when it says nothing |
| PersonaGuarantees.BoundedExactly | motif_feedback/persona_store.py:649-680 | A value passes exactly if nothing inside it is nested deeper than eight levels or too large |
| PersonaGuarantees.EvidenceExactly | motif_feedback/persona_store.py:308-336 | Evidence passes exactly if it names some events, each once, all of them visible |
| PersonaStore.AcceptedKeepsConstitution | motif_feedback/persona_store.py:245-255 | An accepted update keeps every reserved subtree and raises the version by one if it commits anything |
| PersonaStore.AcceptedIsValid | motif_feedback/persona_store.py:250-255 | The written persona passes the store's own validation |
| PersonaGuarantees.ValidPersona | motif_feedback/persona_store.py:542-603 | Exactly which personas pass validation, path by path |
| PersonaStore.PersonaFiles.SubmitUpdate | motif_feedback/persona_store.py:205-293 | Exactly when an update is accepted, and exactly what persona and candidates become when it is accepted, refused by a check, or refused after them |
| PersonaStore.RefusedWithoutEffect | motif_feedback/persona_store.py:244-285 | A refused update changes neither persona nor candidates if and only if it fails a check, or commits nothing and no open candidate of the agent proposes something else for one of its paths |
| PersonaStore.OnlyAttractorsUnreadable | motif_feedback/persona_store.py:351-369 | An update that passes its checks is refused if and only if it keeps a change below attractors for the user and the policy's attractor threshold is not a number |
| PersonaStore.RefusedAfterWriting | motif_feedback/persona_store.py:244-285 | An update that is written in part and then refused, for a policy that holds no number |
| PersonaStore.RefusedAfterSuperseding | motif_feedback/persona_store.py:387-419 | An update with nothing to commit, refused for its policy, that supersedes a candidate and leaves none in its place |
| PersonaStore.PersonaFiles.SaveUserEdit | motif_feedback/persona_store.py:175-203 | A user's edit is stored only if valid, with a version above the previous one, and settles the candidates it decides |
| PersonaStore.PersonaFiles.Reconcile | motif_feedback/persona_store.py:464-512 | Every open candidate of the agent is settled or left, one by one |
| PersonaStore.PersonaFiles.SaveDormant | motif_feedback/persona_store.py:371-462 | Overlapping proposals are superseded; then an equal one gathers the evidence or a new one is kept, unless the policy cannot be read |
| PersonaGuarantees.DeferredIsKept | motif_feedback/persona_store.py:410-462 | What an accepted update does not commit is one dormant candidate: its changes, its evidence beside the earlier, one more observation, and the greatest requirement of its changes |
| PersonaCandidates.MergeUnites | motif_feedback/persona_store.py:410-420 | Merged evidence has each event once and holds the events of both |
| PersonaGuarantees.LaterAccountKept | motif_feedback/persona_store.py:410-415 | Of two accounts of an event the later one is kept, and no other evidence is lost |
| PersonaCandidates.SaveKeeps | motif_feedback/persona_store.py:371-462 | Active candidates of an agent keep disjoint paths, verified counts are the size of the evidence, decided candidates never change, and the proposal is kept with its evidence |
| PersonaCandidates.SupersedeKeeps | motif_feedback/persona_store.py:387-408 | Superseding alone keeps disjointness, counts and decided candidates |
| PersonaGuarantees.OverlapMeans | motif_feedback/persona_store.py:396-402 | Proposals overlap exactly if they have a path in common |
| PersonaCandidates.ReconcileKeeps | motif_feedback/persona_store.py:464-512 | The same for reconciling |
| PersonaCandidates.OpenMeansUntouched | motif_feedback/persona_store.py:487-501 | A candidate stays open exactly when the edit neither makes its changes nor touches its paths |
| PersonaGuarantees.PresentExactly | motif_feedback/persona_store.py:514-521 | A replacement counts as present exactly if making it would change nothing, an addition if the list has it |
| PersonaGuarantees.SettledExactly | motif_feedback/persona_store.py:487-507 | An edit incorporates an open candidate exactly if all its changes are present, and overtakes it exactly if not and a value at one of its paths changed |
| PersonaGuarantees.MadeIsPresent | motif_feedback/persona_store.py:514-521 | A change that was made is found present, so its candidate counts as incorporated |
| PersonaGuarantees.TouchedByChange | motif_feedback/persona_store.py:487-501 | A change touches what it replaces by another value, and nothing apart from its path |
| Trajectories.CountWindows | motif_feedback/motif_trajectories.py:75-82 | Each pattern's count is its number of matching windows, its turns those in which they end |
| Trajectories.SameAnchor | motif_feedback/motif_trajectories.py:77 | Two occurrences count as one turn exactly if they end in the same known turn, or at the same place |
| Trajectories.FrequentPatterns | motif_feedback/motif_trajectories.py:65-93 | Exactly the patterns of two or three motifs that end in enough distinct turns, each once |
| Trajectories.ReturnPatterns | motif_feedback/motif_trajectories.py:106-137 | Exactly the patterns of three to six motifs that come back to the first, in enough turns, each once |
| Trajectories.SuffixIsFrequent | motif_feedback/motif_trajectories.py:74-93 | The length-two suffix of a frequent triple is frequent, with counts at least as large |
| Trajectories.MinersAgree | motif_feedback/motif_trajectories.py:74-137 | On returning triples both miners report the same |
| Trajectories.Best | motif_feedback/motif_trajectories.py:95-103 | The kept records are in rank order and no dropped one ranks ahead of a kept one |
| Trajectories.CountRepeated | motif_feedback/motif_trajectories.py:31-36 | Repeated positions are the length less the number of distinct motifs |
| Trajectories.Summarize | motif_feedback/motif_trajectories.py:12-62 | Of the most recent motifs: repeats, distinct pairs of neighbours, and the best eight and six patterns in rank order, complete when fewer; misaligned turns are refused |
| ProviderLoop.NormalizeUsage | motif_feedback/providers.py:275-310 | Known non-negative counts, the larger detailed count taking the place of the plain one |
| ProviderLoop.NormalizedMeans | motif_feedback/providers.py:275-310 | What is reported field by field: plain counts, and for the two detailed fields the greater nested count when there is one |
| ProviderLoop.NormalizedTwice | motif_feedback/providers.py:275-315 | Normalizing is idempotent, so accumulated counts are not taken twice |
| ProviderLoop.AccumulateUsage | motif_feedback/providers.py:313-315 | Totals grow, key by key, by the normalized counts |
| ProviderLoop.PairedWithBlock | motif_feedback/providers.py:457-514 | A message with tool calls followed by its replies keeps the conversation well paired |
| ProviderLoop.AgentConversation.ExecuteToolCalls | motif_feedback/providers.py:446-514 | The message and one reply per call join the conversation in order, each reply with its tool's result; each call is counted with its success |
| ProviderLoop.AgentConversation.FinishResponse | motif_feedback/providers.py:368-444 | It asks again exactly for a silence of an agent that must speak while a retry and a round are left; otherwise the answer is the message's own words or an account of what was done |
| ProviderLoop.PassMeansDeclines | motif_feedback/providers.py:686-688 | An agent declines exactly by a bare pass, in any case, bracketed or not, with dots or exclamation marks after it |
| ProviderLoop.ContinueExtracted | motif_feedback/providers.py:691-696 | An answer asks for another beat exactly by the marker at its end; its text is what stands before |
| ProviderLoop.AgentConversation.Run | motif_feedback/providers.py:112-179 | Which responses lead on and which decide, and what the last one decides: its own words, an account of what was done, a silence, or a fault; at most one request more than tool rounds, tool calls within the turn limit, and usage totals the per-key sums over all answered requests |
| ProcessTree.DescendantPids | runner/service.py:214-238 | Exactly the processes reachable by one or more child links, for any links, cycles included |

## Left out

- Execution.AgentTurnExecutor.CommitCompletion: does not interleave attaching motif evidence between message and checkpoint; that call is idempotent and modelled on its own in `MotifLedger`.
- Execution.AgentTurnExecutor.AskProvider: a provider's answer is arbitrary; the tool operations it runs meanwhile are modelled in `ToolExecution`, which shows that they keep the protocol's invariants.
- Execution.ExecutionLedger.RecoverCompletion: operation payloads, which are written once and read only for display, are not modelled.
- ProviderLoop.PassMeansDeclines: letters are compared over ASCII; other alphabets' case is not modelled.
- Trajectories.SameAnchor: a turn identifier that reads like a position is not taken for one.
- Storage.Storage.InsertGlobalEvent: action lists, provider and project names and full-text indexes of memory rows and cards are not modelled.
- Storage.Storage.InsertMessage: message metadata, annotations and their later updates are not modelled.
- Turns.TurnService.Execute: one attempt runs at a time, as the application's chat lock has it; the elapsed-time limit is one more exception an attempt may end with; settings do not change between restarts; a turn begun without an identifier is given a fresh one by the caller.
- Turns.TurnService.RunRoom: of a room's result, messages and failures are modelled; research, source and page details are not.
- Text.CompactFits: white space means blank, tab, return and newline; other Unicode spaces are not modelled.
- Speakers.SelectLead: the keyword scores, aliases and search patterns that messages are matched against are inputs.
- Schedules.RunSchedule: deleting projects, and turns stored by versions before requests and runtimes were kept, are not modelled.
- ToolExecution.ToolExecutor.Execute: permission checks, size caps and ownership rows of project files are one input that allows or forbids the write; a failing file system is not modelled.
- ToolExecution.ToolExecutor.ExecuteOnce: what the persona store answers and whether a file may be written are inputs; the stores themselves are modelled apart.
- MotifLedger.MotifStore.AttachMotifResponseEvidence: the lookup of the message it attaches is an input.
- MotifLedger.MotifStore.RecordMotifObservations: observations that are not numbers where numbers are expected are one case; observing users' messages, timestamps and generated identifiers are not modelled beyond freshness.
- Text.NormalizeTwice: labels are normalized over ASCII letters and digits; Unicode case folding is not modelled.
- MotifLemmas.ConfidenceIsMean: confidences are real numbers; floating-point rounding is not modelled.
- PersonaStore.PersonaFiles.SubmitUpdate: snapshots, change logs, file names and timestamps are not modelled, nor the byte limit on one change's encoding and numbers written as text in a policy; nested mappings are values, so aliasing between the copy and the original is not captured.
- PersonaValues.SetLeavesOthers: paths are given split at their dots.
- Trajectories.Summarize: rates are not rounded, and equally ranked patterns may come in any order.
- Trajectories.Best: ties between equally ranked patterns are broken by their labels in the program and left open here; rounding of the reported rates is not modelled.
- ProviderLoop.AgentConversation.Run: requests to the provider, search-enabled answers, structured message contents and progress events are not modelled; the wording of the local fallback names no files.
- Journal.RecordEvent: the history of a run is a record kept for the proofs; the program stores no such log.
- Hashes, fingerprints and generated identifiers are taken to be injective and fresh.
- HTTP, streaming, Docker, SQLite, YAML files, prompts, context selection, web fetching and its URL checks, the browser interface, charts and analytics sums.
- The label of the stage shown in the recovery notice, which ignores follow-up beats.
