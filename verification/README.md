# Agents, chunks and credentials: a Dafny model

This project models the parts of an on-premises AI platform whose correctness cannot be read off one
function, and proves what they promise for every input, every history and every answer from outside.

**The agent run.** A bounded loop asks a model, runs the tools it asks for, stops when a tool needs a
human, writes everything it needs into the run's row, and continues later in another process. `RunModel`
holds the rows and events, `RunLoop` the loop as functions from state to state, `AgentRuntime` and
`AgentRunService` the same code in the form the source gives it: row objects updated in place, a table of
tool executions, local counters. Every method is proved to compute what `RunLoop` and `RunHistory` say.
On top of that:
- `RunInvariants`: what every event stream keeps (numbering, accounting, answered calls, the checkpoint);
- `ExecutionTable`, `RunHistory`: what every history of start, approve, cancel and expire keeps;
- `RunTheorems`: the promises, stated for every history from empty tables;
- `RunDecisions`, `RunAnswers`, `RunEffects`: each decision in the tables traced to the step that took it, what
  an approval runs, which waiting runs can still be answered, and what each operation writes and refuses;
- `Uninterrupted`, `RunRefinement`: a loop without suspension, checkpoint or JSON in it, and the proof that
  a run that is suspended, stored, resumed and answered comes to exactly what that loop comes to, whatever
  else happens on the platform meanwhile;
- `RunCounterexamples`: runs on which the service does less than one might expect;
- `AgentSpecs`: the agent definition and its JSON image in the checkpoint.

Everything outside the loop (the settings, the model, name resolution, the catalogue, the executors, retrieval)
is a `World`: a record of functions of the iteration, the position of the call in its batch and the arguments.
Every theorem holds for every `World`; only `RunCounterexamples` builds some.

**The chunker.** `Chunking` has the loops as methods, each proved equal to a recursive specification. Where a text
is split (`SplitBoundaries`), how sentences are put together (`SentenceGrouping`), that greedy packing uses the
fewest chunks (`PackingOptimality`), and conservation of text, the length budget, where words may be cut and the
overlap (`ChunkingProofs`, `PackingProofs`, `ChunkingTheorems`) is proved of that specification.

**Registries and credentials.** `Discovery` (one MCP server's offer reconciled with a shared catalogue),
`AgentVersions` (versions, and the deletions that reach them), `ApiKeys` (rotation chains) and `Enrollment`
(compare-and-set tokens) are each a class over mutable tables, a step function, and theorems over all histories.

**LDAP filters.** `LdapFilter` proves that five whole-string replacements are the one-pass encoding of
section 3 of RFC 4515 and that its decoder undoes them.

## What the code does that its documentation does not say

- Resuming resolves the model's name again. A run therefore comes to what a loop that resolves once comes
  to exactly when the name is still served at every stop (`AnsweredRunIsPlainLoopExactlyWhenStillServed`);
  `ModelMayVanishWhileWaiting` is a run that fails when answered, where the other loop completes.
- The checkpoint drops the knowledge bases, the memory switch and each tool's `enabled` flag
  (`RoundTripExactlyWhenNothingDropped`). None of the three is
  read after the first event (`TermsPersisted`).
- `_split_sentences` emits an empty piece if and only if some sentence has exactly the budget and is the
  first that is not blank, or the first after an overlong one (`EmptyPieceExactlyOnFullSentence`; an input
  is in `FullSentenceFirst`). Packing never turns one into an empty chunk.
- When a call in the middle of a message suspends the run, the later calls of that message are never run or
  answered (`LaterCallsGoUnanswered` is such a run). A message is answered in full if and only if no call before
  its last needs a human (`MessageAnsweredInFullExactlyWhenNoEarlyStop`), and so is the request that follows
  (`NextRequestAnswersInFullExactlyWhenNoEarlyStop`).
- Expiring a pending row leaves its run waiting (`ExpiryLeavesARunWaiting`). A waiting run can be answered
  exactly until its call is expired (`AnswerableExactlyUntilExpired`), a sweep expires exactly the overdue
  (`SweepStrandsExactlyTheOverdue`), and from then on only cancelling changes the run
  (`ExpiredRunsWaitForever`).
- An approved call is looked up by name again, without asking the grants. Its name and arguments are the ones
  the approver was shown; the tool is the one shown if and only if the name still stands for it
  (`ApprovalRunsTheToolShownExactlyWhenStillListed`), and may be one the agent was never granted
  (`ApprovalMayRunAnotherTool`).
- A published version is not immutable: deleting a tool or a skill takes its grants out of every version of every
  agent (`DeletionReachesPublishedVersions`). A version changes if and only if something it grants is deleted, and
  loses nothing else (`VersionChangesExactlyWhenAGrantIsDeleted`); an update that leaves the grants alone is
  therefore never refused for them (`InheritingIsRefusedOnlyForIterations`).

## Model

| member | source | states |
|---|---|---|
| RunRefinement.InterruptedRunRefinesUninterrupted | backend/app/services/agent_runtime.py:388-472 | starting a run on any reachable tables and answering it whenever it stops, by anyone but the starter unless a superuser, follows the uninterrupted reference loop; after max_iterations answers it is over, with the same requests, tool calls, iterations, tokens, events (but for those of approval) and ending |
| RunRefinement.InterleavingsDoNotMatter | backend/app/services/agent_runs.py:145-191 | a run answered as the reference decides stays on its way to the reference's verdict under any interleaving with other runs, cancellations of others and expiry |
| RunRefinement.AnsweredRunIsPlainLoopExactlyWhenStillServed | backend/app/services/agent_runtime.py:153-167 | the answered run equals the loop that resolves its model's name only once, if and only if the name is still served at every stop of that loop |
| RunCounterexamples.ModelMayVanishWhileWaiting | backend/app/services/agent_runtime.py:153-167 | a run started through the service waits, is answered, and is FAILED because its model's name no longer resolves, where the plain loop from the same start answers |
| RunCounterexamples.ExpiryLeavesARunWaiting | backend/app/repositories/agents.py:263-285 | after a start and a sweep the run waits with nothing pending |
| RunCounterexamples.ApprovalMayRunAnotherTool | backend/app/services/agent_runtime.py:441-447 | a run asks for a tool, waits, is approved, and the call of the APPROVED row is of another tool of that name, which the agent was never granted |
| RunCounterexamples.LaterCallsGoUnanswered | backend/app/services/agent_runtime.py:273-294 | a message of two calls whose first is refused by a human: the next request holds the answer to the first and none to the second |
| RunRefinement.StartOnItsWay | backend/app/services/agent_runs.py:77-142 | a started run is at once on its way to the reference verdict, and has a pending row if it waits |
| RunRefinement.OneAnswer | backend/app/services/agent_runs.py:145-191 | one answer through the service keeps the run on its way and uses up one suspension |
| Uninterrupted.StartRefines | backend/app/services/agent_runtime.py:120-320 | a fresh stream ends on its way to what the reference loop computes from the opened conversation and the events that open it |
| Uninterrupted.ResumeRefines | backend/app/services/agent_runtime.py:388-472 | resuming from the row and the pending execution alone continues the reference loop with the decision taken in place |
| Uninterrupted.OpenSimulates | backend/app/services/agent_runtime.py:134-151 | a run opens with RUN_STARTED, the search in the first 200 characters and the memories if there are any, and the context in front of the question |
| Uninterrupted.DecideSimulates | backend/app/services/agent_runtime.py:404-456 | a decision has the effect, events included, of asking the human in place |
| Uninterrupted.BatchSimulates | backend/app/services/agent_runtime.py:238-310 | a batch suspends exactly when it reaches a call that needs a human; otherwise it has the reference's effect |
| Uninterrupted.MessageAnsweredInFullExactlyWhenNoEarlyStop | backend/app/services/agent_runtime.py:238-310 | once a message is behind a run, suspended and decided or not, it is answered in full if and only if no call before its last needs a human |
| Uninterrupted.NextRequestAnswersInFullExactlyWhenNoEarlyStop | backend/app/services/agent_runtime.py:170-310 | so is the request after it, if there is one |
| Uninterrupted.BatchAnsweredInFullExactlyWhenNoEarlyStop | backend/app/services/agent_runtime.py:238-310 | the same of the reference loop, from any position of the batch |
| Uninterrupted.LoopSimulates | backend/app/services/agent_runtime.py:170-320 | the loop from any head agrees with the reference loop |
| Uninterrupted.ResolvingAgainShows | backend/app/services/agent_runtime.py:153-167 | the reference with and without fresh resolution agree if and only if the name is still served wherever the plain loop stops |
| Uninterrupted.VerdictKeepsRequests | backend/app/services/agent_runtime.py:170-189 | what was sent stays a prefix of what is sent, and the next request is the next one in it |
| RunTheorems.OnePendingCall | backend/app/repositories/agents.py:236-252 | after any history a pending execution belongs to a waiting run and is that run's only one |
| RunTheorems.ExecutedOnlyWithAuthority | backend/app/services/tool_pipeline.py:106-251 | executors are called at most once per row, only for rows needing no approval or approved, only on rows of tools granted to the version that started, with the name and arguments of the row; without an approval only the row's own tool, enabled and permitted to the starter |
| RunDecisions.SwitchedOffTypesStayOff | backend/app/services/tool_pipeline.py:158-197 | in any one step, a tool of a type the settings switch off throughout it is executed only for a call a human approved |
| RunTheorems.OutcomeExactlyWhenExecuted | backend/app/services/tool_pipeline.py:204-316 | a row holds an executor's outcome if and only if one was called for it; pending, refused and expired rows hold none, a denial by the pipeline holds a failure |
| RunDecisions.ApproverIsAnotherPerson | backend/app/services/agent_runs.py:160-171 | expired, pending and unneeded rows name nobody, approved rows somebody; for every row that names an approver there is a step of the history at which that person took that decision on that row, and if they started the run they were a superuser at that step |
| RunDecisions.ApprovalRunsTheToolShownExactlyWhenStillListed | backend/app/services/agent_runtime.py:441-456 | an approved call runs if and only if the catalogue still has a tool of that name, and runs the tool with a given id if and only if that is the id it has now |
| RunDecisions.ApproveWrites | backend/app/services/agent_runs.py:145-191 | an accepted answer writes the decision on the pending row, changes no other row or run, makes the one call it allows first, and then only appends |
| RunDecisions.StartWrites | backend/app/services/agent_runs.py:77-142 | a start adds one run, leaves every row and run as it was, and writes rows of its own that name nobody |
| RunAnswers.AnswerableExactlyUntilExpired | backend/app/services/agent_runs.py:154-171 | after any history a waiting run stands at its last row, which is open or expired, and an answer by whoever may give it is accepted if and only if that row is open |
| RunAnswers.ExpiredRunsWaitForever | backend/app/repositories/agents.py:263-285 | a waiting run with nothing pending stays exactly as it is under any history that does not cancel it |
| RunAnswers.SweepStrandsExactlyTheOverdue | backend/app/repositories/agents.py:263-285 | a sweep takes away the last answer to a waiting run if and only if its call was requested before the cutoff |
| RunAnswers.LeftAlone | backend/app/services/agent_runs.py:77-239 | a step that neither answers nor cancels a run leaves the run as it is and can only expire its open row |
| RunTheorems.TraceIsNumbered | backend/app/services/agent_runtime.py:134-151 | events are numbered 1 to n over the whole life of a run, across retrieval and resumptions; RUN_STARTED is the first and only the first |
| RunTheorems.TraceAccountsForRow | backend/app/services/agent_runtime.py:170-218 | LLM_REQUEST events, iterations and requests sent are equal in number and bounded, suspensions never exceed them, tokens are the sums over LLM_RESPONSE events |
| RunTheorems.RequestsAreWellFormed | backend/app/services/agent_runtime.py:168-310 | every request carries the starting version's prompt and temperature; for each of its tools, in order, its name, its description and its schema as registered or, if empty, the schema of no parameters; and a conversation answering each earlier batch in order: wholly, or up to the suspended call |
| RunInvariants.OffersDescribeTools | backend/app/services/agent_runtime.py:574-588 | the tools offered are the agent's, one by one, each by its own name, description and schema |
| RunTheorems.RestingRowsAgreeWithTrace | backend/app/services/agent_runtime.py:492-524 | between requests no run is RUNNING, a run has an end time if and only if it is over, a completed run's checkpoint is empty and a failed one's kept, and a waiting run's checkpoint agrees with its trace and reads back as its version |
| RunTheorems.StreamEndsOnce | backend/app/services/agent_runtime.py:220-320 | each started or resumed stream ends with exactly one terminal or suspending event, and the row is in the state it announces |
| RunTheorems.StepEvolves | backend/app/services/agent_runs.py:77-239 | a step only adds to traces and tables; terminal runs are frozen; a row leaves PENDING once, to APPROVED, REJECTED or EXPIRED |
| RunTheorems.HistoryEvolves | backend/app/services/agent_runs.py:77-239 | the same over any further history |
| RunTheorems.ResumeEvolves | backend/app/services/agent_runtime.py:388-472 | resuming settles exactly the pending row, extends the trace, and leaves a new pending row last if the run waits again |
| RunHistory.HistoryInv | backend/app/services/agent_runs.py:77-239 | the platform invariant (runs at rest, executors authorised, rows safe) holds after every history |
| RunHistory.StepInv | backend/app/services/agent_runs.py:77-239 | each of start, approve, cancel and expire keeps it |
| RunHistory.DrainedTables | backend/app/services/agent_runtime.py:170-320 | a stream drained on tables with nothing of its own pending keeps the tables safe |
| RunHistory.SettledTables | backend/app/services/agent_runtime.py:408-456 | closing the pending row, with at most the one executor call an approval allows, keeps the tables safe and leaves nothing pending for the run |
| RunHistory.DecisionCloses | backend/app/services/agent_runtime.py:408-456 | a decision changes only the pending row, names its taker, and calls an executor for that row only, at most once, and only if approved |
| RunEffects.CallIsJudged | backend/app/services/tool_pipeline.py:106-197 | one row is written for a call, of that time: REJECTED if and only if the tool is disabled, of a type that is off, not granted or not permitted, with the first of these as the reason; PENDING if and only if none holds and the risk needs a human; NOT_REQUIRED otherwise; with the message, the event and the executor call each of them has |
| RunEffects.GrantedIsListed | backend/app/services/agent_runtime.py:132 | the allow-list is exactly the ids in the configurations of the agent's tools |
| RunEffects.DecisionAnswers | backend/app/services/agent_runtime.py:404-456 | a decision answers the suspended call with the refusal, the loss of the tool or the executor's answer, writes its events in order on from the checkpoint, and puts that answer into the row |
| RunEffects.StartRefusedExactlyWhen | backend/app/services/agent_runs.py:86-91 | a start is refused if and only if the agent is disabled or else has no version, and then changes nothing |
| RunEffects.ApproveRefusedExactlyWhen | backend/app/services/agent_runs.py:154-171 | each of the four refusals of an answer holds if and only if its condition does and no earlier one; a refusal changes nothing |
| RunEffects.CancelWrites | backend/app/services/agent_runs.py:226-239 | a terminal run and every row stay as they are; any other run is CANCELLED now, its open row EXPIRED now, every other run and row unchanged, and nothing of it is open |
| RunEffects.CancelUnknown | backend/app/services/agent_runs.py:194-198 | cancelling a run there is not is refused and changes nothing |
| RunEffects.CancelIsFinal | backend/app/services/agent_runs.py:226-239 | over any further history no answer to a cancelled run is taken, and nothing more is sent or executed for it |
| RunEffects.SweepWrites | backend/app/repositories/agents.py:263-285 | a sweep touches no run and expires exactly the open rows requested before the cutoff, at its time |
| RunEffects.RowsAreOfTheirTime | backend/app/services/tool_pipeline.py:106-125 | every row was written by a step of the history, for the run that step started or resumed, and its requested time is that step's |
| RunHistory.CancelRests | backend/app/services/agent_runs.py:226-239 | a run at rest, marked CANCELLED, is a consistent finished run |
| RunHistory.PendingFor | backend/app/repositories/agents.py:236-252 | a pending row of the run if there is one, None exactly when there is none |
| RunHistory.Swept | backend/app/repositories/agents.py:263-285 | exactly the pending rows requested before the cutoff become EXPIRED, every other row is as it was |
| RunInvariants.StartKeeps | backend/app/services/agent_runtime.py:120-320 | a fresh stream is drained: numbered, accounted for, ending once, in the announced state |
| RunInvariants.ResumeKeeps | backend/app/services/agent_runtime.py:388-472 | so is a resumed one, from any consistent suspended row |
| RunInvariants.IterateKeeps | backend/app/services/agent_runtime.py:170-320 | the loop drains from any consistent head, under the version or its checkpoint image |
| RunInvariants.BatchKeeps | backend/app/services/agent_runtime.py:238-310 | a batch leaves all its calls answered in order, or a consistent suspended row |
| RunInvariants.DecideKeeps | backend/app/services/agent_runtime.py:404-456 | a decision turns a suspended row into a loop head whose last batch is answered up to the suspended call |
| ExecutionTable.DrainAppends | backend/app/services/tool_pipeline.py:106-155 | a stream appends rows and never touches earlier ones; only the last row can be pending, and is exactly when the run waits; executors are called in row order for new rows only |
| ExecutionTable.BatchAppends | backend/app/services/tool_pipeline.py:106-155 | the same for one batch |
| AgentSpecs.SpecRoundTrip | backend/app/services/agent_runs.py:286-308 | reading a stored spec back gives the spec minus exactly what the JSON drops |
| AgentSpecs.RoundTripExactlyWhenNothingDropped | backend/app/services/agent_runtime.py:635-660 | the round trip is the identity if and only if no dropped field is in use |
| AgentSpecs.PersistedKeepsGrants | backend/app/services/agent_runtime.py:132 | the granted tool ids survive the checkpoint |
| Uninterrupted.TermsPersisted | backend/app/services/agent_runtime.py:635-660 | nor is anything else the loop uses of an agent lost: model, prompt, temperature, offered tools, iterations, grants |
| AgentSpecs.PersistedTwice | backend/app/services/agent_runtime.py:492-511 | storing the spec read from a checkpoint stores the same JSON, so further suspensions lose nothing more |
| AgentRuntime.AgentRun.constructor | backend/app/services/agent_runs.py:95-115 | the row a run starts with |
| AgentRuntime.AgentRun.Persist | backend/app/services/agent_runs.py:242-262 | one event is written and nothing else changes |
| AgentRuntime.AgentRun.Suspend | backend/app/services/agent_runtime.py:492-511 | the row waits, holding conversation, call, iteration, next sequence and the spec it already carried |
| AgentRuntime.AgentRun.Complete | backend/app/services/agent_runtime.py:513-518 | COMPLETED with its output and an empty checkpoint |
| AgentRuntime.AgentRun.Fail | backend/app/services/agent_runtime.py:520-524 | FAILED with its error, the checkpoint kept |
| AgentRuntime.Executions.Invoke | backend/app/services/tool_pipeline.py:106-155 | denied if and only if the call may not be made, with the first reason; pending if and only if it may and its risk needs a human; a result otherwise; with the row each leaves, and an executor called only for a result |
| AgentRuntime.Executions.ExpireOlderThan | backend/app/repositories/agents.py:263-285 | settling the stale rows one by one equals the simultaneous sweep, and counts them |
| AgentRuntime.Retrieve | backend/app/services/agent_runtime.py:322-385 | at most two events numbered on from the caller's, and the context put in front of the conversation |
| AgentRuntime.HandleCall | backend/app/services/agent_runtime.py:238-310 | one call has the specified effect; it stops the stream exactly when the run waits |
| AgentRuntime.Dispatch | backend/app/services/agent_runtime.py:258-310 | denied, suspended or executed, each with its event and its tool message |
| AgentRuntime.HandleBatch | backend/app/services/agent_runtime.py:238-310 | the loop over the calls of one message equals the recursive batch, stopping at the first suspension |
| AgentRuntime.Send | backend/app/services/agent_runtime.py:171-189 | iteration counted, LLM_REQUEST written, request as specified |
| AgentRuntime.Take | backend/app/services/agent_runtime.py:200-218 | tokens added, LLM_RESPONSE written |
| AgentRuntime.Exchange | backend/app/services/agent_runtime.py:171-228 | one request and its answer: failed, completed, or tool calls to run |
| AgentRuntime.OneIteration | backend/app/services/agent_runtime.py:170-310 | one pass of the loop either goes on as specified or ends the stream as specified |
| AgentRuntime.ServeLoop | backend/app/services/agent_runtime.py:170-320 | the while loop and what follows it equal the recursive loop |
| AgentRuntime.RunStream | backend/app/services/agent_runtime.py:120-320 | a whole drained stream equals the specified one, from any starting sequence and iteration |
| AgentRuntime.TurnsIterate | backend/app/services/agent_runtime.py:170-310 | a chain of non-final passes leaves the outcome of the loop unchanged |
| AgentRunService.Decide | backend/app/services/agent_runtime.py:404-456 | the decision has the specified effect on run, table, conversation and sequence |
| AgentRunService.Resume | backend/app/services/agent_runtime.py:388-472 | the resume path, guard included, equals the specified one |
| AgentRunService.RunService.constructor | backend/app/services/agent_runs.py:57-74 | the service starts on empty tables |
| AgentRunService.RunService.Start | backend/app/services/agent_runs.py:77-142 | start is the start step of the history, errors included, and touches no existing run |
| AgentRunService.RunService.Approve | backend/app/services/agent_runs.py:145-191 | approve is the approve step: four refusals in order, then one resumed stream on that run only |
| AgentRunService.RunService.Cancel | backend/app/services/agent_runs.py:226-239 | cancel is the cancel step: a terminal run untouched, otherwise CANCELLED with its pending row expired |
| AgentRunService.RunService.ExpireOlderThan | backend/app/repositories/agents.py:263-285 | expiry touches the executions only |
| PackingOptimality.GreedyIsOptimal | backend/app/services/chunking.py:140-165 | without overlap, no grouping of the non-empty pieces into consecutive groups within the budget has fewer groups than the packing has chunks |
| PackingOptimality.GreedyIsAGrouping | backend/app/services/chunking.py:140-165 | the packing is itself such a grouping, its chunks the joined groups |
| PackingOptimality.FullerIsWorse | backend/app/services/chunking.py:146-161 | a fuller chunk in progress never saves a chunk and costs at most one |
| PackingProofs.PackPartitions | backend/app/services/chunking.py:140-165 | the packing partitions the pieces in order, each chunk being nothing or its predecessor's tail and then its own pieces |
| PackingProofs.ChunksInProgress | backend/app/services/chunking.py:140-165 | every packed chunk is non-empty, has text in it and fits the budget, for any overlap argument |
| PackingProofs.SplitIsWorthEmbedding | backend/app/services/chunking.py:75-94 | every text `_split` returns is non-empty once stripped, and then within the budget |
| PackingProofs.TailIsShortSuffix | backend/app/services/chunking.py:168-174 | a tail is a suffix of at most `overlap` characters |
| PackingProofs.TailStartsOnWord | backend/app/services/chunking.py:168-174 | if the window holds a space, the tail starts right after its first one |
| PackingProofs.TailOfUnbroken | backend/app/services/chunking.py:168-174 | a text no longer than the overlap is its own tail, and a window without a space is the tail |
| ChunkingTheorems.SplitConservesText | backend/app/services/chunking.py:75-165 | each chunk is a carried tail and then its own stretch; the stretches concatenate to the text, whitespace aside |
| ChunkingTheorems.SplitWithoutOverlapIsExact | backend/app/services/chunking.py:75-165 | without overlap the chunks concatenate to the text, whitespace aside |
| ChunkingTheorems.OverlapContract | backend/app/services/chunking.py:151-159 | each chunk after the first starts with the stripped tail of the one before and then the first piece of its own, unless these exceed the budget together, and then with that piece; tails are short |
| ChunkingTheorems.OutputLength | backend/app/services/chunking.py:140-174 | the output is no longer than the pieces, two characters between each two of them, and one overlap per chunk after the first |
| ChunkingTheorems.EveryChunkEmbeddable | backend/app/services/chunking.py:54-72 | every chunk is non-empty, stripped and within the budget, and ordinals are consecutive |
| ChunkingTheorems.SegmentsAreIndependent | backend/app/services/chunking.py:54-72 | chunking a concatenation is concatenating the chunkings, the second renumbered |
| ChunkingTheorems.OneSegment | backend/app/services/chunking.py:67-72 | all chunks of a segment have its location, and without overlap exactly its text |
| ChunkingTheorems.EmptyPieceExactlyOnFullSentence | backend/app/services/chunking.py:97-121 | a paragraph yields an empty piece if and only if one of its sentences is exactly the budget long and is the first non-blank one or the first after an overlong one |
| ChunkingTheorems.FullSentenceFirst | backend/app/services/chunking.py:114-118 | a paragraph that does |
| PackingProofs.StripKeepsPrefix | backend/app/services/chunking.py:155 | stripping a longer text keeps the stripped beginning as its beginning |
| ChunkingProofs.SentencesKeepText | backend/app/services/chunking.py:35 | the sentence split loses only whitespace |
| ChunkingProofs.ParagraphsKeepText | backend/app/services/chunking.py:32 | the paragraph split loses only whitespace |
| ChunkingProofs.SentencesAreUnbroken | backend/app/services/chunking.py:35 | no sentence has one of the three marks with whitespace after it inside |
| SplitBoundaries.SentencesAreSeparated | backend/app/services/chunking.py:35 | a text is its sentences with whitespace between them; each ends on one of the three marks, and the whitespace after it is all there is there |
| ChunkingProofs.ParagraphsAreUnbroken | backend/app/services/chunking.py:32 | no paragraph has two newlines with only whitespace between them inside |
| SplitBoundaries.ParagraphsAreSeparated | backend/app/services/chunking.py:32 | a text is its paragraphs with whitespace between them that begins and ends with a newline, the last before the text goes on |
| SplitBoundaries.ShortTextIsOneChunk | backend/app/services/chunking.py:76-80 | a text within the budget is one chunk as it is, a blank one none |
| SplitBoundaries.FittingParagraphsStayWhole | backend/app/services/chunking.py:84-92 | paragraphs within the budget are pieces, each whole, in order, blank ones dropped |
| SplitBoundaries.ChunksAreWholeParagraphs | backend/app/services/chunking.py:75-94 | without overlap, if every paragraph fits, the chunks are whole paragraphs in order with a blank line between them, in the fewest chunks there can be |
| SplitBoundaries.OverlapIsClamped | backend/app/services/chunking.py:64 | an overlap from nothing to half the budget is used as given, any other as the nearer of the two |
| SentenceGrouping.SentencesAreGroupedGreedily | backend/app/services/chunking.py:97-121 | the non-empty pieces of a paragraph are its overlong sentences cut up and, between them, the others in order, joined by single spaces, each group within the budget and unable to take the next group's first sentence |
| ChunkingProofs.HardCutCutsAtSpaces | backend/app/services/chunking.py:124-137 | pieces of 1 to chunk_size characters starting on text, covering it but for whitespace; cut only where what is left does not fit, at the last space of the budget, and inside a word only where the whole budget and the character after it hold no space |
| ChunkingProofs.HardCutPieces | backend/app/services/chunking.py:124-137 | the cut keeps every other character in order |
| ChunkingProofs.GroupKeeps | backend/app/services/chunking.py:97-121 | sentence groups are pieces within the budget that keep the text |
| ChunkingProofs.PiecesKeepText | backend/app/services/chunking.py:84-92 | so are the pieces of all paragraphs |
| Chunking.CutHard | backend/app/services/chunking.py:124-137 | the loop equals the recursive cut |
| Chunking.SplitSentences | backend/app/services/chunking.py:97-121 | the loop equals the recursive grouping |
| Chunking.GroupOne | backend/app/services/chunking.py:102-118 | one pass of it, branch by branch |
| Chunking.Pack | backend/app/services/chunking.py:140-165 | the loop equals the recursive packing |
| Chunking.PackOne | backend/app/services/chunking.py:146-161 | one pass of it, branch by branch |
| Chunking.SplitText | backend/app/services/chunking.py:75-94 | the method equals the specified split |
| Chunking.PiecesOf | backend/app/services/chunking.py:86-92 | one paragraph: dropped, kept whole, or split into sentences |
| Chunking.NumberTexts | backend/app/services/chunking.py:68-71 | stripped, dropped if empty, numbered on |
| Chunking.ChunkSegments | backend/app/services/chunking.py:54-72 | an error for a non-positive size, otherwise the specified chunks under the clamped overlap |
| Chunking.LastSpace | backend/app/services/chunking.py:130 | the last space before the budget, zero if there is none or only at the front |
| Chunking.FirstSpace | backend/app/services/chunking.py:173 | the first space, the length if there is none |
| LdapFilter.SequentialIsSimultaneous | backend/app/services/auth_providers.py:245-260 | the five replacements in sequence are one simultaneous encoding |
| LdapFilter.EscapeFilter | backend/app/services/auth_providers.py:245-260 | the loop computes that encoding |
| LdapFilter.DecodeEncode | backend/app/services/auth_providers.py:245-260 | the decoder of section 3 of RFC 4515 returns the value |
| LdapFilter.EncodeIsInjective | backend/app/services/auth_providers.py:245-260 | no two values give the same text |
| LdapFilter.EncodeIsValueEncoding | backend/app/services/auth_providers.py:245-260 | every backslash starts a two-digit escape and no other special character is left |
| LdapFilter.NoMetacharacterSurvives | backend/app/services/auth_providers.py:245-260 | no asterisk, parenthesis or NUL in the output |
| LdapFilter.BackslashMustComeFirst | backend/app/services/auth_providers.py:252-258 | of all orders of the five replacements, exactly those that begin with the backslash encode every value |
| Discovery.McpRegistry.Discover | backend/app/services/agent_registry.py:393-475 | the loop over the offer equals the specified reconciliation, counts included; an error catalogues nothing |
| Discovery.DiscoveryGrantsNothing | backend/app/services/agent_registry.py:410-473 | names stay unique, others' tools are untouched, own tools keep every decision, new ones arrive disabled and HIGH, and every named entry is counted once |
| Discovery.PassSettles | backend/app/services/agent_registry.py:464-471 | a row ends with the last non-empty description and schema offered for its name, and with the server's address and the time if it was offered |
| Discovery.DiscoveryCataloguesTheOffer | backend/app/services/agent_registry.py:416-471 | every new row is a tool the server offered, named after server and tool, with the last description and schema offered for it or else its name and none; exactly the entries whose name is somebody else's tool are skipped |
| Discovery.DiscoveryIsIdempotent | backend/app/services/agent_registry.py:410-473 | repeating a discovery creates nothing and changes no field but the date |
| Discovery.OwnRows | backend/app/services/agent_registry.py:411 | the dictionary holds exactly this server's rows, by name |
| AgentVersions.VersionsExplainThemselves | backend/app/services/agent_registry.py:676-784 | after any history of creates, updates, registrations and deletions, each under the cap of its time, versions are 1 to n, n is current, each field of version k is the value last supplied by then, grants less what was deleted since, iterations under every cap met since and never above the cap met by k |
| AgentVersions.VersionChangesExactlyWhenAGrantIsDeleted | backend/app/models/agents.py:252-287 | over any history a version keeps every other field, keeps exactly the grants of what was not deleted, and stays as it is if and only if nothing it grants was deleted |
| AgentVersions.InheritingIsRefusedOnlyForIterations | backend/app/services/agent_registry.py:702-724 | after any history an update that supplies no grants is accepted if and only if the capped iterations are 1 to 100 |
| AgentVersions.DeletionReachesPublishedVersions | backend/app/services/agent_registry.py:581-582 | a history in which deleting a skill empties a published version, and the next update is accepted without it |
| AgentVersions.DeletionIsLatest | backend/app/models/agents.py:252-287 | a deletion takes from a version exactly what it takes from the values supplied for it |
| AgentVersions.Cascade | backend/app/models/agents.py:252-287 | every version loses the one grant and nothing else |
| AgentVersions.CurrentIsNewest | backend/app/repositories/agents.py:112-141 | get_current finds the newest version and next_version is one more |
| AgentVersions.CreateRefusedExactlyWhen | backend/app/services/agent_registry.py:617-664 | a create is refused for its slug, then for a slug that is taken, then for its definition, and else adds exactly the agent and its first version |
| AgentVersions.ValidSlugMatchesPattern | backend/app/services/agent_registry.py:58 | a slug is valid if and only if it matches the pattern |
| AgentVersions.CheckRefusesExactlyWhen | backend/app/services/agent_registry.py:755-784 | a definition is refused if and only if it grants a tool or else a skill that does not exist, or else breaks a constraint; only its iterations change |
| AgentVersions.UpdateWrites | backend/app/services/agent_registry.py:816-854 | an update changes the identity fields supplied, of that agent alone, keeps its slug, and appends one version |
| AgentVersions.GrantStepsWrite | backend/app/services/agent_registry.py:234-244 | registering and deleting change one id of one kind; deleting what is not there is refused |
| AgentVersions.SlugsStayUnique | backend/app/services/agent_registry.py:633-639 | over any history slugs match the pattern, no two agents share one, and an agent keeps its own |
| AgentVersions.MergeIsLatest | backend/app/services/agent_registry.py:702-724 | merging a change into the last version gives the last values supplied, whatever has been deleted |
| AgentVersions.AgentRegistry.constructor | backend/app/services/agent_registry.py:617-674 | the registry starts empty |
| AgentVersions.AgentRegistry.CheckDefinition | backend/app/services/agent_registry.py:755-784 | missing tools and skills are refused, iterations capped, constraints checked |
| AgentVersions.AgentRegistry.CreateAgent | backend/app/services/agent_registry.py:617-674 | the create step, errors leaving the tables as they were |
| AgentVersions.AgentRegistry.UpdateAgent | backend/app/services/agent_registry.py:816-854 | the update step: identity in place, everything else a new version that inherits the grants still standing, errors leaving the tables as they were |
| AgentVersions.AgentRegistry.RegisterTool | backend/app/services/agent_registry.py:104-167 | one more tool to grant, nothing else |
| AgentVersions.AgentRegistry.CreateSkill | backend/app/services/agent_registry.py:551-579 | one more skill to grant, nothing else |
| AgentVersions.AgentRegistry.DeleteTool | backend/app/services/agent_registry.py:234-244 | refused if there is none; otherwise gone, from every version too |
| AgentVersions.AgentRegistry.DeleteSkill | backend/app/services/agent_registry.py:581-582 | the same of a skill |
| ApiKeys.HistoryEvolves | backend/app/services/api_keys.py:106-229 | over any history expiry only moves earlier, revocation stays, and links lead to younger keys of the same client, scopes and rate limit |
| ApiKeys.InactiveForever | backend/app/models/models_registry.py:390-394 | an inactive key is never active again |
| ApiKeys.ActiveExactlyWhen | backend/app/models/models_registry.py:390-394 | a key works until it is revoked or its expiry comes |
| ApiKeys.CreateRefusedExactlyWhen | backend/app/services/api_keys.py:106-157 | a key is refused if and only if the client is unknown or else the expiry has come; it is added as asked for and works at once |
| ApiKeys.RotateGrantsTheGrace | backend/app/services/api_keys.py:159-212 | the refusals in order; else the replacement has the key's expiry, and the key itself works for as long as it would have but no longer than the grace |
| ApiKeys.RevokeEnds | backend/app/services/api_keys.py:214-229 | a revoked key never works again, and revoking twice changes nothing |
| ApiKeys.ChainIsUniform | backend/app/services/api_keys.py:159-212 | rotation chains are acyclic and constant in client, scopes and rate limit |
| ApiKeys.NoDescendantOutlivesItsRoot | backend/app/services/api_keys.py:159-212 | over any history, no key minted to replace another, however indirectly and however often either was rotated, outlives the expiry the first was minted with; client, scopes and rate limit are the same |
| ApiKeys.NoChainOutlivesItsRoot | backend/app/services/api_keys.py:159-212 | in particular no key along the rotated_to links |
| ApiKeys.ApiKeyService.constructor | backend/app/services/api_keys.py:30-43 | the table starts empty |
| ApiKeys.ApiKeyService.CreateKey | backend/app/services/api_keys.py:106-157 | the create step with its two refusals |
| ApiKeys.ApiKeyService.RotateKey | backend/app/services/api_keys.py:159-212 | the rotate step: refusals in order, the replacement minted, then the old key's expiry and link |
| ApiKeys.ApiKeyService.RevokeKey | backend/app/services/api_keys.py:214-229 | the revoke step, idempotent |
| Enrollment.TokenWonAtMostOnce | backend/app/repositories/infrastructure.py:92-118 | under any interleaving a token is won at most once and never at or after the expiry it was issued with, purged or not |
| Enrollment.ClaimWinsExactlyWhenStanding | backend/app/repositories/infrastructure.py:92-118 | after any history a claim wins if and only if the token was issued, its time has not come, and nobody has won or revoked it; the row is CONSUMED then and no other changes; a claim that does not win changes nothing |
| Enrollment.RevokeExactlyWhen | backend/app/services/node_enrollment.py:146-167 | the two refusals hold exactly under their conditions; else the row is REVOKED, once, and no other changes |
| Enrollment.HousekeepingExactlyWhen | backend/app/repositories/infrastructure.py:120-144 | a sweep closes exactly the open invitations whose time has come, a purge deletes exactly the closed ones last touched before its cutoff |
| Enrollment.OneOpenInvitationPerName | backend/app/models/infrastructure.py:176-185 | at most one pending row per node name, and the consumed rows are exactly the ones won |
| Enrollment.HistoryEvolves | backend/app/repositories/infrastructure.py:92-144 | a row leaves PENDING at most once; consumed and revoked rows are never changed |
| Enrollment.SweepFreesNames | backend/app/repositories/infrastructure.py:120-134 | right after a sweep a name is taken if and only if an invitation for it can still be claimed |
| Enrollment.IssueRefusedExactlyWhenTaken | backend/app/services/node_enrollment.py:84-131 | issuing is refused first if and only if a node of that name is registered and is not to be enrolled again, then if and only if an invitation for it can still be claimed; otherwise the token is claimable |
| Enrollment.EnrollmentStore.constructor | backend/app/repositories/infrastructure.py:64-66 | no invitation yet |
| Enrollment.EnrollmentStore.ClaimToken | backend/app/repositories/infrastructure.py:92-118 | the compare-and-set: wins exactly on a pending unexpired row, and changes only it |
| Enrollment.EnrollmentStore.Sweep | backend/app/repositories/infrastructure.py:120-134 | exactly the elapsed pending rows become EXPIRED, counted |
| Enrollment.EnrollmentStore.Purge | backend/app/repositories/infrastructure.py:136-144 | exactly the settled rows last touched before the cutoff go, counted |
| Enrollment.EnrollmentStore.Create | backend/app/services/node_enrollment.py:84-131 | sweep, then refuse twice over or issue; a refusal leaves the table as it was, its transaction rolled back |
| Enrollment.EnrollmentStore.RevokeToken | backend/app/services/node_enrollment.py:146-167 | refused once consumed, idempotent, otherwise REVOKED |

## Left out

- Concurrency: start, approve, cancel and expire are atomic steps with their stream fully drained; abandoning a stream half way and cancelling during one are not modelled, nor is the runtime's own `cancel`.
- The model, name resolution, tool catalogue, executors and retrieval are functions in `World`; truncation, missing executors and their exceptions are inside `execute` and `executeApproved`, which answer with a success flag and a content.
- The user who started a run is never deleted; deleting a tool does not set the tool id of its execution rows to NULL, they keep the id they were written with; agents are never deleted.
- Text of the runtime's own sentences: tool messages, errors and denial reasons are constructors with their arguments; where an event and the row word one cause differently, both hold the same constructor.
- Event payloads keep what the accounting reads; arguments, risk level, truncation flag and durations are dropped, and with them `_redact`; the reason of a decision is told to the model but not kept in the row.
- `_parse_arguments`: a call's arguments are already the dictionary it yields. JSON decoding is foreign code.
- A stored spec whose value under a key has a JSON type `_spec_to_json` never writes there is read as if the key were absent; the source would store or convert that value.
- `build_spec`, the audit log, metrics, tracing and Langfuse.
- `pending_for_run` orders by creation time; the model takes the first in table order. A run never has two pending rows, so the order never shows.
- Whitespace is one predicate on characters; Unicode normalisation and the regular-expression engine are not modelled, the two splits are scanners for the two patterns.
- `token_estimate` of a chunk.
- Discovery: the report of unusable schemas, the sentence put together from the counts, the server's status fields, and the MCP request itself.
- Agent versions: `created_by` and the change note; tools and skills are their ids, not the rows behind them; the order of grants is kept as given.
- API keys: the secret, its hash and prefix, and clients' own creation.
- Enrolment: choosing the time to live, the probe of the node and its registration, attempt counts, and the source address; the registered names are an input; hashes of new tokens are assumed fresh.
- Routers, migrations, password hashing, JWT, OIDC, LDAP binds, backup scripts, telemetry, containers and GPU placement.
