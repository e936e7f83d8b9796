# AgentScope: protocols and loops, verified

This project models the parts of AgentScope whose correctness depends on more than one function and
proves what they are for: checkpointed pipelines and agent sessions that survive crashes, lost
acknowledgements and competing workers; tool calls that never run twice; a history selection that
never separates a result from its call; and the byte- and event-level loops underneath them.

Protocols are state machines. An event is one atomic effect of one worker, caller or operator, chosen
freely by the environment; `After` folds any finite sequence of events, and every theorem is about
every such run. A store operation takes a flag or `Fault` that says whether it commits and whether its
caller learns of it. Loops and updated objects are imperative, each proved against a specification
about which the laws are then proved. Models, tools, hooks, interrupts and storage failures are inputs
over which everything is quantified.

| file | what it models |
|---|---|
| `Messages.dfy` | messages, content blocks, results |
| `Checkpoints.dfy`, `PipelineProtocol.dfy` | the pipeline's compare-and-swap store; any number of workers on one key |
| `PipelineRun.dfy`, `PipelineStream.dfy` | plain, checkpointed and streamed execution of the stages |
| `PipelineRefinement.dfy` | the executor, over a run, its resumes and reconciliations, as one of the protocol's workers |
| `StreamRefinement.dfy` | a stream, dropped at any yield, as such a resume |
| `Idempotency.dfy`, `IdempotencyProtocol.dfy` | the durable table of claims; any number of callers of it |
| `IdempotencyRefinement.dfy` | one call of the wrapped tool as a caller of that protocol |
| `LocalIdempotency.dfy` | the bounded process-local table |
| `AgentSession.dfy`, `AgentTools.dfy` | agent instances sharing a session; the session and the claims together |
| `Confirmation.dfy`, `ReAct.dfy` | confirmation checkpoints and saved state; one agent's loop, pauses and resumes |
| `AgentRefinement.dfy` | all that any agent instances do, as a run of their session |
| `RecentTurns.dfy`, `SelectionLaws.dfy` | selection of recent turns, and its laws |
| `Completed.dfy`, `Budget.dfy` | the acceptor of finished histories; the token budget's search |
| `Utf8.dfy`, `Paging.dfy`, `Offload.dfy` | UTF-8 (section 4 of RFC 3629), paged reads, references to offloaded text |
| `Accumulator.dfy` | the streaming accumulator |
| `Parallel.dfy` | the bounded parallel fan-out |
| `Framing.dfy` | newline-delimited frames |

Four promises of the code or its documentation do not hold as stated; each has a concrete witness and
an exact condition:

- The dependency pass can keep a result without its call: a System message before the cut can pull
  the cut back past a result that the pass has already skipped (`SkippedResultIsOrphaned`). For each
  history, that is the only way (`StartIsClosedIff`, `ExchangesKeptIff`). Over the roles allowed to
  carry results, exchanges are always kept exactly when System messages carry none or are the only
  ones that do (`ExchangesKeptIffRolesUnmixed`).
- A paused reply is not always accepted on reload: pausing does not check that call identifiers are
  distinct (`SharedIdsAreRejected`), and that is exactly the condition (`PausedStateIsValidIff`).
- A hook that fails after a tool call leaves memory settled and the checkpoint in place; what is saved
  then is rejected on reload (`FailingHookIsRejected`). It is accepted exactly when the checkpoint was
  cleared (`SettledStateIsValidIffCleared`, and `Sound` in the contracts of `ReActAgent`).
- A stored tool result may be in doubt. The table refuses only its own in-doubt code, so an operator can
  store the tool's (`OperatorsMayStoreInDoubt`); this is the only way (`InDoubtStoredIff`,
  `InDoubtIsStoredByOperators`).

Automatic induction is off for every lemma, so that each inductive step is written out.

## Model

| member | source | states |
|---|---|---|
| Checkpoints.InMemoryPipelineStore.Save | src/pipeline/checkpoint.rs:130-158 | commits exactly when the expected revision is the one found and can grow, and touches no other key |
| Checkpoints.InMemoryPipelineStore.Load | src/pipeline/checkpoint.rs:119-128 | returns the committed record |
| Checkpoints.TrySave | src/pipeline/checkpoint.rs:91-101 | a save through any store: it fails, or commits what the compare-and-swap commits, acknowledged or not |
| Checkpoints.Handoff | src/pipeline.rs:656-675 | the imperative scan computes the handoff: the visible text of the reply, or why there is none |
| Checkpoints.HandoffAccepts | src/pipeline.rs:656-675 | a reply is handed off exactly when it holds only text and thinking, and some text block is not blank; any other block is what it is refused for first |
| Checkpoints.TextOfAppended | src/pipeline.rs:656-670 | the visible text, blank or not, block by block: texts in order with one line break between any two, thinking adds nothing, anything else leaves no text |
| Checkpoints.HandoffCarries | src/pipeline.rs:670-675 | what is handed off is one user message in the source's name, with one block of exactly that text |
| Checkpoints.UsableCheckpoint | src/pipeline.rs:492-519 | a checkpoint is trusted exactly when it has the known version, this pipeline's names, the wanted status, and every completed stage once, in order, under its name |
| PipelineProtocol.EachStageInvokedAtMostOnce | src/pipeline.rs:521-590 | no stage is invoked twice, by any workers, under any interleaving, crash or lost acknowledgement |
| PipelineProtocol.InvocationsAreFenced | src/pipeline.rs:540-562 | every invocation had its stage's in-flight record committed first and used the input committed there |
| PipelineProtocol.RevisionCountsStages | src/pipeline.rs:322-352 | the stored revision is exactly 2c+1, or 2c+2 in flight, for c completed stages, so at most 2N+1 saves ever commit; finished means all stages |
| PipelineProtocol.FinishedIsReadable | src/pipeline/checkpoint.rs:40-55 | the output, all steps and the last stage's reply, is readable from the store exactly when the run is finished |
| PipelineProtocol.NextInputIsHandoff | src/pipeline.rs:468-489 | every committed ready record carries the original input, or the handoff of the last committed reply |
| PipelineProtocol.CommitsOnlyGrow | src/pipeline/checkpoint.rs:130-158 | committed records are never taken back, however a run goes on |
| PipelineProtocol.ProgressOnlyGrows | src/pipeline.rs:472-489 | committed replies are never replaced, dropped or reordered, and revisions never fall |
| PipelineProtocol.EveryCommitIsAuthored | src/pipeline.rs:414-490 | every commit was made by the event entitled to it: a fence, the stage's own reply, or a verified reply of the stage's agent |
| PipelineProtocol.RunKeepsInv | src/pipeline.rs:521-590 | every reachable state keeps the chain of legal commits, the ownership of in-flight records and the once-only log |
| PipelineRun.Run | src/pipeline.rs:147-193 | the plain loop computes the recursive specification of running every stage once, in order |
| PipelineRun.RunTells | src/pipeline.rs:147-193 | a plain run answers with exactly what its stages did: each ran once, in order, on the handoff of the one before, or the run names the stage that stopped it and why |
| PipelineRun.ExecuteStage | src/pipeline.rs:532-581 | one stage of the checkpointed loop: the exact error, record and store it leaves, whichever of its saves fails or goes unacknowledged, and what it invoked |
| PipelineRun.StageStopsFor | src/pipeline.rs:532-581 | why a stage of the executor stops: an interrupt that was seen, a save that failed, revisions run out, its agent's failure, or a reply that cannot be handed off |
| PipelineRun.ExecuteCheckpointed | src/pipeline.rs:521-590 | the checkpointed loop: exact result and store, one key written |
| PipelineRun.RunCheckpointed | src/pipeline.rs:322-352 | starts only an absent key and then executes from the initial record; an unacknowledged start leaves that record |
| PipelineRun.ResumeCheckpointed | src/pipeline.rs:361-400 | continues exactly from a usable ready record and otherwise refuses and writes nothing |
| PipelineRun.ReconcileCheckpointed | src/pipeline.rs:414-490 | commits a verified reply exactly under the inspected revision, for the one stage in flight, and otherwise writes nothing; the exact reason of every refusal |
| PipelineRun.SessionAgrees | src/pipeline.rs:521-590 | whatever interrupts it and whichever saves fail or go unacknowledged, a checkpointed session's success is the plain run's, a boundary it leaves keeps the plain answer, a finished record it leaves holds that answer, and its agent and handoff errors are the plain run's |
| PipelineRun.QuietSessionDelivers | src/pipeline.rs:521-590 | uninterrupted, the checkpointed session succeeds exactly when the plain run does |
| PipelineRun.ResumedRunsAgree | src/pipeline.rs:361-400 | a run and any number of resumes deliver, if they succeed, what the plain run delivers; if they leave a finished record, it holds that |
| PipelineRun.ResumesStopAtBoundary | src/pipeline.rs:361-400 | a session that leaves a ready record leaves one whose revision counts its stages |
| PipelineRun.StoppedRunsDeliverThePlainAnswer | src/pipeline.rs:147-193 | stopped at boundaries any number of times and then resumed undisturbed, a run succeeds exactly when the plain run does, with the same output |
| PipelineRefinement.StageIsSteps | src/pipeline.rs:532-581 | one stage of the executor is a stretch of protocol events with the same commits, the same stored record and the same logged invocations |
| PipelineRefinement.SessionIsSteps | src/pipeline.rs:521-590 | so is a whole session, with failing and unacknowledged saves, from any protocol state in which its worker holds the stored boundary; the protocol's log grows by exactly the agents the executor invoked |
| PipelineRefinement.ReconcileIsSteps | src/pipeline.rs:414-490 | a reconciliation is an inspection and a save of the protocol: it commits exactly what it leaves stored and invokes nothing |
| PipelineRefinement.RunIsReachable | src/pipeline.rs:361-400 | a run with any number of resumes, by any agents, and reconciliations, however interrupted and acknowledged, is a reachable run of the protocol with the same stored record and invocations |
| PipelineRefinement.ExecutorInvokesOnce | src/pipeline.rs:521-590 | so the executor itself, over a run and all its resumes and reconciliations, invokes no stage twice |
| PipelineRefinement.ProgressIsResumed | src/pipeline.rs:361-400 | those resumes leave stored what the resumes compared with the plain run leave |
| PipelineStream.PollAgent | src/pipeline/streaming_checkpoint.rs:211-252 | polled a number of times, a stage's stream yields exactly that prefix of its events, or all of them and how it ends |
| PipelineStream.StageRunTells | src/pipeline/streaming_checkpoint.rs:211-252 | a stage forwards its agent's items in order and without gaps, up to the first that ends it, and ends as that item, the interrupt, the error or the end of the stream says |
| PipelineStream.PollStage | src/pipeline/streaming_checkpoint.rs:124-196 | one stage of the generator, stopped at any yield: the events seen, the store left and the agent asked are those of one prefix of its trace that ends at the last yield |
| PipelineStream.Settle | src/pipeline/streaming_checkpoint.rs:162-196 | a stage in flight ends in one failure event, or in its committed reply and one completion event |
| PipelineStream.StageIsSeen | src/pipeline/streaming_checkpoint.rs:132-196 | a consumer sees a stage's start, its agent's events in order, and then its completion or its failure, each under the stage's number |
| PipelineStream.Poll | src/pipeline/streaming_checkpoint.rs:115-209 | a consumer that stops after any number of yields has seen exactly a prefix of the trace, and the store holds what was saved up to the last yield seen, and nothing after it |
| PipelineStream.TraceIsBacked | src/pipeline/streaming_checkpoint.rs:115-209 | every event is backed by the store when it is yielded, except that a failure may name one stage fewer when its commit went unacknowledged; a fully polled stream has exactly one terminal event, last |
| PipelineStream.StageAgrees | src/pipeline/streaming_checkpoint.rs:124-196 | one stage saves the same records, asks the same agent and fails for the same reason, streamed or not |
| PipelineStream.StreamAgrees | src/pipeline/streaming_checkpoint.rs:115-209 | the streamed run's saves and invocations are those of the plain executor, and its last event is that executor's result |
| StreamRefinement.DroppedStreamIsASession | src/pipeline/streaming_checkpoint.rs:115-209 | dropped at any yield, a stream has saved, asked for and left stored exactly what a plain session interrupted there would have |
| StreamRefinement.StreamIsATurn | src/pipeline/streaming_checkpoint.rs:72-111 | so it is one of the resumes of the pipeline protocol |
| StreamRefinement.StreamsInvokeOnce | src/pipeline/streaming_checkpoint.rs:115-209 | after a run and any resumes and reconciliations, a stream invokes no stage that was invoked before, and none twice |
| Idempotency.SQLiteIdempotencyStore.Claim | plugins/agentscope-idempotency-sqlite/src/lib.rs:139-161 | inserts an absent row, reports a stored result or an unfinished claim, refuses another request's key, in one transaction that may fail or go unreported; no other row changes |
| Idempotency.SQLiteIdempotencyStore.Finish | plugins/agentscope-idempotency-sqlite/src/lib.rs:77-135 | the exact row and answer of completing or reconciling; no other row changes |
| Idempotency.FinishAccepts | plugins/agentscope-idempotency-sqlite/src/lib.rs:77-135 | a finish is accepted exactly from the owner or an operator, for the same request, unless another result is stored; afterwards claims return that result |
| Idempotency.FinishRefuses | plugins/agentscope-idempotency-sqlite/src/lib.rs:77-128 | the exact reason for which a finish is refused |
| Idempotency.ClaimAnswers | plugins/agentscope-idempotency-sqlite/src/lib.rs:139-161 | what a claim answers for an absent row, another request, an unfinished and a finished one |
| Idempotency.SharedRecord | plugins/agentscope-idempotency-sqlite/src/lib.rs:63-67 | two requests share a record exactly when namespace, tool and key agree |
| Idempotency.Recordable | src/tool/idempotency.rs:46-62 | a request is well formed exactly when namespace, tool and key are given and not blank; which of them is at fault otherwise |
| Idempotency.InDoubtStoredIff | plugins/agentscope-idempotency-sqlite/src/lib.rs:84-92 | an open row ends up in doubt exactly when the outcome carries the tool's in-doubt code |
| Idempotency.Execute | src/tool/idempotency.rs:176-210 | the tool runs exactly when the key is new and the claim is acknowledged; a run returns the tool's own outcome unless recording it went unacknowledged; the exact table left in every case; a definitive answer is the stored one |
| Idempotency.UnrunAnswers | src/tool/idempotency.rs:187-199 | a caller whose tool does not run gets the stored result, the conflict of another request, or doubt |
| Idempotency.DefinitiveAnswers | src/tool/idempotency.rs:187-208 | every answer of a tool of its own is definitive, and no doubt or refusal that the layer makes up is |
| IdempotencyProtocol.EachKeyRunsAtMostOnce | src/tool/idempotency.rs:176-210 | over all callers, crashes and lost reports, one namespace, tool and key starts its tool at most once, whatever the owner tokens |
| IdempotencyProtocol.DefinitiveAnswersAgree | src/tool/idempotency.rs:188-208 | all definitive answers given for one key are equal, and equal to the stored result, even when an operator races the worker |
| IdempotencyProtocol.RecordsOnlyGrow | plugins/agentscope-idempotency-sqlite/src/lib.rs:77-161 | a record keeps its request, owner and first result in every continuation of a run |
| IdempotencyProtocol.InDoubtIsStoredByOperators | plugins/agentscope-idempotency-sqlite/src/lib.rs:172-178 | a stored in-doubt result was supplied by an operator, with the tool's own code |
| IdempotencyProtocol.OperatorsMayStoreInDoubt | plugins/agentscope-idempotency-sqlite/src/lib.rs:84-92 | the run that stores one |
| IdempotencyProtocol.RunKeepsInv | src/tool/idempotency.rs:176-210 | every reachable state keeps single ownership, once-only runs and answers equal to what is stored |
| IdempotencyRefinement.ExecuteInProtocol | src/tool/idempotency.rs:176-210 | at any point of the other callers, a call is a stretch of the protocol with the same table, answer and run; it never runs a tool that has run, and its definitive answer is that of every other caller |
| IdempotencyRefinement.ReconcileInProtocol | plugins/agentscope-idempotency-sqlite/src/lib.rs:172-178 | an operator's reconciliation is one event of the protocol |
| LocalIdempotency.IdempotentTool.FindRecord | src/tool/idempotent.rs:69-94 | refuses exactly a key of another request, or a new key when the table is full |
| LocalIdempotency.IdempotentTool.Execute | src/tool/idempotent.rs:102-133 | runs exactly when the key is valid, known for the same request or fits the table, and its cell is fresh; returns then the tool's outcome, otherwise the settled one, doubt or the exact refusal; a key's tool runs at most once, even if dropped midway; the table stays within its bound and settled cells never change |
| AgentSession.OneExecutionPerReply | src/agent/react.rs:570-622 | whatever instances compete, one reply commits one execution: one identifier, one set of decisions |
| AgentSession.BatchesAreBounded | src/agent/react.rs:410-452 | the approved tools of one reply are let loose at most once, plus once for each retry whose claim was saved and acknowledged |
| AgentSession.RetriesAreClaimed | src/agent/react.rs:437-449 | batches counted as retries are exactly the acknowledged retry claims of the run |
| AgentSession.RunKeepsInv | src/agent/react.rs:759-826 | every reachable session keeps the order of its saves: only an operation that loaded the newest revision can save, and only what may follow it |
| AgentTools.EachCallRunsAtMostOnce | src/agent/react.rs:685-735 | over all resumes, retries, crashes and instances, the tool behind one call of one reply starts at most once |
| AgentTools.EachCallIdRunsAtMostOnce | src/agent/react.rs:685-735 | with distinct identifiers in the reply, the call identifier alone suffices |
| AgentTools.DeniedNeverRuns | src/agent/react.rs:591-601 | a call denied in the committed decisions is never run |
| AgentTools.KeysAreInjective | src/agent/confirmation.rs:115-121 | keys determine execution and call when execution identifiers hold no colon |
| AgentTools.KeysIdentifyCalls | src/agent/confirmation.rs:115-121 | two runs with one key are the same call of the same reply |
| AgentTools.RunsCarryCalls | src/agent/react.rs:685-700 | a tool runs with the name and input of its own call, under the key of that call and its execution |
| AgentTools.ApprovedCallRuns | src/agent/react.rs:685-735 | an approved call that was never claimed does run when a batch lets it loose |
| AgentTools.RunKeepsInv | src/agent/react.rs:685-735 | every claim and run belongs to an approved call of an execution committed before it |
| Confirmation.ValidateCalls | src/agent/confirmation.rs:44-66 | accepts exactly non-blank, positive, non-empty, all-asking checkpoints with distinct identifiers |
| Confirmation.ValidCheckpoint | src/agent/confirmation.rs:44-66 | a valid checkpoint names a reply and a step, and has as many identifiers as calls, at least one, all asking |
| Confirmation.ValidateExecution | src/agent/confirmation.rs:123-166 | accepts exactly executions with one decision for every call, no other, and at least one approval |
| Confirmation.ValidExecution | src/agent/confirmation.rs:123-166 | a valid execution has as many decisions as calls, one for each, some approving |
| Confirmation.ConfirmationMap | src/agent/react.rs:1258-1294 | succeeds exactly on one decision per call and no other, and reads each decision |
| Confirmation.ReconciledResults | src/agent/react.rs:1296-1374 | succeeds exactly when the results settle the approved calls one to one; reports each call in order: the supplied result, or a denial with its reason |
| Confirmation.SettlesMeaning | src/agent/react.rs:1296-1374 | results settle decided calls when each finishes an approved call of its identifier and name, every approved call has one, and none has two |
| Confirmation.FinishCheckpointCalls | src/agent/react.rs:1407-1418 | in the first message with the reply's identifier every call becomes finished; every other block and message stays |
| Confirmation.ValidateState | src/agent/react.rs:853-906 | accepts exactly states of this agent whose one checkpoint is valid, resumable and matches memory |
| Confirmation.StateAccepted | src/agent/react.rs:853-906 | a state is accepted when it is this agent's, waits for at most one thing, and that is valid, leaves a step, and is what its reply in memory asks for |
| Confirmation.PausedStateIsValidIff | src/agent/react.rs:914-934 | a paused state is accepted on reload exactly when its call identifiers are distinct |
| Confirmation.AuthorizedStateIsValid | src/agent/react.rs:604-616 | the checkpoint saved before approved tools run is accepted whenever the paused state was |
| Confirmation.FinishedNoLongerMatches | src/agent/react.rs:1376-1405 | once its calls are finished in memory, a checkpoint is rejected |
| Confirmation.SettledStateIsValidIffCleared | src/agent/react.rs:637-646 | after settling, the saved state is accepted exactly when the checkpoint was cleared |
| ReAct.ReplyEndsWell | src/agent/react.rs:483-568 | however the loop ends, it has only appended to memory; every call is answered or pending unless steps ran out or storage failed; a pause leaves a step to resume; the state left is loadable exactly if a pause has distinct identifiers |
| ReAct.StepEndsWell | src/agent/react.rs:508-563 | the same of each answer: concluding, giving up, pausing or running tools |
| ReAct.PausesWell | src/agent/react.rs:914-934 | a pause answers or leaves pending every call, and is loadable exactly with distinct identifiers |
| ReAct.ToolsRunWell | src/agent/react.rs:543-563 | a batch of unconfirmed tools leaves no call unanswered unless storage failed |
| ReAct.ReplyIsLast | src/agent/react.rs:514-534 | a successful reply is the last message of memory and asks for no tools |
| ReAct.PausesIff | src/agent/react.rs:541-545 | before the last step an answer pauses exactly when any of its calls is of a tool that needs confirmation; memory then ends in the reply with its calls asking, and exactly they are waited for |
| ReAct.RunsUnasked | src/agent/react.rs:546-563 | otherwise its calls run: memory gains the reply and one result for each call, in order, with what its tool reported or its interruption; only a recorded, uninterrupted batch goes on |
| ReAct.ConcludesIff | src/agent/react.rs:514-534 | an answer without calls ends the reply: refused, stopped, unsaved, or as its last message |
| ReAct.LastStepGivesUp | src/agent/react.rs:536-540 | at the last step the answer is kept and nothing that it asks for is run |
| ReAct.ReplyIsChain | src/agent/react.rs:483-568 | a reply is a chain of model calls, one for each step, each shown the memory that the step before it left, up to the one that ends it |
| ReAct.ReActAgent.PauseForConfirmation | src/agent/react.rs:914-934 | appends the reply with all its calls asking and records exactly them |
| ReAct.SharedIdsAreRejected | src/agent/react.rs:914-934 | a reply whose two calls share an identifier pauses with a state that its own agent refuses to load |
| ReAct.FailingHookIsRejected | src/agent/react.rs:637-646 | a loadable state, settled while the hook after the tool call fails, is no longer loadable |
| ReAct.ReActAgent.ContinueReply | src/agent/react.rs:483-568 | the loop computes its recursive specification and never runs past the last step; one model call per step at most; no call let loose unconfirmed is of a tool that needs confirmation |
| ReAct.ReActAgent.TakeStep | src/agent/react.rs:491-563 | one step asks the model once and is one step of the specification |
| ReAct.ReActAgent.Respond | src/agent/react.rs:508-563 | the exact memory, checkpoint and ending that one answer leads to |
| ReAct.ReActAgent.RunTools | src/agent/react.rs:543-563 | appends the reply and one result per call, in order; an interrupted batch reports so for every call |
| ReAct.ReActAgent.Reply | src/agent/react.rs:454-481 | refuses while a checkpoint is pending, leaving all as it was; otherwise the loop from the new message |
| ReAct.ReActAgent.RunApproved | src/agent/react.rs:591-635 | lets exactly the approved calls loose, and only under a saved execution checkpoint |
| ReAct.ReActAgent.Resume | src/agent/react.rs:570-648 | goes through exactly for the pending reply, with one decision per call, and let through by hooks; dispatches exactly the approved calls, in order, once the execution is saved; tells the model each result or why it was denied; goes on at the paused step; the exact error otherwise |
| ReAct.ReActAgent.Resolve | src/agent/react.rs:650-683 | settles an execution exactly when the supplied results fit its approved calls, without running tools; refused, it changes nothing |
| ReAct.ReActAgent.Retry | src/agent/react.rs:410-452 | lets exactly the approved calls loose again, in order, exactly once its claim is saved, and settles with their results; the exact error otherwise |
| ReAct.ReActAgent.Settle | src/agent/react.rs:637-646 | the exact memory and checkpoint after each way settling can end: calls finished, then one message of the results; and when the state is loadable |
| ReAct.ReActAgent.BeginOperation | src/agent/react.rs:759-792 | a stored state replaces the one in memory exactly when it is valid; refused, it changes nothing |
| AgentRefinement.BeginInSession | src/agent/react.rs:759-792 | an instance that loads the stored state becomes what the session says its worker becomes |
| AgentRefinement.ReplyInSession | src/agent/react.rs:454-481 | a reply is a move of its session: a stretch of session events that lets no batch loose |
| AgentRefinement.ResumeInSession | src/agent/react.rs:570-648 | a resume, however its save, tools and hooks turn out, is such a move, with one batch in it exactly when it dispatched, under the committed claim of that very execution |
| AgentRefinement.RetryInSession | src/agent/react.rs:398-452 | a retry is such a move, with one retry batch in it exactly when it dispatched, under its own claim |
| AgentRefinement.ResolveInSession | src/agent/react.rs:650-683 | a resolution is such a move and lets nothing loose |
| AgentRefinement.ResumeIsSteps | src/agent/react.rs:591-646 | the events of a resume, from its checkpoint, decisions and outcome: authorized, denied, in doubt, settled or refused |
| AgentRefinement.RetryIsSteps | src/agent/react.rs:410-452 | the events of a retry, whether claimed, lost, in doubt or settled |
| AgentRefinement.ResolveIsSteps | src/agent/react.rs:650-683 | the events of a resolution, settled or refused |
| AgentRefinement.EndMoves | src/agent/react.rs:794-807 | the last save, a dropped operation and a crash are moves too; the save commits what the instance then waits for, when it commits |
| AgentRefinement.LivesAreRuns | src/agent/react.rs:759-826 | any interleaving of the moves of any instances is a run of the session, whose batches are exactly what they dispatched |
| AgentRefinement.InstancesKeepTheirPhase | src/agent/react.rs:759-826 | in any such interleaving, each instance stands in the session where its own state says |
| AgentRefinement.AgentsRunOneExecution | src/agent/react.rs:570-622 | whatever instances do, all they dispatch for one reply is one execution, its calls and decisions, and all but the first are retries |
| AgentRefinement.AgentBatchesAreBounded | src/agent/react.rs:410-452 | instances dispatch for one reply at most once, plus once for each acknowledged retry claim |
| RecentTurns.FindBoundary | src/context.rs:77-87 | finds the start of the n most recent turns, or that there are no more turns than that |
| RecentTurns.BoundaryMeaning | src/context.rs:77-87 | the boundary is the one user message with n user messages from it on and some before it, or the start when there are no more than n |
| RecentTurns.ReadDependencies | src/context.rs:91-113 | the forward pass computes every message's dependency |
| RecentTurns.DepMeaning | src/context.rs:94-113 | a message's dependency is exactly the earliest turn that holds the latest earlier call of one of its results |
| RecentTurns.ResultMeaning | src/context.rs:104-108 | which call a result answers: the latest earlier one with its identifier and name |
| RecentTurns.SelectMessages | src/context.rs:76-125 | the method selects exactly the suffix from the cut and the System messages |
| RecentTurns.SelectedAre | src/context.rs:119-125 | every message from the cut on and every System message is selected, no other, each at its place in the order |
| RecentTurns.CutIsNeeded | src/context.rs:114-118 | the cut is the requested one, or where some message has its dependency |
| RecentTurns.StartIsGreatestClosed | src/context.rs:114-118 | without System results, the one reverse pass ends at exactly the greatest boundary at or before the n-th last turn from which no dependency leaves the suffix |
| RecentTurns.NoClosedCutIsLater | src/context.rs:114-118 | for every history, no cut from which no dependency leaves the suffix lies between the cut taken and the requested one |
| RecentTurns.StartIsClosedIff | src/context.rs:114-118 | for every history, the cut taken splits no exchange exactly when no message that the pass skipped and later let in again depends on anything before the cut |
| RecentTurns.ClosedKeepsExchanges | src/context.rs:114-125 | then no selected result loses its call |
| RecentTurns.ExchangesKeptIff | src/context.rs:114-125 | for every history, no selected result loses its call exactly when no skipped message does |
| RecentTurns.OnlySystemResultsClosed | src/context.rs:114-118 | exchanges are kept too when only System messages carry results |
| RecentTurns.SkippedResultIsOrphaned | src/context.rs:114-118 | a history in which a selected result loses its call |
| RecentTurns.ExchangesKeptIffRolesUnmixed | src/context.rs:114-118 | the roles for which exchanges are always kept, exactly |
| SelectionLaws.MoreTurnsKeepMore | src/context.rs:76-125 | for every history, selecting more turns keeps a supersequence |
| SelectionLaws.SelectIsIdempotent | src/context.rs:76-125 | for every history, selecting again from a selection changes nothing, although turns and dependencies are recomputed |
| SelectionLaws.SelectKeepsProtected | src/context.rs:119-125 | every System message and the whole last turn survive, in order |
| Completed.ResolveExchanges | src/context/summary.rs:94-112 | reads one message's blocks exactly when each call is new and each result is the terminal answer to an open call of its identifier and name; what stays pending is what still waits for an answer |
| Completed.ValidateCompleted | src/context/summary.rs:83-117 | accepts exactly the well-turned histories: those with a user, with every exchange in place, and with every turn ending answered |
| Completed.ExchangesMeaning | src/context/summary.rs:94-112 | the calls tracked over any blocks are exactly those made and not yet answered |
| Completed.AcceptanceMeaning | src/context/summary.rs:83-131 | an accepted history is exactly one where each call is new when made, each result answers an open call, and every turn ends with nothing open and a visible answer |
| Completed.CompletedExpandsIff | src/context.rs:114-118 | on a finished history the pass leaves the requested cut alone exactly when no System message answers a call from before it |
| Completed.CompletedNeverExpands | src/context.rs:114-118 | on a finished history whose System messages carry no results, the pass never extends the cut |
| Budget.TokenBudget.ApplyWithPinnedPrefix | src/context/budget.rs:173-208 | what is returned leaves the whole reserve free in the window; every larger candidate would not; Exceeded means that of all; a bad output limit is refused; skipping unchanged candidates loses none |
| Budget.TokenBudget.LargestFittingWins | src/context/budget.rs:188-207 | the result is decided by the largest candidate that leaves the reserve free; Exceeded only when none does |
| Budget.TokenBudget.CandidatesAre | src/context/budget.rs:178-203 | candidate k is the request with its output capped, its pinned prefix, and the selection of k turns of the rest; the largest is the whole |
| Budget.TokenBudget.CandidatesKeepProtected | src/context/budget.rs:182-198 | every candidate keeps the pinned prefix, the System messages and the last turn |
| Budget.TokenBudget.CheckWithoutTrimming | src/context/budget.rs:211-220 | accepts exactly when the output limit is allowed and the count leaves the reserve free in the window; the exact error otherwise |
| Utf8.PrefixDecodes | plugins/agentscope-offload-file/src/lib.rs:143-149 | decoding a prefix of a text stops at its last boundary, at most three bytes short, and never finds it malformed |
| Utf8.SuffixIsText | plugins/agentscope-offload-file/src/lib.rs:143-149 | what follows a boundary of a text is a text |
| Utf8.NoBoundaryIsMalformed | plugins/agentscope-offload-file/src/lib.rs:149-149 | bytes that start inside a character are malformed |
| Utf8.EncodedIsText | plugins/agentscope-offload-file/src/lib.rs:143-151 | encodings of scalar values are texts and decode to them |
| Utf8.TextIsEncoded | plugins/agentscope-offload-file/src/lib.rs:143-151 | every text is the encoding of its code points |
| Utf8.EncodingLayout | plugins/agentscope-offload-file/src/lib.rs:143-151 | how many bytes a scalar value takes and which bits each carries (section 3 of RFC 3629) |
| Paging.FileOffloadStore.Put | plugins/agentscope-offload-file/src/lib.rs:73-116 | stores under the digest, gives an identical text the same identifier, never overwrites; refuses exactly a stored text of another length |
| Paging.FileOffloadStore.Read | plugins/agentscope-offload-file/src/lib.rs:118-155 | on a stored text, succeeds exactly for limits of at least four at character boundaries, with as many whole characters as fit; the exact error otherwise |
| Paging.ReadBlob | plugins/agentscope-offload-file/src/lib.rs:131-154 | the buffer, truncated, is exactly the page that ends at the last boundary within the limit |
| Paging.PagesProgress | plugins/agentscope-offload-file/src/lib.rs:124-126 | with a limit of at least four bytes, every page before the end moves forward |
| Paging.PagesRebuildText | plugins/agentscope-offload-file/src/lib.rs:118-155 | the pages read by following the next offset, under any limits, concatenate to the text; each is a bounded, non-empty text |
| Paging.AnswersRebuildText | src/context/offload.rs:146-180 | a reader that follows the offsets it is told, under any limits, is answered every time, is told the end exactly at the end, and has read the text |
| Paging.ReadOffloaded | src/context/offload.rs:146-180 | the reader tool rejects no page of the store, and answers exactly what is stored |
| Paging.PassOn | src/context/offload.rs:165-179 | a chunk from any store is passed on exactly when it is within the limit and goes on where it says, within the text |
| Offload.NewConfig | src/context/offload.rs:55-70 | accepts exactly limits with room for a reference, without overflow |
| Offload.IdentifierAccepted | src/context/offload.rs:104-111 | identifiers are 1 to 128 ASCII letters, digits, hyphens and underscores |
| Offload.UnescapeEscape | src/context/offload.rs:117-121 | the preview's escaping is reversible |
| Offload.EscapesAreJson | src/context/offload.rs:117-121 | every byte of a preview is escaped as JSON asks (section 7 of RFC 8259) |
| Offload.DigitsSpell | src/context/offload.rs:117-121 | sizes are written in decimal without leading zeros |
| Offload.ReferenceTells | src/context/offload.rs:117-121 | under its own key, a reference gives the identifier, the preview, the preview's size, the text's size, the read limit and the reader's name |
| Offload.ReferenceOverhead | src/context/offload.rs:117-121 | a reference takes at most 313 bytes besides its escaped preview, for any accepted identifier and 64-bit sizes |
| Offload.BuildReference | src/context/offload.rs:112-130 | the shrinking loop terminates on every text and finds the first preview that fits |
| Offload.ReferenceFits | src/context/offload.rs:112-130 | every emitted reference fits the threshold and previews a prefix of whole characters within the preview limit |
| Offload.PreviewShrinks | src/context/offload.rs:112-130 | the preview is the longest of whole characters within its limit, or the first of its halvings whose reference fits |
| Offload.ProjectOne | src/context/offload.rs:85-132 | one block's projection, with its failures |
| Offload.ProjectionIsBounded | src/context/offload.rs:85-132 | only large successful text results of other tools change, keep identity and state, and then fit |
| Offload.ProjectionRefuses | src/context/offload.rs:101-111 | a projection fails exactly for a large result that the store refuses or names unacceptably |
| Offload.ProjectingTwiceIsOnce | src/context/offload.rs:90-101 | projecting again changes nothing, whatever the store |
| Offload.Project | src/context/offload.rs:85-134 | every block of every message is projected in place; a failure stops at exactly the first failing block, which with all later ones is left as it was |
| Offload.ProjectInto | src/context/offload.rs:85-132 | projected into the file store, a large result names an accepted identifier whose pages read back exactly the output replaced, if and only if the store holds no other text of that digest; no stored text is ever lost |
| Accumulator.InterleavingIsIrrelevant | src/model/accumulator.rs:193-285 | streams that agree on first appearances and on each block's deltas are accepted alike and accumulate to the same content |
| Accumulator.FlawIffInconsistent | src/model/accumulator.rs:193-285 | a delta is refused exactly when its block's deltas would be inconsistent in kind, name, schema or identity |
| Accumulator.GrownIsAccumulated | src/model/accumulator.rs:193-285 | an accepted delta in place yields the closed form: one block per identifier, its text all its deltas joined |
| Accumulator.OneMoreDelta | src/model/accumulator.rs:193-285 | one more accepted delta appends its text to the block it names and changes nothing else, or starts a last block of its kind |
| Accumulator.AcceptedNext | src/model/accumulator.rs:193-285 | the next delta is accepted exactly when it agrees with every earlier one of its block, or may start one |
| Accumulator.RefusalsAreNamed | src/model/accumulator.rs:193-285 | the exact error of a refused delta |
| Accumulator.EditBlock | src/model/accumulator.rs:193-285 | edits exactly the named block or appends a new one, with the exact error otherwise |
| Accumulator.FinishBlocks | src/model/accumulator.rs:331-348 | succeeds exactly when every call and output holds JSON; calls and outputs are then marked, with all they carry kept, and every other block unchanged; the first block that fails decides the error |
| Accumulator.ChatResponseAccumulator.Apply | src/model/accumulator.rs:131-161 | the response is always the closed form of the accepted deltas; finishing only marks its calls and outputs; a refused event or failed finish changes nothing |
| Accumulator.ChatResponseAccumulator.ApplyDelta | src/model/accumulator.rs:193-285 | accepts exactly the deltas that keep the stream consistent, and names the flaw of any other |
| Accumulator.ChatResponseAccumulator.IntoResponse | src/model/accumulator.rs:183-191 | gives the response exactly after a successful finish; the exact error otherwise |
| Parallel.Run | src/pipeline/parallel.rs:184-259 | the scheduler's loop computes the fold over its turns, and its report |
| Parallel.ConcurrencyIsBounded | src/pipeline/parallel.rs:216-225 | never more live branches than the limit, and none invoked twice, for every completion order and interrupt point |
| Parallel.SettledRunsHeardAll | src/pipeline/parallel.rs:226-231 | success exactly when all completed, agent failures exactly when some failed, and in both cases every branch was invoked and heard |
| Parallel.InterruptionIsExact | src/pipeline/parallel.rs:246-255 | on interruption, cut off are exactly the invoked but unobserved branches, not started exactly those never invoked |
| Parallel.OutcomesAreReplies | src/pipeline/parallel.rs:232-244 | a recorded message or error is one observed from that branch |
| Parallel.ReportsAreHeard | src/pipeline/parallel.rs:232-259 | a report gives for each branch the message or error it was heard with; any other label means that the run was interrupted |
| Parallel.ObservedIsReported | src/pipeline/parallel.rs:232-244 | the first reply observed of an invoked branch is in every report, as what it was |
| Parallel.LimitIsUsed | src/pipeline/parallel.rs:216-225 | while branches are left to queue, as many are live or queued as the limit allows, but for the one just heard |
| Parallel.InvokedWhenPolled | src/pipeline/parallel.rs:264-287 | no branch is invoked that was never polled |
| Parallel.PolledAreInvoked | src/pipeline/parallel.rs:264-287 | every waiting branch that is polled is invoked |
| Parallel.EndsWhen | src/pipeline/parallel.rs:212-240 | a run stops exactly when interrupted, at a turn's start or while it waits, and settles in the first undisturbed turn that finds every branch heard |
| Framing.BufReader.FillBuf | plugins/agentscope-mcp/src/transport.rs:209-217 | makes bytes available without losing any, none only at the end |
| Framing.BufReader.ReadFrame | plugins/agentscope-mcp/src/transport.rs:204-228 | the frame and the error depend on the byte stream and the limit only, not on how the bytes arrive; a frame leaves exactly the bytes after its newline, a failure leaves those from some point of the unfinished line on, none at the end of the stream |
| Framing.FramesOfFramed | plugins/agentscope-mcp/src/transport.rs:204-228 | frames written one after another are read back |
| Framing.FramesSplit | plugins/agentscope-mcp/src/transport.rs:204-228 | reading splits the stream at its newlines, loses nothing, and stops exactly where a line is too long or the stream ends |
| Messages.BlankMeaning | src/pipeline.rs:671-673 | blank text is text of white space only |

## Left out

- Message identifiers, timestamps and metadata: messages are compared without them; identifiers that a protocol draws are new by assumption.
- SQL, files, processes and HTTP: each store operation is one atomic step that may fail or go unreported; SHA-256 is an uninterpreted function with well-formed values.
- JSON parsing and JSON Schema: "is complete JSON" is an uninterpreted predicate, a schema is its text and the shape of its root; the bytes of the offload reference are modelled.
- Model, tool, hook and augmenter bodies: they are outcomes chosen by the environment; the request built for a model call is not modelled.
- The process-local run locks (Busy) and the guards that serialise one instance's operations: each worker runs one operation at a time.
- `ReActAgent.restore` and `observe`: restoring an old snapshot over a session would by design undo its progress.
- Agents without memory, context compaction and `ContextSummary.validate`: outside the modelled sessions.
- Plain `SequentialPipeline.stream` and the agents' own streams: the checkpointed stream is modelled over any agent stream.
- The parallel and routed checkpoint modules, constructors, builders, display code and usage arithmetic: easy or not part of this model.
- Texts of error messages, and the text that stands for an interrupted tool's result: errors are compared by kind and code, interruptions by state.
- AgentRefinement.LivesAreRuns: relates an instance and its session by what they wait for; the contents of memory are covered for one instance by `ReAct`, because competing instances interfere only through saves. Between its start and its last save an operation touches the session only by its claim, so it is one move.
- PipelineRefinement.SessionIsSteps: does not let another worker save between two saves of one session; the protocol's own theorems cover that.
- AgentTools.EachCallRunsAtMostOnce: assumes every tool that needs confirmation is wrapped over one table and called only by confirmed executions.
- IdempotencyProtocol.EachKeyRunsAtMostOnce: does not count calls without a key, because they pass by the table (`Idempotency.Execute` covers them).
- LocalIdempotency.IdempotentTool.Execute: does not model callers that wait for one cell at the same time, because the cell's lock serialises them.
- Parallel.ConcurrencyIsBounded: does not model wake-ups within one poll, because only the first result of a poll is taken.
- ReAct.ReActAgent.ContinueReply: does not distinguish interrupts from failing hooks and models, because they end the loop in the same state.
