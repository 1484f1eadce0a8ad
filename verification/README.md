# Alpha agent: verified core

A Dafny model of the hard parts of a local-first agent runtime, with proofs. Each module follows one
part of the program:

- **The loop coordinator** (`Coordinator`, `CoordinatorRuns`): a priority lock with a first-come queue
  per priority, immediate acquisition, and a cooperative yield. The object is modelled block by block;
  threads are a transition system over those blocks, so every interleaving and nesting is covered.
- **Belief store and acceptance** (`Beliefs`, `BeliefIndexes`, `BeliefReads`, `BeliefRuns`, `BeliefStore`,
  `Contract`, `ProjectDescriptors`, `Ledger`, `Acceptance`, `StateService`, `AnswerReading`, `AnswerMeaning`,
  `DescriptorCrash`, `MemoryPropose`, `CognitionRuns`, `AnsweredBeliefs`, `ProposedBeliefs`): two record
  tables with four derived indexes, the contract a background answer must meet, and the one transaction
  that changes beliefs, ledger and audit together. `CognitionRuns` puts foreground proposals and
  background answers into one history; `AnsweredBeliefs` and `ProposedBeliefs` say what each leaves stored.
- **Sessions, handover and the tool loop** (`Messages`, `SessionContext`, `Truncation`, `TruncationPass`,
  `Handover`, `SessionRuns`, `ToolExecution`, `AgentTurn`, `BoundedOutput`): an append-only stream, compression
  points that hide a prefix, truncation in place, and a bounded loop over an arbitrary model and
  arbitrary tools.
- **Search text** (`Tokenizer`, `TokenParts`, `SearchQuery`): the run scanner and the two escapers in
  front of the search engine. The quoting rule is section 3.1, "FTS5 Strings", of the SQLite FTS5
  documentation.
- **Gateway delivery** (`GatewayDedup`, `GatewayDelivery`, `GatewayBridge`): at-most-once processing with
  a cached reply; deliveries are a transition system, and the message handler performs its steps.
- **Goals and counterparts** (`Goals`, `Drive`, `Counterparts`): a capped view folded from a log, a
  cooldown over runs, and identity routing.

`Common`, `Text` and `Json` hold shared value types. Objects the program updates in place are classes
whose methods are proved against specification functions; the main results are lemmas about those
functions over every input, run or reachable state.

## What the proofs show to be different from what one might expect

- A yield by a thread that is not inside breaks exclusion, and nested yields lose the one shared record,
  so a yielding loop can then be passed by a less urgent one (`YieldIsSafeExactlyFromInside`,
  `PassedExactlyWhenRecordLost`, `NestedYieldLosesPlace`).
- Marking a retired belief Active never restores its search rows (`MarkKeepsExactIff`).
- The summary worker retires a summary without a superseding link, and the expiry worker marks from a
  list read before it let another loop run, so a belief can end Archived and still linked
  (`SupersededSummaryHasNoLink`, `StaleMarkKeepsLinksIff`, `StaleArchiveRun`).
- A project named by path separators only, such as `/`, passes the contract and then ends the call without
  a recorded failure, as an unknown window or run and JSON that cannot be held do (`CrashesIff`,
  `SlashDescriptorCrashes`).
- A compression with an ordinal bound, or one during which messages are appended, can leave messages
  that no job covers and no context loads (`CompressKeepsCoverageIff`, `BoundedCompressionLosesMessages`).
- The lengths recorded by truncation are keyed by a place name that two places can share, and one length
  then overwrites the other (`EveryLengthKeptIff`, `LengthCanBeLost`); a stored payload that does not parse
  makes a whole pass fail and change nothing.
- Recovery does not cover a tool's own summary of its arguments: one that raises stops the whole batch, before
  the call is counted (`RecoveredStops`).
- Two overlapping drives of one goal can be recorded without any cooldown between them
  (`OverlappingDrivesCanCoincide`).
- Two overlapping deliveries of one message can both send its reply (`OverlappingDeliveriesCanBothSend`).
- The placeholder identity is not routed alike for ever before the default counterpart is claimed, and two
  identities can share a counterpart when a platform contains a colon (`RoutingIsStableIff`,
  `RoutedTogetherIff`, `SameCounterpartIff`).

## Model

| member | source | states |
|---|---|---|
| `Coordinator.AdmissionTakesTheHead` | src/alpha_agent/cognition/coordinator.py:166-183 | a queue admission is possible exactly for the least waiter of the whole queue by priority and then arrival, with the lock free; a yield in progress only adds that it must be more urgent than the loop that gave up the lock |
| `Coordinator.WithoutDropsExactlyOne` | src/alpha_agent/cognition/coordinator.py:79-83 | leaving the queue removes that waiter and no other |
| `Coordinator.LoopCoordinator.Enqueue` | src/alpha_agent/cognition/coordinator.py:158-164 | joining the queue appends one waiter with the next sequence number and changes nothing else |
| `Coordinator.LoopCoordinator.TryAdmit` | src/alpha_agent/cognition/coordinator.py:76-84 | one evaluation of the wait guard: enters exactly when admission is possible, and then leaves the queue and holds the lock |
| `Coordinator.LoopCoordinator.TryAcquire` | src/alpha_agent/cognition/coordinator.py:90-99 | enters exactly when nobody holds the lock, whatever is queued; otherwise records a pending yield request when it is the more urgent one, as `Coordinator.RefusalShowsInYield` and the runs below make plain |
| `Coordinator.LoopCoordinator.StartYield` | src/alpha_agent/cognition/coordinator.py:102-125 | the first block of a yield, with the three ways it can go |
| `Coordinator.LoopCoordinator.ConsumePending` | src/alpha_agent/cognition/coordinator.py:220-238 | drops expired requests and those more urgent than the holder, and reports whether there was one of the latter |
| `Coordinator.LoopCoordinator.TryResume` | src/alpha_agent/cognition/coordinator.py:126-137 | the last block of a yield takes the lock back exactly when its guard holds, and clears the shared record |
| `Coordinator.LoopCoordinator.ReleaseIfHolder` | src/alpha_agent/cognition/coordinator.py:192-199 | frees the lock exactly when the holder has that loop name |
| `Coordinator.RefusalShowsInYield` | src/alpha_agent/cognition/coordinator.py:201-218 | a refused loop leaves a request that the holder's yields see, within its lifetime, exactly when it is strictly more urgent than the holder: with nothing else pending or queued the yield keeps the lock exactly then, and otherwise gives it up |
| `Coordinator.YieldSees` | src/alpha_agent/cognition/coordinator.py:102-125 | how a yield starts: it gives up the lock unless some live request is more urgent than the holder and no queued waiter is; the live requests that are more urgent go, the rest stay |
| `CoordinatorRuns.MutualExclusion` | src/alpha_agent/cognition/coordinator.py:74-137 | in every reachable state, with any number of threads and nested yields, at most one thread is inside, the holder fields name exactly it, and a loop that gave up the lock is not inside |
| `CoordinatorRuns.YieldIsSafeExactlyFromInside` | src/alpha_agent/cognition/coordinator.py:102-125 | a yield keeps the holder fields truthful exactly when the thread inside makes it |
| `CoordinatorRuns.ReleaseFreesOwnHold` | src/alpha_agent/cognition/coordinator.py:192-199 | although release compares loop names only, a thread that leaves always frees its own hold |
| `CoordinatorRuns.QueuedWaiterIsNeverPassed` | src/alpha_agent/cognition/coordinator.py:158-183 | over any run, while a waiter that comes first still queues, so does the one behind it |
| `CoordinatorRuns.LaterArrivalComesBehind` | src/alpha_agent/cognition/coordinator.py:158-164 | a waiter of the same or less urgency that queues later comes behind: first come, first served |
| `CoordinatorRuns.OnceAdmittedNeverQueuedAgain` | src/alpha_agent/cognition/coordinator.py:158-164 | sequence numbers are not reused, so a waiter that left the queue stays out |
| `CoordinatorRuns.YieldingLoopKeepsItsPlace` | src/alpha_agent/cognition/coordinator.py:102-137 | while a yielding loop waits and no other loop yields, only strictly more urgent waiters are admitted |
| `CoordinatorRuns.YielderIsNotPassed` | src/alpha_agent/cognition/coordinator.py:102-137 | over any run: once a loop gives up the lock in a yield and no other loop yields, only waiters strictly more urgent than that loop are admitted until it takes the lock back |
| `CoordinatorRuns.PassedExactlyWhenRecordLost` | src/alpha_agent/cognition/coordinator.py:166-183 | the head of the queue can pass a yielding loop it is not more urgent than exactly when the one shared record is gone or names a less urgent loop |
| `CoordinatorRuns.NestedYieldLosesPlace` | src/alpha_agent/cognition/coordinator.py:118-137 | with nested yields the record is lost and a less urgent loop is admitted before the first yielder: a concrete run |
| `CoordinatorRuns.NeverStuck` | src/alpha_agent/cognition/coordinator.py:74-137 | whenever the lock is free and some thread waits, some waiting thread can take its next step |
| `CoordinatorRuns.PendingComesFromRefusal` | src/alpha_agent/cognition/coordinator.py:201-218 | over any run every pending request was left by the refusal of a loop more urgent than the holder of that time |
| `CoordinatorRuns.StepChangesPending` | src/alpha_agent/cognition/coordinator.py:201-238 | a step adds a request exactly when it refuses a more urgent loop, and drops one exactly when it is a yield that sees it or finds it expired |
| `CoordinatorRuns.SeenByAtMostOneYield` | src/alpha_agent/cognition/coordinator.py:220-238 | over any run a request is seen by at most one yield |
| `CoordinatorRuns.UrgentWaiterGoesFirst` | src/alpha_agent/cognition/coordinator.py:102-137 | a yield made while a more urgent waiter queues does not take the lock back before that waiter has left the queue |
| `BeliefIndexes.UpsertKeepsExact` | src/alpha_agent/cognition/projections/belief.py:266-280 | writing any belief in any lifecycle leaves all four derived indexes exactly right |
| `BeliefIndexes.MarkKeepsExactIff` | src/alpha_agent/cognition/projections/belief.py:905-945 | a mark keeps the indexes right exactly when it does not mark a retired belief Active, because a mark deletes search rows and never puts them back |
| `BeliefIndexes.IndexesAlwaysExact` | src/alpha_agent/cognition/projections/belief.py:266-352 | after any run of writes that never marks a belief Active: the about and entity indexes hold exactly the rows computed from the stored beliefs, and each search table exactly one row per Active belief |
| `BeliefIndexes.TablesSayTheirBeliefs` | src/alpha_agent/cognition/projections/belief.py:742-1264 | the columns of every row, the entity rows and the texts of both search tables are those of the stored belief: content, object, scope, kind, times, links and references, field by field |
| `BeliefReads.RecallAboutIsAScan` | src/alpha_agent/cognition/projections/belief.py:446-462 | recall by reference lists, in order of holding and once each, exactly the Active atomic records that name the reference |
| `BeliefReads.LatestSummaryIsAScan` | src/alpha_agent/cognition/projections/belief.py:464-504 | the latest summary is the matching record held since last, and none only when none matches |
| `BeliefStore.BeliefProjection.Upsert` | src/alpha_agent/cognition/projections/belief.py:266-280 | the tables after the statement-by-statement write are those the specification gives |
| `BeliefStore.BeliefProjection.ReplaceBeliefIndexes` | src/alpha_agent/cognition/projections/belief.py:871-897 | replaces the about, entity and search rows of one belief and of no other |
| `BeliefStore.BeliefProjection.MarkRow` | src/alpha_agent/cognition/projections/belief.py:905-945 | updates record and columns together; deletes search rows when the mark is not Active |
| `BeliefStore.BeliefProjection.MarkLifecycle` | src/alpha_agent/cognition/projections/belief.py:336-352 | marks the belief where it is stored, and does nothing when it is not |
| `BeliefStore.BeliefProjection.SupersedeMany` | src/alpha_agent/cognition/projections/belief.py:309-334 | writes the new belief, then links every old one to it |
| `BeliefStore.BeliefProjection.Reaffirm` | src/alpha_agent/cognition/projections/belief.py:282-307 | performs the specified write on an atomic belief and nothing on any other; what that write records is `BeliefRuns.ReaffirmKeepsEvidence` |
| `BeliefStore.BeliefProjection.Clear` | src/alpha_agent/cognition/projections/belief.py:584-592 | empties every table |
| `BeliefRuns.WriteRecords` | src/alpha_agent/cognition/projections/belief.py:266-352 | one write stores its new belief and otherwise changes only the records it targets |
| `BeliefRuns.ReaffirmKeepsEvidence` | src/alpha_agent/cognition/projections/belief.py:282-307 | after a reaffirmation the source is among the belief's sources, the old ones come first and nothing else is added, so distinct sources stay distinct; the observation time is the given one unless that is empty; every other field, and every other belief, is kept |
| `BeliefRuns.RetiredStaysRetired` | src/alpha_agent/cognition/projections/belief.py:309-352 | over any run of writes with fresh ids a superseded, retracted or archived belief is never Active again |
| `BeliefRuns.LinksAlwaysEnd` | src/alpha_agent/cognition/projections/belief.py:309-334 | following superseding links from any belief visits stored beliefs only, repeats none and ends |
| `BeliefRuns.LinksAlwaysTruthful` | src/alpha_agent/cognition/projections/belief.py:905-945 | when targets are Active as they are written over, an atomic belief is linked exactly when it is Superseded |
| `BeliefRuns.StaleMarkKeepsLinksIff` | src/alpha_agent/cognition/loops/workers/archive_expired.py:43-66 | a mark made from a list read earlier keeps links and lifecycles in agreement exactly when it moves no atomic belief into or out of Superseded |
| `BeliefRuns.StaleArchiveBreaksLinks` | src/alpha_agent/cognition/loops/workers/archive_expired.py:43-66 | a belief listed as Active and superseded before it is marked ends Archived and still linked |
| `BeliefRuns.StaleArchiveRun` | src/alpha_agent/cognition/loops/workers/archive_expired.py:43-66 | the shortest such run, from the empty store |
| `BeliefRuns.SupersededSummaryHasNoLink` | src/alpha_agent/cognition/loops/workers/memory_summary.py:308-320 | a summary replaced by the summary worker ends Superseded with nothing recorded as superseding it |
| `Contract.ValidateOutput` | src/alpha_agent/cognition/background_llm_contract.py:230-272 | whatever is accepted is clean, stays under the authority ceiling and carries the draft and the allowed target its operation needs |
| `Contract.ValidatePayloads` | src/alpha_agent/cognition/background_llm_contract.py:275-298 | each operation yields exactly its payloads, every draft fitting and every target allowed |
| `Contract.ValidateScopeAbout` | src/alpha_agent/cognition/background_llm_contract.py:490-527 | a project draft names its project by a resolvable descriptor and nothing else; every other scope has a reference of a kind it needs, all from the program's input |
| `Contract.HasKeyAtAnyDepth` | src/alpha_agent/cognition/background_llm_contract.py:547-573 | the recursive key scan rejects exactly when some object at some depth has a bad key |
| `Contract.HasTextAtAnyDepth` | src/alpha_agent/cognition/background_llm_contract.py:606-620 | the recursive text scan rejects exactly when some text at some depth is bad |
| `Contract.AcceptedIsClean` | src/alpha_agent/cognition/background_llm_contract.py:547-620 | no accepted answer holds at any depth a strength key, a provenance key or an injected instruction |
| `AnswerMeaning.AcceptedExactlyWhen` | src/alpha_agent/cognition/background_llm_contract.py:230-527 | a document is accepted, and as this answer, exactly when its fields say so: operation, authority under the ceiling, rationale, note, confirmation, the payload shape of the stage, and each draft and target field by field |
| `AnswerMeaning.AtomicDraftIff` | src/alpha_agent/cognition/background_llm_contract.py:374-401 | an atomic draft is accepted exactly with the kind, scope, references or descriptor, content, object (the content when none is given) and validity its document has, and no id of the model's own |
| `AnswerMeaning.SummaryDraftIff` | src/alpha_agent/cognition/background_llm_contract.py:403-456 | a summary draft likewise, within the kinds, scope, references and domain asked for |
| `AnswerMeaning.UpdateIff` | src/alpha_agent/cognition/background_llm_contract.py:458-484 | an update is accepted exactly with an offered target, a rationale and the operation's own kind |
| `AnswerMeaning.ScopeIff` | src/alpha_agent/cognition/background_llm_contract.py:490-539 | scope and references are accepted exactly when the references are those listed, one of the scope's own kind, all offered, or for a project none and a descriptor |
| `ProjectDescriptors.TextFailsIff` | src/alpha_agent/cognition/state_service.py:853-875 | a text descriptor normalizes to nothing exactly when, trimmed, it consists of `/` and `\` only |
| `ProjectDescriptors.DocumentNeverFails` | src/alpha_agent/cognition/state_service.py:853-875 | a document the contract finds resolvable never fails |
| `ProjectDescriptors.CanonicalText` | src/alpha_agent/cognition/state_service.py:871-875 | a canonical text has single blanks, single slashes and no slash at its end, and keeps every other character of the folded text in order |
| `ProjectDescriptors.CanonicalStays` | src/alpha_agent/cognition/state_service.py:871-875 | a text that is canonical already is its own canonical text |
| `ProjectDescriptors.NamedAlike` | src/alpha_agent/cognition/state_service.py:853-868 | a document is named by its first filled field of `name`, `repository` and `repo`, and shares its canonical form with that text alone |
| `Acceptance.DraftBuildsIff` | src/alpha_agent/cognition/state_service.py:637-735 | a validated draft becomes a belief exactly when its project is not named by a text of path separators only; a project named by a document, and every other scope, always builds |
| `Acceptance.ConsolidationAppliesIff` | src/alpha_agent/cognition/state_service.py:432-603 | an accepted consolidation answer can be applied exactly when its target is an Active atomic belief now and its draft names no project by path separators only; only the first failure is the contract's |
| `Acceptance.ArchiveRetiresListed` | src/alpha_agent/cognition/state_service.py:605-635 | archiving retires exactly the window's Active extracted drafts other than the target |
| `Acceptance.OperationRun` | src/alpha_agent/cognition/state_service.py:432-585 | the operation retires at most its target, adds at most the new belief and leaves every other lifecycle alone |
| `Acceptance.ActiveAfterConsolidation` | src/alpha_agent/cognition/state_service.py:432-635 | the Active set afterwards is the old one, minus the retired target, minus every non-target Active extracted draft of the window, plus the new belief when no confirmation is required |
| `Ledger.AllProcessedRows` | src/alpha_agent/cognition/processing_ledger.py:302-349 | marking a window's sources Processed touches exactly their rows: each is Processed now, without an error and at the checkpoint, and keeps its attempts and claim |
| `Ledger.AllFailedRows` | src/alpha_agent/cognition/processing_ledger.py:660-706 | marking a window's sources Failed touches exactly their rows: each is Failed for the reason and keeps everything else |
| `Ledger.ProcessingLedger.MarkSourceProcessed` | src/alpha_agent/cognition/processing_ledger.py:302-349 | the row is created if missing, then Processed with its error cleared |
| `Ledger.ProcessingLedger.MarkSourceEnded` | src/alpha_agent/cognition/processing_ledger.py:660-706 | the row is created if missing, then ended with the reason |
| `Ledger.ProcessingLedger.MarkWindowEnded` | src/alpha_agent/cognition/processing_ledger.py:708-729 | ends a known window and reports an unknown one |
| `Ledger.ProcessingLedger.FinishRun` | src/alpha_agent/cognition/processing_ledger.py:619-650 | ends a known run with its outputs or its error and reports an unknown one |
| `StateService.AllOrNothing` | src/alpha_agent/cognition/state_service.py:279-365 | accepted: every source of the window's own unit and stage is Processed, the window Processed, the run Succeeded with exactly the outputs returned; rejected by the contract at whatever point: beliefs, indexes and audit are as before and those rows are Failed for the reason returned; no other ledger row changes; any other error changes nothing |
| `StateService.SettledHolds` | src/alpha_agent/cognition/state_service.py:306-365 | whatever an answer's writes come to, the call is all or nothing, and it ends in an unrecorded error exactly for an unknown window or run or a failure that is not the contract's |
| `StateService.CrashesIff` | src/alpha_agent/cognition/state_service.py:306-365 | exactly when a call ends in an error that records no failure: an unknown window or run, JSON that cannot be held, or a valid answer that names a project by a text of path separators only while its targets are in order |
| `StateService.AcceptedIff` | src/alpha_agent/cognition/state_service.py:279-365 | exactly when a call is accepted: window and run are known, the text is an answer the contract accepts, its targets are in order and its drafts name their projects |
| `DescriptorCrash.SlashDescriptorCrashes` | src/alpha_agent/cognition/state_service.py:853-875 | a concrete extraction answer that names its project `/` passes the contract and, in any state, then ends the call in an error that records no failure and changes nothing |
| `StateService.CognitionStateStore.AcceptAnswer` | src/alpha_agent/cognition/state_service.py:279-365 | the transaction with its rollback and its second transaction for the ledger gives the state and outcome of the specified call, about which the rows on `StateService.AllOrNothing`, `StateService.AcceptedIff` and `AnsweredBeliefs` speak |
| `StateService.CognitionStateStore.Commit` | src/alpha_agent/cognition/state_service.py:306-365 | all the writes and all the ledger rows, or exactly the state before |
| `StateService.CognitionStateStore.ApplyConsolidation` | src/alpha_agent/cognition/state_service.py:432-635 | the operation, then the archiving, with their audit records |
| `StateService.CognitionStateStore.ApplyCreates` | src/alpha_agent/cognition/state_service.py:367-430 | one belief and one audit record per payload, in order, or the first failure |
| `StateService.CognitionStateStore.ArchiveSpentDrafts` | src/alpha_agent/cognition/state_service.py:605-635 | marks and audits the spent drafts one source after the other |
| `StateService.CognitionStateStore.Reject` | src/alpha_agent/cognition/state_service.py:737-763 | marks the sources, window and run Failed, or changes nothing when window or run is unknown |
| `AnsweredBeliefs.CreatedBeliefsSay` | src/alpha_agent/cognition/state_service.py:367-430 | after an accepted answer of a creating stage: under each drawn id stands a belief with its draft's content, object, kind, scope and references, the validated authority, the context's stage, exactly the window, its sources and the run as evidence, and no link; each is audited and reported once, in order; every belief stored before is as it was |
| `AnsweredBeliefs.ConsolidatedBeliefsSay` | src/alpha_agent/cognition/state_service.py:432-735 | after an accepted consolidation: the new belief says its draft likewise and names what it supersedes exactly for a superseding answer; the target is superseded by it, retracted, archived or given exactly the call's evidence; the window's other drafts are archived; every other belief is as it was |
| `AnsweredBeliefs.ConsolidationReports` | src/alpha_agent/cognition/state_service.py:432-635 | and its audit records and outputs name exactly what was written and archived, in order |
| `MemoryPropose.NoProblemIff` | src/alpha_agent/tools/memory_propose.py:925-1001 | targets pass validation exactly when each is a stored, atomic, Active belief of the memory's scope and type |
| `MemoryPropose.AcceptedTargets` | src/alpha_agent/tools/memory_propose.py:695-1001 | the targets of an accepted plan are distinct, Active and fitting; exactly one to replace, at least two to merge, at least one to reinforce or retract |
| `MemoryPropose.ProposalRun` | src/alpha_agent/tools/memory_propose.py:418-523 | whatever is proposed, the Active beliefs lose exactly the retired targets and gain exactly the added belief, through writes whose targets are Active when they run |
| `ProposedBeliefs.DecidedExactlyWhen` | src/alpha_agent/tools/memory_propose.py:695-920 | exactly when an update is accepted, waits for confirmation or needs its targets selected: a correction always waits, a retraction waits without evidence, the others need their number of fitting targets, and an append must not ignore related beliefs |
| `ProposedBeliefs.PlanKeepsRequest` | src/alpha_agent/tools/memory_propose.py:695-880 | the plan is for the operation, targets and memory asked for, but an append of what a belief already says reinforces the one held first |
| `ProposedBeliefs.GuidanceWaits` | src/alpha_agent/tools/memory_propose.py:841-859 | domain guidance only ever makes an accepted update wait |
| `ProposedBeliefs.DuplicatesMean` | src/alpha_agent/tools/memory_propose.py:1102-1113 | the duplicates of a memory are the Active atomic beliefs of its kind and scope, about its counterpart, with the same squeezed text |
| `ProposedBeliefs.ProposalLeaves` | src/alpha_agent/tools/memory_propose.py:418-571 | a new belief is stored exactly when the plan stores one, and says the memory's content, kind, scope and hint on the user's authority, with the user's message and the targets it stands over as evidence; each target is superseded by it, retracted or given the message as evidence; every other belief is as it was |
| `ProposedBeliefs.FailsExactlyWhen` | src/alpha_agent/tools/memory_propose.py:518-571 | an update fails only when it has to store a memory about a counterpart whose reference is of another kind or blank |
| `CognitionRuns.HistoryKeepsLinks` | src/alpha_agent/cognition/state_service.py:507-603 | after any history of foreground proposals and background answers: linked exactly when Superseded, links lead to stored beliefs and end |
| `CognitionRuns.HistoryKeepsRetired` | src/alpha_agent/tools/memory_propose.py:418-490 | no history makes a superseded, retracted or archived belief Active again |
| `Messages.AppendKeepsDense` | src/alpha_agent/state/store.py:114-165 | appending keeps every session's ordinals 1, 2, 3, … and touches no other session |
| `Messages.LatestIsLength` | src/alpha_agent/state/store.py:593-602 | the largest ordinal of a session is its number of messages |
| `Messages.SessionStore.AppendSessionMessage` | src/alpha_agent/state/store.py:135-165 | appends one message with the next ordinal |
| `Messages.SessionStore.InsertSessionMessage` | src/alpha_agent/state/store.py:198-219 | accepts a ready-made message exactly when it carries the next ordinal |
| `Messages.SessionStore.UpdateReplayPayload` | src/alpha_agent/state/store.py:473-517 | rewrites the replay columns of one message and nothing else |
| `Messages.SessionStore.ListSessionMessages` | src/alpha_agent/state/store.py:221-249 | the session's messages strictly between the bounds, in order |
| `Messages.SessionStore.FindLatestCompressed` | src/alpha_agent/state/store.py:293-316 | the newest compressed message below the bound |
| `SessionContext.LoadIsASlice` | src/alpha_agent/runtime/session_context.py:62-94 | what is loaded is one unbroken stretch of the stream, from the latest compressed message below the bound up to the bound, and only its first message can be compressed |
| `SessionContext.LoadKeepsAnchors` | src/alpha_agent/runtime/session_context.py:62-94 | every loaded context, under any bound, keeps each tool message together with an earlier assistant message that carries its call id |
| `SessionContext.SessionContextAssembler.Load` | src/alpha_agent/runtime/session_context.py:62-94 | the queries and the filter together give that stretch |
| `SessionContext.PreparedMeans` | src/alpha_agent/runtime/session_context.py:175-249 | a replacement keeps the message's identity and its calls' ids, names and every other field but their arguments, and each payload, arguments, raw content and model content alike, reads as the truncation of what it read as |
| `SessionContext.SecondPassChangesNothing` | src/alpha_agent/runtime/session_context.py:137-173 | a second pass over the same messages changes nothing at any limit |
| `SessionContext.PassKeepsStream` | src/alpha_agent/runtime/session_context.py:137-153 | a pass keeps every session dense and anchored and leaves the other sessions alone |
| `SessionContext.SessionContextAssembler.TruncateToolContextIfNeeded` | src/alpha_agent/runtime/session_context.py:106-172 | prepares every replacement before the first write: a payload that cannot be read leaves everything alone; otherwise each loaded message is replaced, and the report lists what was checked and cut |
| `TruncationPass.PassCutsLoaded` | src/alpha_agent/runtime/session_context.py:106-249 | a pass fails exactly when a loaded, unchecked payload cannot be read or the limit is negative while there is one; otherwise it cuts exactly the loaded messages with an unchecked payload, each payload reading as the truncation of what it read as and each record naming exactly the long strings, and leaves every other message and field as it was |
| `TruncationPass.PreparedExactlyWhen` | src/alpha_agent/runtime/session_context.py:175-249 | a message is left alone exactly when it was checked before or holds no tool payload |
| `Truncation.TruncatedAt` | src/alpha_agent/runtime/session_context.py:287-320 | at every place there is a value exactly when there was one: same shape, short strings and other leaves unchanged, longer strings their prefix of exactly the limit and the marker |
| `Truncation.CutsExact` | src/alpha_agent/runtime/session_context.py:287-320 | the walk meets a string, with its place and length, exactly when it was longer than the limit |
| `Truncation.NothingCut` | src/alpha_agent/runtime/session_context.py:214-218 | an empty record means nothing changed |
| `Truncation.CutTwice` | src/alpha_agent/runtime/session_context.py:294-300 | cutting again at the same limit changes nothing although a cut string exceeds it |
| `Truncation.RecordExact` | src/alpha_agent/runtime/session_context.py:294-300 | a name is in the record exactly when a string at some place of that name was longer than the limit, and what is kept under it is the length of one of those |
| `Truncation.EveryLengthKeptIff` | src/alpha_agent/runtime/session_context.py:294-319 | the record has the length of every string that was cut exactly when no two of them, at places of one name, differ in length |
| `Truncation.LengthCanBeLost` | src/alpha_agent/runtime/session_context.py:294-319 | cutting `{"a": {"b": "x"}, "a.b": "yy"}` at 0 loses a length, in whatever order it is walked |
| `Truncation.PlacesCanShareAName` | src/alpha_agent/runtime/session_context.py:301-319 | those two places have one name |
| `Truncation.TruncateJsonStrings` | src/alpha_agent/runtime/session_context.py:287-320 | the recursive walk returns the truncation, overwrites the record name by name in the order of the walk, and refuses a negative limit |
| `Handover.ReminderWrapsOnce` | src/alpha_agent/state/store.py:49-53 | a stored handover is a system reminder, and wrapping it again for replay changes nothing |
| `Handover.JobCovers` | src/alpha_agent/runtime/context_handover.py:291-313 | a job's point is the last message below the bound, and what it covers is exactly the ordinary messages between the latest compressed message and the bound, by id, ordinal and kind, in order and once each |
| `Handover.CompressStores` | src/alpha_agent/runtime/context_handover.py:167-223 | a compression appends one compressed message, a reminder that holds the provider's reply word for word, and its job names that message, its ordinal and its point |
| `Handover.CompressesExactlyWhen` | src/alpha_agent/runtime/context_handover.py:100-223 | a compression fails exactly when nothing is loaded or the provider fails |
| `Handover.CompressKeepsCoverageIff` | src/alpha_agent/runtime/context_handover.py:151-223 | compressing keeps coverage exact exactly when the bound is past the end of the stream, or nothing ordinary follows the latest compressed message in the stream and below the bound |
| `Handover.CompressSessionContext` | src/alpha_agent/runtime/context_handover.py:151-275 | appends the handover and returns its job, or appends nothing when there is nothing to compress or the provider fails |
| `SessionRuns.CoveredOrLoaded` | src/alpha_agent/runtime/context_handover.py:167-211 | after any run of appends, compressions and truncations: every ordinary message below the latest compressed one is covered by exactly one job, once, nothing else is covered, and what is loaded is exactly what follows |
| `SessionRuns.BoundedCompressionLosesMessages` | src/alpha_agent/runtime/context_handover.py:167-223 | with a bound, a later ordinary message is covered by no job and no longer loaded |
| `ToolExecution.ToolExecutor.Execute` | src/alpha_agent/runtime/tools.py:117-247 | a batch that completes has exactly one result per call, in call order, blocked exactly when its like was asked for more than three times in the turn, otherwise what its tool gave or how it failed; a batch stops exactly at the first call that something stops; the tools run are exactly those its calls get to |
| `ToolExecution.ToolExecutor.ExecuteOne` | src/alpha_agent/runtime/tools.py:134-197 | a summary of the arguments that raises stops the batch before the call is counted; otherwise counts the call first, then blocks it or runs it |
| `ToolExecution.StopsExactlyWhen` | src/alpha_agent/runtime/tools.py:134-247 | a call stops its batch exactly when the turn is canceled before or in its run, its tool's summary raises, or, without recovery only, it cannot be run or its tool raises; and its tool is run exactly when nothing came before and it is asked properly, known, available and not blocked |
| `ToolExecution.RecoveredStops` | src/alpha_agent/runtime/tools.py:134-247 | with recovery a batch is stopped by a cancellation that took place or by a summary of a known tool that raised, and by nothing else |
| `ToolExecution.RunAtMostThrice` | src/alpha_agent/runtime/tools.py:395-407 | however the digest behaves, no tool is run more than three times in a turn with the same arguments |
| `AgentTurn.AlphaAgent.RunAgentLoop` | src/alpha_agent/runtime/agent.py:888-1046 | for any model the loop ends after at most min(maxToolIterations + 2, maxLlmRounds + 1) model calls and maxToolIterations batches; every model call but the last asked for tools; the first batches were run, in order, and one more was refused only because a limit was reached; each way of ending follows from what the last model call gave; on return the counters are the lengths of the lists, the lists are those of the calls made, and the response asks for no tools; the tools run are exactly those of its batches and none was run more than three times with the same arguments |
| `AgentTurn.AlphaAgent.RunRound` | src/alpha_agent/runtime/agent.py:888-1046 | one model call leads to the end of the loop, to a last round without tools, or to exactly one more batch |
| `AgentTurn.AlphaAgent.RunBatch` | src/alpha_agent/runtime/agent.py:982-1030 | a completed batch leaves the assistant message, which holds what the model said and its calls by id, name and arguments, and one tool message per call, in call order, which holds what its result rendered to; otherwise it stopped exactly at the first call that a cancellation or a raising summary stops |
| `AgentTurn.AlphaAgent.WriteToolResultMessages` | src/alpha_agent/runtime/agent.py:1216-1240 | one tool message per result, in order, each wanted by the assistant message before it, holding what the result rendered to and whether that is plain text |
| `AgentTurn.StoredCallsRead` | src/alpha_agent/runtime/agent.py:1430-1441 | each stored call reads back the id, the name and the arguments of the call asked for |
| `AgentTurn.AlphaAgent.RunContextMaintenance` | src/alpha_agent/runtime/agent.py:589-648 | cuts what is loaded exactly when the budget asks for it and a pass is needed, then hands over what is loaded, if anything, exactly when the budget asks for that: one reminder that holds the reply, and its job; a step that fails leaves what the last successful step gave; every session stays anchored and exactly covered throughout |
| `AgentTurn.AlphaAgent.Respond` | src/alpha_agent/runtime/agent.py:322-497 | however a turn ends, every session stays dense, anchored and exactly covered, this session only grew, no other changed and no tool was run more than three times with the same arguments; a busy turn changes nothing; a finished turn stored what the user said, after at most one handover, and ends with its answer |
| `AgentTurn.AlphaAgent.AnswerUser` | src/alpha_agent/runtime/agent.py:322-497 | the turn proper stores what the user said first and the answer last |
| `BoundedOutput.KeptLengthMonotone` | src/alpha_agent/runtime/tools.py:561-572 | keeping more never gives a shorter text although the marker can get shorter |
| `BoundedOutput.FitsIffMarkerFits` | src/alpha_agent/runtime/tools.py:561-572 | some length fits exactly when the marker alone does, and then every smaller one |
| `BoundedOutput.BoundedTruncatedContent` | src/alpha_agent/runtime/tools.py:561-572 | never longer than the limit; the longest prefix that fits; kept plus omitted are the original length exactly when a marker fits or the limit is at most that length |
| `SearchQuery.EscapeLikeIsOnePass` | src/alpha_agent/cognition/projections/belief.py:197-198 | the three replacements escape each special character exactly once |
| `SearchQuery.LikeMeansSubstring` | src/alpha_agent/cognition/projections/belief.py:1052-1066 | the pattern matches a text exactly when the probe is a literal substring of it, case aside |
| `SearchQuery.ProbesExact` | src/alpha_agent/cognition/projections/belief.py:180-189 | a query is built from exactly the long enough normalized values, each once |
| `SearchQuery.ProbesInOrder` | src/alpha_agent/cognition/projections/belief.py:180-189 | and in the order in which they first appear |
| `SearchQuery.BuildFtsPhraseQuery` | src/alpha_agent/cognition/projections/belief.py:180-194 | the loop with its set of seen probes builds the query of those probes |
| `SearchQuery.QueryReadsBack` | src/alpha_agent/cognition/projections/belief.py:168-194 | read by the engine's string rule, a built query is exactly those probes |
| `Tokenizer.ConsumeTechnicalRun` | src/alpha_agent/cognition/search_tokenizer.py:91-105 | makes progress, squeezes spaces between technical characters into one blank, stops only where neither goes on, and its final trim removes nothing |
| `Tokenizer.NextNonSpaceIndex` | src/alpha_agent/cognition/search_tokenizer.py:108-112 | the first position that is no space |
| `Tokenizer.IterRuns` | src/alpha_agent/cognition/search_tokenizer.py:70-88 | joining the runs and dropping blanks gives exactly the CJK and technical characters in order; every run is of one kind and made from a stretch that could not be longer |
| `TokenParts.StretchesAreMaximal` | src/alpha_agent/cognition/search_tokenizer.py:143-175 | the parts a token splits into are the longest stretches of one kind |
| `TokenParts.StretchesInOrder` | src/alpha_agent/cognition/search_tokenizer.py:143-175 | in order and disjoint |
| `TokenParts.StretchesCover` | src/alpha_agent/cognition/search_tokenizer.py:143-175 | and leave out no character of a kind that counts |
| `TokenParts.SplitOnSeparators` | src/alpha_agent/cognition/search_tokenizer.py:143-155 | the loop finds exactly the stretches free of separators and spaces |
| `TokenParts.EmbeddedAlphaDigitGroups` | src/alpha_agent/cognition/search_tokenizer.py:158-187 | the loop finds exactly the stretches of letters and of digits, single letters left out |
| `GatewayDedup.OutboundRoundTrip` | src/alpha_agent/gateway/session.py:334-370 | a cached reply reads back as it was |
| `GatewayDedup.PlatformKeysAgreeIff` | src/alpha_agent/gateway/session.py:311-317 | two messages share a key exactly when platform, chat and message id agree after normalization |
| `GatewayDedup.PlatformIdMeans` | src/alpha_agent/gateway/session.py:150-157 | a message's platform id is its own unless that is empty, and else its source's, trimmed |
| `GatewayDedup.FallbackKeysAgreeIff` | src/alpha_agent/gateway/session.py:320-331 | two messages without platform ids share a key exactly when platform, chat, thread, user, kind and squeezed text agree, with a JSON form and a digest that tell texts apart |
| `GatewayDedup.KeysAgreeIff` | src/alpha_agent/gateway/session.py:150-163 | any two messages share a key exactly when they have one platform id in one chat, or neither has one and their contents agree |
| `GatewayDedup.KeyedExactlyWhen` | src/alpha_agent/gateway/session.py:311-331 | a message has no key exactly when platform or chat is blank, or it has no platform id and its user is blank |
| `GatewayDedup.KeysOfKindsDiffer` | src/alpha_agent/gateway/session.py:154-163 | keys by platform id and keys by text never meet |
| `GatewayDedup.CacheThenMark` | src/alpha_agent/gateway/session.py:191-245 | a cached reply is retryable until it is marked, in the row of its key alone |
| `GatewayDedup.PlatformKeyAcceptedOnce` | src/alpha_agent/gateway/session.py:144-189 | however operations interleave, a key by platform id is accepted at most once |
| `GatewayDedup.FallbacksAreSpaced` | src/alpha_agent/gateway/session.py:144-189 | under a monotone clock two accepted messages with one fingerprint are at least the lifetime apart |
| `GatewayDedup.NextFallbackAcceptedIff` | src/alpha_agent/gateway/session.py:247-254 | a repeat is accepted exactly once the lifetime is over |
| `GatewayDedup.GatewayDeduplicator.CheckAndRecord` | src/alpha_agent/gateway/session.py:144-189 | prunes, then records the key unless it is there |
| `GatewayDedup.GatewayDeduplicator.CacheOutbound` | src/alpha_agent/gateway/session.py:191-206 | stores the reply beside its key, if recorded |
| `GatewayDedup.GatewayDeduplicator.MarkOutboundDelivered` | src/alpha_agent/gateway/session.py:208-227 | marks the cached reply, if any |
| `GatewayDedup.FoundIsLastCached` | src/alpha_agent/gateway/session.py:229-245 | over any run of operations a reply is found for a key exactly when it is the one cached last while the key was recorded, and since then it was not marked and its row not dropped |
| `GatewayDelivery.AgentRunsOnce` | src/alpha_agent/gateway/runner.py:131-207 | over any interleaving of deliveries the agent is run at most once per platform key and every attempt carries the same reply |
| `GatewayDelivery.DeliveredOnce` | src/alpha_agent/gateway/runner.py:131-207 | when deliveries of one platform key do not overlap, at most one send for it succeeds, however deliveries of other keys interleave with them |
| `GatewayDelivery.OverlappingDeliveriesCanBothSend` | src/alpha_agent/gateway/runner.py:131-143 | two overlapping deliveries can both succeed: a run |
| `GatewayBridge.GatewayRuntimeBridge.HandleMessage` | src/alpha_agent/gateway/runner.py:113-195 | after any sequence of messages: a message that is the same as none handled before is new, and one with a platform id is new only then; the agent runs exactly for a new message whose session is found and not busy; a new message is answered with the busy text, the agent's answer or the error text, as a reply to it; a reply is returned exactly when it was just sent with success, new or cached; and over all messages handled a platform key has at most one agent run, one successful send and one reply |
| `GatewayBridge.NewWhenUnseen` | src/alpha_agent/gateway/session.py:144-189 | what is recorded are exactly keys of messages handled, so a message unlike all of them is new |
| `GatewayBridge.GatewayRuntimeBridge.SendAndMark` | src/alpha_agent/gateway/runner.py:197-207 | a failed send leaves the reply cached, a successful one marks it |
| `Counterparts.RoutingIsStable` | src/alpha_agent/runtime/counterpart_router.py:40-77 | any two calls with one external identity, whatever lies between them, get the same counterpart |
| `Counterparts.ClaimIsForEver` | src/alpha_agent/runtime/counterpart_router.py:137-159 | once an external identity has claimed the default counterpart, no call re-identifies it |
| `Counterparts.RoutingIsStableIff` | src/alpha_agent/runtime/counterpart_router.py:113-135 | a call is routed alike for ever exactly when its identity is external or the default counterpart is claimed already |
| `Counterparts.PlaceholderIsNotStable` | src/alpha_agent/runtime/counterpart_router.py:113-135 | the local placeholder identity is the default counterpart before the claim and another one after it |
| `Counterparts.IdsCanCollide` | src/alpha_agent/runtime/counterpart_router.py:184-186 | different identities can share a counterpart id |
| `Counterparts.RoutedTogetherIff` | src/alpha_agent/runtime/counterpart_router.py:113-135 | once the default is claimed, with a digest that tells texts apart, two calls share a counterpart exactly when both name the identity that claimed it, or neither does and the joined texts of platform and user agree |
| `Counterparts.SameCounterpartIff` | src/alpha_agent/runtime/counterpart_router.py:184-186 | when neither platform contains a colon, exactly when platform and user are the same |
| `Counterparts.SourceIdentityMeans` | src/alpha_agent/runtime/counterpart_router.py:91-111 | which metadata field wins: the first filled of `platform` and `source` or else `local`; the first filled of the four user keys, without which there is no identity; the first filled of the three display keys |
| `Counterparts.CallRecords` | src/alpha_agent/runtime/counterpart_router.py:40-77 | a call records at most one event, about its own counterpart; afterwards that one is observed and, if it was not before, known by what the call said; nothing changes for the others |
| `Counterparts.CounterpartRouter.UpsertFromSourceMetadata` | src/alpha_agent/runtime/counterpart_router.py:40-77 | routes and records as the specification says, with or without a projection |
| `Counterparts.CounterpartRouter.CounterpartIdentity` | src/alpha_agent/runtime/counterpart_router.py:161-182 | the projection's identity, or else the log's merged one |
| `Counterparts.CounterpartProjection.Apply` | src/alpha_agent/cognition/projections/counterpart.py:125-206 | a first observation replaces the identity, an identification merges into it |
| `Goals.LimitNeverExceeded` | src/alpha_agent/cognition/projections/goal.py:139-190 | however the log goes the number of active goals never exceeds the limit |
| `Goals.EmittedIsNeverDropped` | src/alpha_agent/cognition/goals/registry.py:52-78 | over any run of the registry from the empty log, with equal limits: every goal it emits is active in the view right after its event and stays stored |
| `Goals.EmittedIsKeptIff` | src/alpha_agent/cognition/goals/registry.py:52-78 | over any such run with any two limits: an emitted goal is stored as it was set, except exactly when the projection is full, the registry is not, and the goal is not active already |
| `Goals.NoEmptyId` | src/alpha_agent/cognition/goals/registry.py:60-62 | over any such run no goal is ever kept under an empty id |
| `Goals.ActiveExactlyWhen` | src/alpha_agent/cognition/goals/registry.py:39-94 | over any run of the registry: a goal is active exactly when it was set, kept, and not satisfied or abandoned since |
| `Goals.EndingMakesRoom` | src/alpha_agent/cognition/projections/goal.py:192-206 | ending an active goal takes exactly it out of the active ones, so that one more fits; its other fields and all other goals stay |
| `Goals.ProgressRecords` | src/alpha_agent/cognition/projections/goal.py:208-230 | progress keeps every status; a drive is recorded at its time, other progress leaves the last drive |
| `Goals.GoalProjection.Apply` | src/alpha_agent/cognition/projections/goal.py:69-79 | applies one event as the fold does |
| `Goals.GoalProjection.RebuildIfEmpty` | src/alpha_agent/cognition/projections/goal.py:125-131 | an empty view becomes the fold of the log, which is what the registry keeps incrementally |
| `Goals.GoalRegistry.SetGoal` | src/alpha_agent/cognition/goals/registry.py:39-78 | refuses exactly when as many goals are active as the limit allows and the one asked for is not among them; logs before applying; otherwise the goal is in the view as asked for, active and undriven, keeping when it was created, unless the projection has the smaller limit and is full; no other goal is touched |
| `Goals.GoalRegistry.Satisfy` | src/alpha_agent/cognition/goals/registry.py:80-86 | logs the ending; exactly this goal leaves the active ones and no other is touched |
| `Goals.GoalRegistry.Abandon` | src/alpha_agent/cognition/goals/registry.py:88-94 | likewise |
| `Goals.GoalRegistry.EmitApply` | src/alpha_agent/cognition/goals/registry.py:116-126 | the projection stays the fold of the log, and the log one the registry can have written |
| `Drive.DrivesAreSpaced` | src/alpha_agent/cognition/loops/drive.py:80-135 | two triggered drives of one goal with no set of it between them are at least the cooldown apart |
| `Drive.OverlappingDrivesCanCoincide` | src/alpha_agent/cognition/loops/drive.py:87-118 | from any run in which a goal is eligible, two drives of it that overlap can both be recorded at the same time |
| `Drive.SettingClearsCooldown` | src/alpha_agent/cognition/projections/goal.py:139-176 | setting a goal again makes it eligible at once |
| `Drive.DriveLoop.ActiveGoals` | src/alpha_agent/cognition/projections/goal.py:89-103 | exactly the active goals, by priority, then undriven first, then longest undriven, then longest unchanged, then id |
| `Drive.DriveLoop.SelectGoal` | src/alpha_agent/cognition/loops/drive.py:124-135 | the first eligible goal in that order, and none only if none is eligible: no eligible goal has a higher priority, and of those of its priority none was never driven while it was, none was driven earlier, and of those driven at the same time none changed earlier |
| `Drive.DriveLoop.RunOnce` | src/alpha_agent/cognition/loops/drive.py:80-122 | a drive is triggered exactly when a goal was selected and its turn was not busy, and records exactly one progress event for it; the history of picks and events grows by exactly those acts and stays one whose picks were eligible |

## Left out

- SQL text, connections and schema: tables are maps, sequences and sets with the keys the code relies on, a query is a function on them, a transaction is save and then commit or restore.
- Case folding, word segmentation, hashing, JSON text, random ids and time formats: functions or values given from outside; ids are new when drawn, times are compared by their order.
- Ranking and merging in `recall` and `recall_candidates`, and everything the search engine computes beyond matching: the candidate search enters memory proposals as a verdict.
- Fields that only travel along: belief structure, relations, update policy, derivation traces, validity bounds other than the observation time, row update times, runtime traces, debug fields and logs.
- Domain guidance enters memory proposals as a verdict; the parsing of a proposal is reduced to whether it was well formed; a proposal's own event is not modelled.
- MemoryPropose.ProposalRun: is about one update's writes as values, not about the tool object that calls the store.
- Coordinator.LoopCoordinator.StartYield: expiry of pending yield requests depends on a clock value passed in; chunk budgets and remaining seconds are not modelled.
- Belief workers other than the two marks named above, the ledger's claim operations, source windows' creation, and stage scheduling.
- The budget estimates, prompt rendering, summary snapshots and events of a turn: they enter as arbitrary verdicts or not at all; one turn per session at a time is taken from the turn lock.
- Retries inside one model call: a call counts once, with the number of retries it reports.
- AgentTurn.AlphaAgent.RunAgentLoop: the other direction, a result for every stored call, does not hold for a turn that stops inside a batch and is not claimed.
- Bounding of structured tool results (`_bounded_structured_mapping_output`): it may exceed the limit by design and only picks the first candidate that fits.
- `_technical_tokens` and `tokenize_mixed_text` above the splitters: they normalize, drop repetitions and keep order.
- Adapters, HTTP, sessions mappings, hooks, and the bypass commands of the turn guard: a busy session is a verdict.
- StateService.CrashesIff: a text with a lone surrogate, which JSON escapes allow, cannot be encoded for the hash and also ends the call unrecorded; characters here are never surrogates. Window, run and source ids are taken not to be blank, which the ledger refuses with errors of its own.
- ToolExecution.ToolExecutor.Execute: errors of the store that keeps the traces are not modelled.
- Counterparts.RoutingIsStable: metadata values are texts; the role, service and trust events of a counterpart are not modelled. For a counterpart not known yet they would store an empty identity; none of the code shown emits them.
- GatewayDelivery.AgentRunsOnce: errors of the database itself between steps are not modelled.
- Goals.GoalProjection.Apply: a goal record that does not parse is treated as no goal; events of other kinds are ignored by the projection and left out of the log.
- Goals.EmittedIsNeverDropped: the registries that write one log share one limit and have the projection; one without a projection skips the guard, and a later rebuild can drop what it emitted.
- Truncation.RecordExact: the order in which a document's fields are walked, that of its text, is left open; equal documents are walked in one order.
- Drive.DriveLoop.RunOnce: the coordinator lock around the selection is not taken; `DrivesAreSpaced` is about drives that follow each other, and `OverlappingDrivesCanCoincide` shows that it does not hold of others.
- LLM providers, daemon, command line, configuration, skills, web tools and file tools.
