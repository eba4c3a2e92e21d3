# Verification model of Cogito

A Dafny model of the Cogito gateway and of the tools around its models, with proofs of what they promise.

The gateway is a durable coordinator written as small transactions over shared tables. A plan goes from draft to approval
to a checklist of deliverables, which are dispatched one at a time as Foreman Workloads and then merged, failed or retried.
One thread reconciles; owner commands, GitHub webhooks and approvals arrive on other threads between any two of its
transactions. Around that stand an event queue that debounces and batches work for Luna, an outbox shared with three Matrix
bots, the text forms a plan takes (canonical Markdown, issue body, checklist), two programs that download and verify model
shards in parallel, the checker of the LLM catalogue, the packer of the serving dashboard, and a search over token counts.

## How it is organised

- `Tables` has every transaction of the plan tables as a function on their contents. `StateStoreModel`, `Core` and
  `Reconciler` are the same code as classes and methods that update fields and loop; each method is proved to make exactly
  the change, or to be exactly a run of the steps, that the functions define.
- `Effects` says what each transaction does to the rows and plans, `Answers` what each answer of Foreman and GitHub makes of
  a row, without the functions that define them.
- `Execution` interleaves those transactions: the reconciler is a program counter that may stop anywhere, every other thread
  may act between any two of its steps. `PlanProgress`, `Correspondence` and `Approvals` prove what its runs keep, `Progress`
  that none of them is a dead end; `Naming` has the workload names, `MergeGate` the choice of a pull request to merge.
- `LunaQueue`, `LunaHistory`, `LunaWindow`, `LunaStoreModel` and `LunaCoordinator` do the same for the event queue, with a
  clock and crashes; `Ordering` is the ORDER BY and LIMIT of its queries.
- `Outbox` is the protocol between the outbox table, the bots, the network and a Matrix server that deduplicates transaction
  ids (Matrix Client-Server API, section "Transaction identifiers"); `MatrixBot` is the bot's code, `OutboxStoreModel` the table.
- `Shards` and `Download` are the transfer programs; ranges are as in section 14.4 of RFC 9110.
- `Markdown`, `PlanIssue`, `Checklist`, `SubIssues`, `Catalogue`, `Grid` and `TokenFit` are one program part each. `Basics` and `Text`
  hold what they share.

Clocks, answers of GitHub, Foreman and the Matrix server, the order in which concurrent reads finish, and the steps of other
threads are parameters that every result quantifies over. Digests are functions of the text; a batch id stands for the ids
it is a digest of.

## Where the code does less than its words

Each of these is a lemma with a concrete run or an exact condition.

- record_plan and record_github_edit check and commit in two transactions, so an approval on another thread can slip in
  between and then names a text that is no longer current (`RecordPlanRace`, `LateCommitKeepsIff`, `GithubEditRace`,
  `LateEditKeepsIff`).
- A resume decides on an earlier read: a plan paused in review and approved by label in between is put back into review
  with its approval (`PausedReviewRace`, `ResumeKeepsIff`).
- approve writes decomposed without looking again: an approval removed in between does not stop the dispatch
  (`ReopenedPlanRuns`; `DispatchIsApprovedIff` and `OnlyApprovedTextRuns` say when what runs is approved).
- The downloader gives a range up as soon as refreshing the address fails, whatever attempts are left (`Fetch`).
- A message refused for an unknown event can be posted twice, once as its fallback (`FallbackCanDuplicate`).
- A plan issue edited by a client that writes CR LF everywhere is refused as having no body (`CrLfIssueIsRefused`).
- The two checklist readers have different default items (`ReadersAgreeIff`).
- One unpin removes one copy of an event from the pin list (`PinListIsRight`).
- Deleting a part file without its state file makes the downloader skip ranges it no longer has
  (`DeletedPartNeedsDeletedState`); the digest check at the end still refuses the file.
- A resumed shard copy says nothing about the source's own prefix (`SourcePrefixIsUnread`).
- A review that rejects does not stop a merge that has its quorum (`RejectionIsNoVeto`).
- The catalogue's same-model rule holds for each hop, not for chains (`MixedNamesCanCross`, `SafeMiddleIff`).
- models.py says that canonical Markdown keeps its meaning, but the indentation of the first line, which can make it code,
  is removed (`FirstIndentIsLost`).

## Model

| member | source | states |
|---|---|---|
| PlanProgress.SerialExecution | services/gateway/coordinator/state.py:834-1000 | In every state that any interleaving of owner commands, webhooks, approvals and reconciler steps (with crashes) can reach, every plan's deliverables in position order are merged up to some position, then at most one that is running, merge_pending or failed, then pending ones. |
| PlanProgress.SerialIffShape | services/gateway/coordinator/state.py:834-844 | That shape is exactly the pairwise discipline the dispatch query enforces: behind an unmerged item everything is pending. |
| Execution.StepKeepsInv | services/gateway/coordinator/state.py:809-1000 | Each single transaction, of whichever thread, keeps the serial discipline, the uniqueness of workload slots, the completed-means-merged rule and what the reconciler thread has read. |
| PlanProgress.FinishedMeansMerged | services/gateway/coordinator/state.py:616-639 | A completed plan, or one paused with completed saved as its previous state, has deliverables and all of them are merged, however pause and resume race with finish_merge. |
| PlanProgress.StepFollowsLifecycle | services/gateway/coordinator/state.py:846-1000 | One step moves a deliverable only along pending, running, merge_pending or failed, merged; a failed one back to pending only with its attempt counted up; rows are never removed. |
| PlanProgress.MergedForever | services/gateway/coordinator/state.py:964-990 | A merged deliverable stays merged in every continuation of every run. |
| PlanProgress.QueryAgreement | services/gateway/coordinator/state.py:869-879 | In every reachable state a plan is ready to dispatch exactly when it is decomposed or running and has a next deliverable; the query's clause about active rows never decides. |
| Tables.NextDeliverable | services/gateway/coordinator/state.py:834-844 | Returns a pending row all of whose predecessors are merged, and nothing exactly when no such row exists. |
| PlanProgress.RowsAreRegistered | services/gateway/coordinator/state.py:809-825 | In every reachable state the rows of a plan are, position by position, the issues of one checklist that was registered for it. |
| PlanProgress.IssuesDiffer | services/gateway/coordinator/state.py:809-825 | In every reachable state the rows of a plan are for different issues. |
| Progress.NoDeadEnd | services/gateway/coordinator/state.py:834-1000 | From every reachable state a plan whose first unmerged deliverable failed, or which is decomposed or running, can be brought to completion with all deliverables merged by steps of the reconciler alone: retry, dispatch under a computed name, merge, one deliverable after the other. |
| Effects.RegisterOpens | services/gateway/coordinator/state.py:809-825 | Registering a checklist of a plan without rows stores its issues in order, waiting and for the first attempt, exactly when the plan is known and no issue is listed twice or by any plan. |
| Effects.RegisterAgain | services/gateway/coordinator/state.py:809-825 | A plan with rows accepts exactly the list they are for, which changes nothing. |
| Effects.MergedEffect | services/gateway/coordinator/state.py:964-990 | A merge reported done merges that row alone and completes the plan exactly when every other row was merged. |
| Effects.FailedEffect | services/gateway/coordinator/state.py:992-1000 | A failure breaks that row alone and fails its plan. |
| Effects.RetryGranted | services/gateway/coordinator/state.py:846-867 | A retry is granted exactly to a failed row, the first for its issue, whose workload no other row names. |
| Effects.RetryEffect | services/gateway/coordinator/state.py:846-867 | The row waits again, unbound and one attempt on, its plan is decomposed, its workload row is gone; nothing else changes. |
| Effects.StartEffect | services/gateway/coordinator/state.py:895-919 | Registering a new workload binds it to that row alone, which runs, as does the plan. |
| Effects.ResumeUndoesPause | services/gateway/coordinator/state.py:616-639 | Pausing and resuming gives the plan back as it was; pausing twice is pausing once. |
| Effects.VersionStored | services/gateway/coordinator/core.py:29-56 | A version is stored, as the current one and in review, exactly when its number, text and event are new; nothing else changes. |
| Effects.EditAdmitted | services/gateway/coordinator/core.py:58-76 | An edit passes exactly for the plan's own issue, with another text than the current one and no approval, and gets the next number. |
| Effects.ApprovalEffect | services/gateway/coordinator/core.py:93-130 | The first transaction of approve succeeds exactly for the current text, not approved under another hash, with an event that approved nothing else; it stores the approval once and moves the plan to accepted unless it has moved on. |
| Correspondence.WorkloadsMatchDeliverables | services/gateway/coordinator/state.py:50-61 | For gateway ids and runs shorter than 10^22 steps: a deliverable names a workload exactly when that workload's row names the deliverable's plan and position. |
| Correspondence.DispatchNeverClashes | services/gateway/coordinator/state.py:895-912 | When the reconciler registers a workload, its name is new and no workload row holds the slot, so the insert violates no uniqueness constraint and succeeds. |
| Correspondence.AttemptsGrow | services/gateway/coordinator/state.py:846-867 | Between two dispatches of the same row its attempt number has grown. |
| Correspondence.RetriesGetNewNames | services/gateway/coordinator/state.py:846-867 | Two dispatches of one deliverable anywhere in a run use different workload names: a retry never reuses an earlier attempt's name. |
| Naming.GatewayStem | services/gateway/coordinator/foreman.py:91-97 | The sanitiser leaves a gateway plan id as it is. |
| Naming.NameIsWhole | services/gateway/coordinator/foreman.py:91-97 | For gateway plan ids, at most 100 items and attempts below 10^22, neither truncation nor the final strip removes anything from the name. |
| Naming.NamesInjective | services/gateway/coordinator/foreman.py:91-97 | On that range equal names mean equal plan, position and attempt. |
| Naming.NameIsLabel | services/gateway/coordinator/foreman.py:91-97 | Whatever the plan id, a name is at most 63 lower-case letters, digits and dashes, with no dash at either end. |
| MergeGate.GateIsExact | services/gateway/coordinator/foreman.py:313-350 | A pull request passes exactly when the last finished fix that said GO has reviews of its branch that say GO, all begun when it was done or later, by enough different named agents, and every one of them names that pull request. |
| MergeGate.RejectionIsNoVeto | services/gateway/coordinator/foreman.py:328-336 | A review that does not approve changes nothing: it vetoes no candidate. |
| MergeGate.NewArtifactVoidsReviews | services/gateway/coordinator/foreman.py:327-340 | A later artifact voids every review begun before it was done: the quorum is missed until new reviews come in. |
| Approvals.ApprovalPinsContent | services/gateway/coordinator/core.py:29-197 | Over runs in which every late commit of record_plan or record_github_edit, every resume and every direct write of a planning state meets the exact condition stated for it (both operations as one step always do), an approval always names the hash of the current version, and a current version from 1 on is always stored. |
| Approvals.VersionNeverDecreases | services/gateway/coordinator/core.py:29-91 | Over any continuation under those conditions the current version number of a plan never decreases. |
| Approvals.FrozenUntilReopened | services/gateway/coordinator/core.py:58-91 | Over any continuation under those conditions an approved plan keeps the same approval, version number and stored text until its approval is removed. |
| Approvals.ResumeKeepsIff | services/gateway/coordinator/state.py:630-639 | Resuming keeps the pin exactly when an approved plan has a saved state and that state is outside review. |
| Approvals.LateCommitKeepsIff | services/gateway/coordinator/core.py:29-56 | The transaction of record_plan, run later than its guards, keeps the pin exactly when no approval and no newer version arrived in between. |
| Approvals.RecordPlanRace | services/gateway/coordinator/core.py:29-56 | A concrete run in which an approval commits between the guards and the transaction of record_plan: the approval then names an obsolete version. |
| Approvals.LateEditKeepsIff | services/gateway/coordinator/core.py:58-91 | The transaction of record_github_edit, run later than its guards, keeps the pin exactly when no approval and no newer version arrived in between. |
| Approvals.GithubEditRace | services/gateway/coordinator/core.py:75-91 | A concrete run in which an approval commits while record_github_edit publishes the issue: the edit then replaces the approved text. |
| Approvals.PausedReviewRace | services/gateway/coordinator/matrix.py:758-763 | A concrete run: a plan paused in review is approved by a GitHub label after the resume command has read the paused state; the resume puts the approved plan back into review, and its text can be replaced. |
| Approvals.DispatchIsApprovedIff | services/gateway/coordinator/luna.py:285-301 | Over those runs the text a dispatch under way is for is the approved one exactly when the plan has an approval and the version that was read is still current. |
| Approvals.OnlyApprovedTextRuns | services/gateway/coordinator/luna.py:285-301 | From an approval until its removal whatever is dispatched of the plan is the approved text. |
| Approvals.ReopenedPlanRuns | services/gateway/coordinator/core.py:148-168 | A concrete run in which the approval is removed between the first transaction of approve and its write of decomposed: the plan is opened and dispatched without an approval. |
| StateStoreModel.StateStore.SetPlanState | services/gateway/coordinator/state.py:609-614 | Writes the state of that plan alone, or nothing when the plan is unknown. |
| StateStoreModel.StateStore.PausePlan | services/gateway/coordinator/state.py:616-628 | Saves the state and pauses; pausing a paused plan changes nothing; an unknown plan is an error that changes nothing. |
| StateStoreModel.StateStore.ResumePlan | services/gateway/coordinator/state.py:630-639 | Restores the saved state, or review when none is saved, forgets it and returns it. |
| StateStoreModel.StateStore.ExhaustTurn | services/gateway/coordinator/state.py:399-413 | Moves the plan to needs_input unless it is terminal. |
| StateStoreModel.StateStore.RegisterDeliverables | services/gateway/coordinator/state.py:809-825 | Stores the issues in order as fresh rows; for a plan with rows it succeeds exactly on the list they are for and changes nothing; a repeated or taken issue or an unknown plan is an error that changes nothing. |
| StateStoreModel.StateStore.NextDeliverable | services/gateway/coordinator/state.py:834-844 | Finds the row Tables.NextDeliverable specifies, by one scan. |
| StateStoreModel.StateStore.PrepareDeliverableRetry | services/gateway/coordinator/state.py:846-867 | Resets only a failed row of this plan, counts the attempt up, drops its workload row and returns the plan to decomposed, or changes nothing. |
| StateStoreModel.StateStore.RegisterWorkload | services/gateway/coordinator/state.py:895-912 | Inserts or refreshes the workload row, binds the deliverable and sets the plan running, in one transaction that a constraint violation undoes. |
| StateStoreModel.StateStore.UpdateWorkload | services/gateway/coordinator/state.py:931-944 | Changes only the phase of an existing workload row. |
| StateStoreModel.StateStore.ActiveWorkloads | services/gateway/coordinator/state.py:921-929 | Lists, without repetition, exactly the workloads of running or needs_input plans whose deliverable is running. |
| StateStoreModel.StateStore.BeginMerge | services/gateway/coordinator/state.py:946-954 | Marks the row merge_pending and stores the pull request. |
| StateStoreModel.StateStore.PendingMerges | services/gateway/coordinator/state.py:956-962 | Lists, without repetition, exactly the rows in merge_pending. |
| StateStoreModel.StateStore.FailDeliverable | services/gateway/coordinator/state.py:992-1000 | Marks the row and its plan failed. |
| StateStoreModel.StateStore.FinishMerge | services/gateway/coordinator/state.py:964-990 | Turns that row alone to merged or failed; the plan becomes completed exactly when every other row is merged, failed when the merge failed, and else stays as it is. |
| Core.Coordinator.RecordPlan | services/gateway/coordinator/core.py:29-56 | With any run of other threads between its guards and its transaction: what it does is the guards on the first tables and the commit on the later ones. |
| Core.Coordinator.RecordGithubEdit | services/gateway/coordinator/core.py:58-91 | With any run of other threads, and any answer to publishing the issue, between its guards and its transaction: the guards on the first tables (the same hash adds nothing, an approved plan refuses a different one), then the commit on the later ones, or an error when the issue came back as another. |
| Core.Coordinator.Approve | services/gateway/coordinator/core.py:93-168 | The exact steps and result of every case: refused with the tables as they were; no issue; moved on, with the issues of its rows; stopped by GitHub after the first transaction; or decomposed and its checklist registered, with other threads between the three transactions. |
| Core.ApprovedPlanIsOpened | services/gateway/coordinator/core.py:93-155 | After a first approval that nothing comes between, the plan is decomposed under its issue, its approval is of the current text, and its rows are its sub-issues in order. |
| Core.Coordinator.ReopenReview | services/gateway/coordinator/core.py:177-197 | Removes the approval and puts the plan in review. |
| Reconciler.ReviewOne | services/gateway/coordinator/matrix.py:538-629 | One workload, with other threads between any two transactions: a failed or refused one breaks its row and fails the plan; an accepted one stores its pull request and waits for the merge, or is merged at once, which completes a plan whose other rows are merged; any other answer leaves the rows. The phase is recorded first. The steps are spelled out; a call that fails ends the pass. |
| Reconciler.PollOne | services/gateway/coordinator/matrix.py:631-653 | One pending merge: done merges the row and completes a plan whose other rows are merged, refused breaks it and fails the plan, anything else, or no id to ask about, leaves the rows, and without other threads the tables. A call that fails ends the pass. |
| Reconciler.ReconcileOnce | services/gateway/coordinator/matrix.py:538-653 | After a pass each active workload's row, and then each pending merge's, is what its answer makes of it, up to the first call that fails; all other rows are as they were; and the pass is a run that is spelled out, so everything proved of runs holds of it. |
| Reconciler.FrontOfQueue | services/gateway/coordinator/luna.py:270-274 | Finds the next deliverable and whether it is the issue that was asked for. |
| Reconciler.CreateWorkload | services/gateway/coordinator/luna.py:267-301 | Every outcome, with other threads between queue, version and Foreman: refused without a change for another issue or a plan not in execution; the owner is asked at a guardrail; given up without a text, its item, or Foreman; otherwise registered unless the row's slot is taken. All of it is a run of the machine. |
| Reconciler.CreatedIsNext | services/gateway/coordinator/luna.py:270-301 | What is created is the next deliverable at its attempt, named after both and the text that was read, with that text's item at the same position; afterwards row, workload and plan say it runs. |
| Reconciler.DispatchPicked | services/gateway/coordinator/luna.py:285-301 | Registers what Foreman created, under the name foreman.py computes, on the tables other threads left, unless the row's slot is taken; a success leaves the row bound and running. |
| Reconciler.RetryWorkload | services/gateway/coordinator/luna.py:302-314 | A refused retry changes nothing; otherwise the failed row is reset, other threads move, and everything goes on as in create_workload for the same issue. |
| Reconciler.RetryIsNextAttempt | services/gateway/coordinator/luna.py:302-314 | What a retry creates is the failed deliverable the issue names, at the attempt after its last and under that attempt's name; other threads cannot put another in its place. |
| Ordering.LessIsFirstDifference | services/gateway/coordinator/state.py:324-336 | Ids are ordered by their first difference, a proper prefix coming first, as SQLite's binary collation orders them. |
| Ordering.FindLeast | services/gateway/coordinator/state.py:324-328 | A scan finds the one row that ORDER BY time, id puts first. |
| Ordering.FirstRows | services/gateway/coordinator/state.py:331-336 | A loop computes ORDER BY time, id LIMIT n. |
| Ordering.SelectIsOrdered | services/gateway/coordinator/state.py:331-336 | The selected rows are strictly in order. |
| Ordering.SelectIsComplete | services/gateway/coordinator/state.py:331-336 | A row is left out only when the page is full and the row comes after all of it. |
| LunaQueue.ClaimIsFresh | services/gateway/coordinator/state.py:338-355 | No turn has the batch id of a fresh claim, because its events would be claimed already; so the insert never meets UNIQUE(batch_id). |
| LunaQueue.EnqueueEffect | services/gateway/coordinator/state.py:277-305 | A new event is stored as it came, with its window; one with a delay moves the window of every waiting event of its plan, and nothing else changes. |
| LunaQueue.ClaimTakesTheFirstPage | services/gateway/coordinator/state.py:324-336 | A new batch is of the plan of the ready event whose window closed first: at most 100 of that plan's ready events in order of arrival, and one is left out only when the page is full and it came after all of it. |
| LunaQueue.DueTurnsComeFirst | services/gateway/coordinator/state.py:311-322 | While a turn is due, the first one by sequence is run again, with its attempt counted, and nothing else changes. |
| LunaQueue.FailEffect | services/gateway/coordinator/state.py:392-421 | A failed run puts the turn back for 15, 30, 60 or 120 seconds; the fifth retires it and asks the owner of a plan that is not over; nothing else changes. |
| LunaQueue.EveryEventInOnePlace | services/gateway/coordinator/state.py:277-421 | In every reachable state an accepted event is in exactly one place: unclaimed, in a pending or running turn, in a failed turn, or processed. |
| LunaQueue.HeldOnce | services/gateway/coordinator/state.py:337-358 | No event is in two turns, or twice in one. |
| LunaQueue.InputsAreFrozen | services/gateway/coordinator/state.py:307-421 | Over any continuation with crashes: an event keeps its content and, once written, its batch id and its mark; a turn keeps its plan, batch and stored input. |
| LunaQueue.ClaimHandsOutStoredInput | services/gateway/coordinator/state.py:311-358 | What a claim hands out, first run or replay, is the stored input, and its elements are exactly the events with its batch id, word for word. |
| LunaQueue.FinishMarksItsInput | services/gateway/coordinator/state.py:371-386 | Finishing a running turn marks exactly the events of its stored input, none of which was marked before. |
| LunaHistory.RetryIsBounded | services/gateway/coordinator/state.py:392-421 | Over any history with crashes a turn runs at most 5 times, all runs together at most 5 per accepted event, and run k+1 starts no sooner than 15 * 2^(k-1) seconds after failure k. |
| LunaHistory.BackoffIsGap | services/gateway/coordinator/state.py:415 | The cap of 300 seconds never applies: a turn that is tried again waits exactly 15 * 2^(k-1) seconds. |
| LunaHistory.NoMoreTurnsThanEvents | services/gateway/coordinator/state.py:331-358 | There are never more turns than accepted events. |
| LunaHistory.OnlyExhaustionMovesPlans | services/gateway/coordinator/state.py:399-413 | Apart from direct state writes, a plan's state changes only when its turn fails after its fifth run, only to needs_input, and never from a terminal state. |
| LunaWindow.ClaimWaitsForWindow | services/gateway/coordinator/state.py:296-336 | A newly claimed event belongs to the plan of the new turn, and its window, closed by the last delaying arrival of that plan since its own, has passed; so a zero-delay arrival sweeps in nothing that still waits. |
| LunaWindow.ClaimIsQuiet | services/gateway/coordinator/state.py:288-305 | With a fixed window, every delaying event of the plan accepted from the claimed event's arrival on was accepted at least a window before the claim. |
| LunaWindow.NothingDueIsOverlooked | services/gateway/coordinator/state.py:307-330 | A claim comes back empty exactly when no pending turn is due and the window of every waiting event is still open. |
| LunaCoordinator.ReconcileOnce | services/gateway/coordinator/luna.py:441-490 | Nothing without a claim. Otherwise Luna is called exactly when the claimed turn's plan, looked at after other threads moved, is in a coordinated state with fewer complete turns than the cap, and for that plan. The turn is left complete after an answer or at the cap, skipped, queued or retired after an exception, or running if the process died; no other turn changes, and only a complete one counts. |
| LunaCoordinator.AnswersAreCapped | services/gateway/coordinator/luna.py:456-480 | Over any sequence of passes from the start, with other threads in and between them, Luna answers for one plan at most as often as the cap. |
| LunaStoreModel.LunaStore.EnqueueCoordinatorEvent | services/gateway/coordinator/state.py:277-305 | Makes exactly the change of its specification and tells whether the event was new; a repeated id changes nothing. |
| LunaStoreModel.LunaStore.NextLunaBatch | services/gateway/coordinator/state.py:307-358 | Makes exactly the change of its specification and returns the turn's stored input. |
| LunaStoreModel.LunaStore.FinishLunaTurn | services/gateway/coordinator/state.py:360-390 | Makes the turn complete, or skipped when it was, and marks its events; an unknown turn is an error that changes nothing. |
| LunaStoreModel.LunaStore.FailLunaTurn | services/gateway/coordinator/state.py:392-421 | Schedules the next run with the capped doubling delay, or retires the turn after its fifth run; an unknown turn changes nothing. |
| Outbox.AtMostOneEvent | kubernetes/apps/home-infra/matrix-coordinator/app/cogito_bot.py:105-179 | Two room events of one notification are one fallback and one not, and only after the server refused it for an unknown event; so never more than two, and otherwise never more than one, though requests arrive late, twice or never and bots stop anywhere. |
| Outbox.FallbackCanDuplicate | kubernetes/apps/home-infra/matrix-coordinator/app/cogito_bot.py:160-172 | A concrete run in which the fallback is posted but not acknowledged and the next poll posts the message itself: after a refusal two room events do occur. |
| Outbox.SentEventIsOwn | services/gateway/coordinator/state.py:1131-1135 | The stored event id of a message or edit is that of an event sent for it, in its room, by its sender; that of a pin is the event it pins. |
| Outbox.WrittenOnce | services/gateway/coordinator/state.py:1012-1028 | From any state on, a row keeps what it was enqueued with, its event id is never overwritten, and no event leaves the history. |
| Outbox.ReferencesComeFirst | services/gateway/coordinator/state.py:1086-1105 | The thread parent or edit target that a room event takes from the outbox is the event its own notification was sent as, strictly earlier in the history. |
| Outbox.StepKeeps | kubernetes/apps/home-infra/matrix-coordinator/app/cogito_bot.py:105-179 | Each step of the gateway, a bot, the network or the server keeps the invariant behind these results. |
| OutboxStoreModel.OutboxStore.EnqueueMatrix | services/gateway/coordinator/state.py:1012-1028 | Stores a notification once; a repeated id is ignored. |
| OutboxStoreModel.OutboxStore.PendingMatrix | services/gateway/coordinator/state.py:1086-1105 | Hands out rows of the sender that were not sent while what they refer to was, in order of queueing, with their references resolved; one is left out only of a full page, and then comes after all of it. |
| Outbox.SentIsOver | services/gateway/coordinator/state.py:1100 | An acknowledged row is in no later poll of any continuation. |
| OutboxStoreModel.OutboxStore.CompleteMatrix | services/gateway/coordinator/state.py:1131-1135 | Writes the event id of a pending row only, and tells whether it did. |
| MatrixBot.Patiently | kubernetes/apps/home-infra/matrix-coordinator/app/cogito_bot.py:185-207 | Returns the first answer that is not a rate limit, or the ninth answer; it waits the sum of the waits of the refused tries, each at most a minute. |
| MatrixBot.WaitsAsTold | kubernetes/apps/home-infra/matrix-coordinator/app/cogito_bot.py:185-207 | A wait is longer than the server asked for, or doubles from one second, and is never more than a minute. |
| MatrixBot.SetPinned | kubernetes/apps/home-infra/matrix-coordinator/app/cogito_bot.py:81-103 | Writes the pin list with one copy added at the end or the first copy removed, and nothing when that would not change it. |
| MatrixBot.PinListIsRight | kubernetes/apps/home-infra/matrix-coordinator/app/cogito_bot.py:94-103 | Every other pin keeps its count, a pinned event is in the list, and an unpinned one is gone exactly when it was listed at most once. |
| MatrixBot.UnpinUndoesPin | kubernetes/apps/home-infra/matrix-coordinator/app/cogito_bot.py:94-103 | Pinning a new event and unpinning it restores the list, order included. |
| MatrixBot.DeliverItem | kubernetes/apps/home-infra/matrix-coordinator/app/cogito_bot.py:120-178 | One notification is a run of the protocol; afterwards the bot goes on with the next or has dropped the poll, and a message or edit it went past is recorded as sent. |
| MatrixBot.DeliverOutbox | kubernetes/apps/home-infra/matrix-coordinator/app/cogito_bot.py:105-179 | One turn of the loop is a run of the protocol, with the rest of the system acting in between. It gets to the end when every notification is accepted, as itself or as its fallback, and acknowledged; it does not when one is not; at the end everything the poll returned but failed pins is recorded as sent. |
| Shards.VerifyShard | scripts/llm/verify_model_shards.py:38-98 | For every size, chunk, number of workers, interrupted copy and order in which reads finish: accepted exactly when the size is right and the digest of kept prefix plus source is the one asked for; the copy is then that stream, and its own check never fails. |
| Shards.AllChunksJoin | scripts/llm/verify_model_shards.py:74-91 | The chunks in order, joined, are the file: every byte once. |
| Shards.Reader.Read | scripts/llm/verify_model_shards.py:67-73 | Returns the chunk of the stream; inside the kept prefix it reads the local copy and never past the prefix. |
| Shards.Reader.Progress | scripts/llm/verify_model_shards.py:76-89 | Whichever reads finish, the window stays the next chunks in order, at most one for each worker. |
| Shards.Reader.TakeFirst | scripts/llm/verify_model_shards.py:82-86 | Takes the oldest read, hashes it next in file order and writes it to the copy unless the copy had it. |
| Shards.Reader.ReadAll | scripts/llm/verify_model_shards.py:74-91 | What was hashed is the sequence of all chunks in order, and the copy is the whole stream. |
| Shards.KeptPrefix | scripts/llm/verify_model_shards.py:57-63 | The kept prefix is within the file and within the interrupted copy, and empty without a copy. |
| Shards.KeepsWholeChunks | scripts/llm/verify_model_shards.py:57-63 | A resumed copy keeps as many whole chunks as both it and the file have, not one fewer; otherwise nothing is kept. |
| Shards.SourcePrefixIsUnread | scripts/llm/verify_model_shards.py:66-73 | On a resumed copy the verdict does not depend on the source's own prefix; an accepted stream is the source exactly when the two agree on that prefix. |
| Download.PlanJobs | plans/llm/artifacts/2026-10-05-flashnext-public-comparison/implementation/iq3-download.py:21-22 | Lists first and last byte of every range that is not recorded, in order of the file. |
| Download.RangesTile | plans/llm/artifacts/2026-10-05-flashnext-public-comparison/implementation/iq3-download.py:21-22 | Every byte of the file is in exactly one range. |
| Download.ReceiveBody | plans/llm/artifacts/2026-10-05-flashnext-public-comparison/implementation/iq3-download.py:31-35 | Writes as much of the range as the body has; nothing outside it changes and no right byte becomes wrong. |
| Download.ReceivesAllThatFits | plans/llm/artifacts/2026-10-05-flashnext-public-comparison/implementation/iq3-download.py:31-35 | All the bytes that come are taken, up to the length of the range. |
| Download.Fetch | plans/llm/artifacts/2026-10-05-flashnext-public-comparison/implementation/iq3-download.py:23-43 | At most five attempts, each failure followed by a refresh of the address; success means the whole range is right; it gives up before the fifth attempt exactly when a refresh failed; nothing outside the range changes and no right byte becomes wrong. |
| Download.RecordedRangesAreOnDisk | plans/llm/artifacts/2026-10-05-flashnext-public-comparison/implementation/iq3-download.py:8-47 | Through any crashes and any interleaving of the workers every byte of a recorded range is right in the file and past any later crash. (That a published file is the source is the digest check's doing.) |
| Download.EveryRangeIsAccountedFor | plans/llm/artifacts/2026-10-05-flashnext-public-comparison/implementation/iq3-download.py:13-47 | While the program runs each range, and nothing else, is in exactly one of settled, queued, running and given up; a listed one is running again or given up only after a failure that followed its listing, such as a failed write of the state file; that file has every settled range and only listed ones. |
| Download.CompletionIsComplete | scripts/llm/verify_model_shards.py:44-48 | When every range was fetched, the part file is the source, the recorded offsets are exactly those the verifier demands, and publishing succeeds. |
| Download.DeletedPartNeedsDeletedState | plans/llm/artifacts/2026-10-05-flashnext-public-comparison/implementation/iq3-download.py:14-17 | If the part file is deleted and the state file kept, then after a start that is stopped before recording anything the recorded ranges are on disk exactly when there are none, for a source without an all-zero range, and they are never fetched again. |
| Markdown.CanonicalIsIdempotent | services/gateway/coordinator/models.py:17-20 | Canonicalising twice is canonicalising once; the fixed points are exactly the texts with one final newline, solid ends, no carriage return and no line ending in a space. |
| Markdown.LineEndsDoNotMatter | services/gateway/coordinator/models.py:17-20 | A text and its CR LF and CR forms have the same canonical form. |
| Markdown.TrimLinesKeepsLines | services/gateway/coordinator/models.py:19-20 | Stripping the lines keeps their number and order and takes only trailing spaces from each. |
| Markdown.FirstIndentIsLost | services/gateway/coordinator/models.py:17-20 | A text whose first line is indented by spaces has the same canonical form as without them. |
| PlanIssue.MatchIsGreedy | services/gateway/coordinator/github.py:22 | The marker matcher accepts a position exactly when the pattern, written as a grammar, does, and returns the longest id the grammar allows. |
| PlanIssue.IssueRoundTrip | services/gateway/coordinator/github.py:111-127 | For ids without spaces, reading back the body of a plan issue gives the plan id and the text, character for character. |
| PlanIssue.UneditedIssueAddsNothing | services/gateway/coordinator/core.py:58-73 | An issue nobody edited adds no version and changes nothing, approved or not; it does not get past the guards. |
| PlanIssue.EditChangesIffTextDoes | services/gateway/coordinator/core.py:58-91 | With a digest that tells texts apart and nothing between guards and commit, an edit leaves the tables as they were, without an error, exactly when its canonical text is the current one. |
| PlanIssue.EditStoresItsText | services/gateway/coordinator/core.py:58-91 | An edit that is let in becomes the current version, in review: the canonical text of the issue under the digest of that text. |
| PlanIssue.CrLfIssueIsRefused | services/gateway/coordinator/github.py:120-127 | A plan issue whose line ends are all CR LF is refused as having no body, although its plan text has the same canonical form. |
| Checklist.MatchIsSound | services/gateway/coordinator/github.py:18 | A text the matcher returns is one the pattern allows, with solid ends or a single character. |
| Checklist.MatchIsComplete | services/gateway/coordinator/github.py:18 | Every line the pattern allows is matched. |
| Checklist.ChecklistIsItsLines | services/gateway/coordinator/github.py:50-68 | The items are exactly the matching lines whose last heading above is a checklist's, in order, each with its text and the width of its indent. |
| Checklist.SectionTitles | services/gateway/coordinator/github.py:56-59 | A heading opens a checklist exactly when, but for blanks around it and case, it is one of two titles. |
| Checklist.SplitUndoesJoin | services/gateway/coordinator/github.py:55 | Lines joined with LF or with CR LF are read back as they were. |
| Checklist.DeliverableSpecs | services/gateway/coordinator/github.py:50-74 | The items in order with their texts, each with the last earlier less indented item as parent, so a parent always comes earlier; the default item when there is none; an error exactly above 100. |
| Checklist.Deliverables | services/gateway/coordinator/github.py:33-47 | The texts alone, its own default when there is none, an error exactly above 100. |
| Checklist.ReadersAgreeIff | services/gateway/coordinator/github.py:33-74 | The two readers give the same texts exactly when the checklist has an item. |
| Checklist.BlockedBy | services/gateway/coordinator/github.py:386-400 | Each item is blocked by the previous item with the same parent, if there is one. |
| Checklist.EdgesAreAcyclic | services/gateway/coordinator/github.py:386-400 | Following blockers leads only to earlier siblings, so there is no cycle. |
| Checklist.SiblingsAreChained | services/gateway/coordinator/github.py:386-400 | An item waits, directly or through others, for exactly its earlier siblings. |
| Checklist.DispatchFollowsTheGraph | services/gateway/coordinator/state.py:834-844 | In every reachable state whatever an item waits for, and its parent, is merged before the item is started or can be. |
| SubIssues.CreateDeliverables | services/gateway/coordinator/github.py:350-384 | The sub-issues in the order of the checklist: for each item the first listed issue with its marker, or one made with that item's body; a call that fails stops it. |
| SubIssues.BodyIsForOne | services/gateway/coordinator/github.py:77-85 | A body whose texts have no marker of their own is found for its plan and position alone: position 1 is not found in position 11. |
| SubIssues.RetryReuses | services/gateway/coordinator/github.py:364-373 | A call after one that stopped half way keeps every issue that was listed or made before, so nothing is made twice, if the listing shows them and no marker is in two of them. |
| SubIssues.RowsAreTheSubIssues | services/gateway/coordinator/github.py:384-400 | In every reachable state row k of a plan is for the sub-issue made for item k. |
| Catalogue.FallbackMap | scripts/validate-llm-catalogue.py:146-154 | The map lists exactly the primaries of the tables, each with all its targets in order. |
| Catalogue.Check | scripts/validate-llm-catalogue.py:164-275 | There are no errors exactly when all nine rules hold of the catalogue. |
| Catalogue.CheckEntry | scripts/validate-llm-catalogue.py:185-213 | An entry passes exactly when its service is known and it advertises its backend's window, or less on purpose. |
| Catalogue.ServiceIsFirstLabel | scripts/validate-llm-catalogue.py:157-161 | The service of an apiBase is the first label of its host, whatever the scheme, the domain, the port and the path. |
| Catalogue.ChainsStayInScope | scripts/validate-llm-catalogue.py:237-245 | After a clean check no chain of fallbacks, of any length, leaves the scope of a key or the published names. |
| Catalogue.ChainsAvoidCoordinator | scripts/validate-llm-catalogue.py:216-218 | After a clean check no chain starts at coordinator, and every chain stays among published names. |
| Catalogue.NoWindowExceedsItsBackend | scripts/validate-llm-catalogue.py:195-213 | After a clean check no entry advertises more than its backend's window, and less only when marked. |
| Catalogue.RolesStandAlone | scripts/validate-llm-catalogue.py:253-273 | After a clean check the coder's and the worker's keys differ, each opens its own model alone, and a chain from it leads to no other model. |
| Catalogue.UsedModelsAreServed | scripts/validate-llm-catalogue.py:222-252 | After a clean check consumers name published models, and a model on a preemptible host has its stand-ins on record, published and of a model it has. |
| Catalogue.UniformChainsKeepTheModel | scripts/validate-llm-catalogue.py:227-236 | A whole chain keeps one underlying model when every name on it is served by one. |
| Catalogue.InnerNamesCarryTheModel | scripts/validate-llm-catalogue.py:227-236 | The ends of a chain share a model when every name between them is served by one. |
| Catalogue.SafeMiddleIff | scripts/validate-llm-catalogue.py:227-236 | Two hops over a name end at a model they began with, whatever is published beside it, exactly when its entries have one underlying model. |
| Catalogue.MixedNamesCanCross | scripts/validate-llm-catalogue.py:227-236 | For any two models a catalogue that passes although two hops lead from the one to the other, through a name served by both. |
| Grid.Layout | scripts/llm/build_llm_serving_dashboard.py:509-538 | Packs the panels in place, as the specification places them. |
| Grid.LayoutIsSound | scripts/llm/build_llm_serving_dashboard.py:509-538 | Of any two placed panels: they never overlap, list order is reading order, and a banner has all before it above and all after it below. |
| Grid.LayoutIsTight | scripts/llm/build_llm_serving_dashboard.py:518-537 | A panel goes right of the one before it when it still fits there; otherwise it starts a line that, like a banner, lies directly under what is there so far. This determines the layout. |
| Grid.EachPanelIsInside | scripts/llm/build_llm_serving_dashboard.py:509-538 | Every panel, also a single one, lies inside the 24 columns at its own size; a banner takes a whole line of height 1. |
| Grid.SectionLines | scripts/llm/build_llm_serving_dashboard.py:527-537 | The panels of a section in column 0 are as many as its different heights: one to a line. |
| Grid.SectionIsCompact | scripts/llm/build_llm_serving_dashboard.py:527-537 | A section of total width W has fewer than W/12 + 1 lines, that is different heights. |
| TokenFit.Fit | scripts/llm/flashnext_public_bench.py:53-68 | At most floor(log2 n) + 1 probes; on monotone counts no prefix is closer to the target than the result. The prompt without corpus counts as 0 tokens, as in the code, whatever its real count. |
| TokenFit.FitIsOptimal | scripts/llm/flashnext_public_bench.py:53-68 | That contract fixes the distance: it is the least one. |
| TokenFit.MonotoneIsNeeded | scripts/llm/flashnext_public_bench.py:53-68 | Counts on which the search misses an exact length, because they are not monotone. |

## Left out

- Planning: intake and research rounds, the planner conversation, transcripts, redaction, metrics text, Matrix room upkeep.
- `!cogito revise` and the other direct writes of a planning state to an approved plan, and the late commits and resumes
  of the runs above: the pin does not survive them, and the runs of the approval results exclude exactly those.
- Crash recovery inside approve after the decomposed write, and re-approval with a different number of deliverables.
- HTTP, SQLite, HMAC checks and the GitHub, Foreman and LiteLLM clients: their answers are parameters. The reconciler takes
  the merge candidate as one of them; MergeGate says what it is.
- The order in which active_workloads and pending_merges list their rows: the results hold for every order.
- The one in-process fallback path `_dispatch_next`, which nothing calls.
- SubIssues.RetryReuses: it asks for a listing that shows the earlier issues; github.py reads one page of 100.
- Titles of sub-issues, their parent links, and whether a listed one is brought up to date.
- JSON texts, payload truncation, error texts, progress and token counters, and Luna's tools other than creating and
  retrying workloads.
- One table object is split by table group into three classes; no transaction of the gateway spans two of them but for
  the plan state a failed Luna turn writes, which is modelled in both.
- A Luna turn that was running when the gateway crashed stays running: the code resets it only on a schema migration.
- Whether the pinned card shows the latest state: edits are keyed by their text and ignored when repeated.
- The room's own state after a pin request: the protocol only records that the bot was told it worked.
- Case folding beyond ASCII in section titles and plan ids.
- The float division behind the number of chunks: the model divides exactly, which is the same below 2^53 bytes.
- The disk-space check of the verifier, several model files in one run, and response bodies longer than their range.
- Collisions of the shortened batch digest: the table would refuse the second batch.
- Outbox rows with an unknown sender or action kind: types rule them out, enqueue_matrix refuses them.
- The verifier's choice between a finished file and a part file with recorded offsets: Download proves what it demands of them.
- How a server counts tokens: the count is any function of the prefix length.
- The warnings of the catalogue check, and rendering and parsing of the manifests it reads.
- LunaWindow.ClaimIsQuiet: it asks for one fixed window, as the gateway uses; ClaimWaitsForWindow has no such condition.
  Both stamp an event or a claim when its transaction commits; the gateway reads the clock before it waits for the
  transaction lock (state.py:281, 309), so real stamps can be older by that wait.
- MatrixBot.DeliverOutbox: a message refused for an unknown event although the server already has its transaction counts as
  accepted, so an answer of that kind with a fallback that also fails is in neither of its two conditions.
- Progress.NoDeadEnd: for a head that is running or being merged it asks that the plan is running: the merge itself comes
  through in other states, but the next deliverable then waits for the owner.
- Correspondence.RetriesGetNewNames: for runs shorter than 10^22 steps, because longer attempt numbers are truncated.
