# Versioned travel sessions: model and proofs

This project models the backend of a voice travel assistant and proves what it keeps whatever happens concurrently.
One session has a context version, a preference history, a conversation, planned tasks with their tool calls, a chain
of itinerary versions and an outbox of numbered events.  API handlers, agent workers, task workers and outbox
publishers run transactions on these rows, while Redis streams redeliver and reorder messages and lose cancel marks.

Check it with `dafny verify dfyconfig.toml`.

## How it is built

- `Rows`: the tables and their unique constraints.  `Transactions`: every transaction that holds the session row lock,
  as a function from the database to the database.  `SessionStore`: the same transactions as the source writes them,
  statement by statement on fields that are assigned in place, each proved equal to its function, rollback included.
  `ConstraintSteps`: no transaction breaks a constraint, on any database.
- `History`: the event log alone.  `Apply` folds one event, `Allowed` says which event may come next, and every legal
  log is proved sound.  `Refinement`: the tables are the fold of a legal log.  `TaskSteps`, `InterruptSteps` and
  `ReplySteps` prove that each transaction keeps this.
- `Runs`: whole runs.  A locked transaction is one step; a dedupe check, each read of a cancel mark, the reads of
  a conflict answer and the building of a packet are steps of their own; a crash or an exception may come anywhere.
  `RunInvariant` and `RunSafety` prove one invariant for every run.
- `LogTheorems`, `Theorems`, `ReplyTheorems`, `ReplyContents` and `CommandTheorems` read the promises off the
  invariant.  `CommandOutcomes` and `WorkOutcomes` say what each step of a client request, an agent worker and a task
  worker does in a reachable state: what it changes, exactly when, and what it answers, in terms of the tables.
- `FinalStatuses` says exactly when a terminal task status is final, and `Answers` exactly when a turn can still be
  answered.  `LateResult` is one run in full.  `Cancellation` ties the writing and reading of cancel marks to the steps
  of a run.  `OutsideWriter` covers databases that something else has written to.
- `Outbox`, `Publishers`, `EventFeed`, `Realtime`, `RateLimit`, `InputValidation`: the other protocols and bounds, each
  on its own state.

## Where the code is not what is promised for it

- `docs/LivePilotInstruction.md:438` says that a terminal task status cannot be left.  The code leaves `cancelled` for
  `discarded`; `LateResult.CancelledCanBecomeDiscarded` is such a run.  In a reachable state a terminal status is final
  if and only if the task has no live runner that may still commit, that is, none that is neither cancelling the task
  nor in the failure handler (`FinalStatuses.FinalIff`).  The step that leaves it is that runner's commit and no other
  (`FinalStatuses.TerminalLeftIff`).  The retries and timeouts of that passage are not in the code, so a
  turn whose task has failed, or has lost its worker while running, is never answered in its context:
  `Answers.AnsweredIff` gives the exact condition.
- The publisher raises its `published` counter inside the marking transaction, before its commit.  A commit that fails
  is therefore counted as published and as failed (`Outbox.FailedCommitIsCountedTwice`), unless another publisher has
  marked the row: then it is counted as failed only, and a row found marked without a fault is not counted at all.
  `published + failed` stays within `attempted` if and only if no more commits failed than rows were found marked by
  another publisher (`Outbox.CountersAddUp` for a whole pass, `Publishers.CountersAddUp` at every point of a pass).
- The four-way discard test at a task's commit is redundant: in every run it says no more than "the context version
  has moved on" (`Theorems.CancellationIsStaleness`).  So is the preference half of the currency test
  (`CommandTheorems.ContextDecidesCurrency`).  The itinerary-conflict branch is never taken
  (`ReplyTheorems.ConflictsAreUnreachable`).
- A span of k limiter windows admits one request less than the (k + 1) * limit that the window scheme suggests, and
  `RateLimit.SpanBoundIsTight` shows that no smaller bound holds.

## Assumptions

- A row returned by `select ... for update` is the current row (`backend/app/worker.py:84-86`); the earlier `get` at
  line 74 is not taken as authoritative.
- SHA-256 task keys and request hashes are injective in what they hash.  Realtime tokens do not repeat where a lemma
  says so (`DrawsAreFresh`).
- Identifiers that a step draws, and the order in which a query without ORDER BY returns its rows, are parameters.
- (session, event_seq) and (session, sequence_no) are not checked again where the value is one more than the largest in
  use; `ConstraintSteps` proves that they hold.
- The session exists.  Preference values are kept as their text, and as "" when they are falsy.  Tool outputs are
  arbitrary.  A cancel mark is written only for a task that an accepted interrupt lists.

## Model

| member | source | states |
|---|---|---|
| Theorems.EventLogRefinement | backend/app/worker.py:41-70 | in every reachable state event numbers are exactly 1..last_event_seq under distinct dedupe keys, both versions are counts of events, and each task has the status of its last lifecycle event, so the "already exists" skip hides no change |
| Theorems.FeedsTheLog | backend/app/main.py:480-491 | what a snapshot reads of any run: events numbered from one without gaps, last_event_seq of them, and never fewer or others later |
| Theorems.FreshEvents | backend/app/agent/service.py:303-312 | every event of every run carries the versions that the events before it add up to |
| LogTheorems.Freshness | backend/app/worker.py:300-355 | the same for any legal log: what is queued, succeeds, is confirmed or replied carries the context of its log prefix |
| LogTheorems.FoldCounts | backend/app/main.py:655-738 | context version = number of finalized turns, patches and interrupts; preference version = 1 + number of patches |
| LogTheorems.FoldStatus | backend/app/worker.py:207-271 | the folded status is that of the last lifecycle event, and the moves of a task are no more than its rank |
| LogTheorems.FourMoves | backend/app/worker.py:207-414 | no task changes its status more than four times |
| LogTheorems.InterruptSafety | backend/app/interrupts.py:79-139 | after an accepted interrupt the log shows no queueing, running, success, confirmation or reply for its turn |
| LogTheorems.FinalEvent | backend/app/worker.py:363-393 | no event follows that moves a task out of succeeded, failed or discarded |
| History.LegalIsSound | backend/app/agent/service.py:64-562 | every legal log folds to a gap-free conversation, at most two tasks per turn with different targets, and a chain of versions built from succeeded tasks |
| Theorems.LogGrows | backend/app/interrupts.py:20-38 | later logs extend earlier ones, over any further steps |
| Theorems.TasksOnlyRise | backend/app/worker.py:305-337 | over any further steps a status only rises in rank, final statuses stay, and cancelled can only become discarded |
| Theorems.SingleRunner | backend/app/worker.py:207-232 | under any redelivery a task is claimed at most once, has at most one live runner, and has moved at most as often as its rank |
| Theorems.CallsAgreeWithTasks | backend/app/worker.py:251-271 | a task has at most one tool call, on its own input; the call succeeded, failed or was discarded exactly when the task did, with its result, and is cancelled only when the task is |
| Theorems.PacketsDifferOnlyInTarget | backend/app/outbox.py:47-66 | however often the plan message of a turn is rebuilt, only the itinerary version it aims at may differ |
| Theorems.RedeliveryBound | backend/app/agent/service.py:314-344 | however often plan messages are rebuilt and delivered, a turn has at most one task before its reply and two in all |
| Theorems.CancellationIsStaleness | backend/app/worker.py:293-311 | at commit the four-way test holds exactly when the session has moved on, and the outcome does not depend on what the cancel marks showed |
| Theorems.InterruptedTurnIsOver | backend/app/interrupts.py:79-139 | once an interrupt is accepted its turn is interrupted for good, none of its tasks is queued or running, and no later row shows work on it |
| ReplyTheorems.NoLostReply | backend/app/agent/service.py:402-455 | while the session stands at the version of a succeeded task without a reply, composing succeeds and builds the reply from that task and its result alone |
| ReplyTheorems.ComposeIsIdempotent | backend/app/agent/service.py:392-400 | once there is a reply, every further compose of its turn changes nothing and answers with what the reply turn holds |
| ReplyTheorems.ConflictsAreUnreachable | backend/app/agent/worker.py:77-95 | no compose of any run ends in an itinerary conflict |
| ReplyTheorems.ConversationShape | backend/app/agent/service.py:529-546 | positions are exactly 1..n, user turns have increasing contexts, a reply directly follows its parent in its context, and no turn has two |
| ReplyTheorems.ItineraryChain | backend/app/agent/service.py:476-519 | versions are exactly 1..n, only n is confirmed, contexts increase, and each version has succeeded sources aimed at the one before |
| ReplyTheorems.VersionHolds | backend/app/agent/service.py:247-273 | an itinerary has one source task and lists exactly what its succeeded tool call recommended, entry by entry in order, with the two defaults and the destination of its preference |
| ReplyTheorems.ItemsCiteCalls | backend/app/agent/service.py:253-267 | an item is in the content if and only if a listed call recommended it, with the two defaults |
| ReplyContents.TaskAsksForItsPreference | backend/app/agent/service.py:212-227 | every task asks for the destination of the preference version it was planned on, or for the default when that names none, with the text of its turn as query |
| ReplyContents.ReplyTellsItsVersion | backend/app/agent/service.py:476-528 | every reply is about one version of its context, made from the same task; its message names that version's destination, which is the preference's or the default, and its result is the task's |
| ReplyTheorems.SourcesStaySucceeded | backend/app/agent/service.py:498-498 | the source tasks of a confirmed version stay succeeded over any further steps |
| CommandTheorems.TakesEffectOnce | backend/app/agent/service.py:74-92 | a command's transaction takes effect only under a key nobody used, and otherwise changes nothing and accepts nothing |
| CommandTheorems.SameKeySameAnswer | backend/app/interrupts.py:55-69 | all accepted answers for one client event id are equal and tell of the only row with its key |
| CommandOutcomes.RepeatedCommandIsAnswered | backend/app/agent/service.py:74-85 | a command whose client event id was used is answered, field by field, with what the one row of the log under it tells; any other goes on |
| CommandOutcomes.SecondCheckAnswers | backend/app/main.py:683-695 | so is a patch that missed, at its second check; any other goes on to its conflict |
| CommandOutcomes.ConflictIsTold | backend/app/main.py:671-695 | a conflict tells the context version read after the miss and the preference active when it is read |
| CommandOutcomes.FinalizeIsExecuted | backend/app/agent/service.py:87-142 | in a reachable state a finalize under an unused event id and turn id adds exactly its turn, context and event and is told so; any other is refused |
| CommandOutcomes.PatchIsExecuted | backend/app/main.py:655-738 | a patch of the current context adds exactly the next preference version, with its payload and source turn, and is told so; the refusals and the miss have their exact conditions |
| CommandOutcomes.InterruptIsExecuted | backend/app/interrupts.py:71-146 | an interrupt of a current turn asks exactly its queued and running tasks to cancel, with one event each and its own at the end, and is told so; the refusals have their exact conditions |
| CommandTheorems.FinalizeWrites | backend/app/agent/service.py:104-142 | a finalized turn is the user's text at the end of the conversation, in a new context, with one new event and nothing else |
| CommandTheorems.InterruptCancelsItsWork | backend/app/interrupts.py:89-139 | an interrupt cancels exactly the queued and running tasks of its turn, whatever their context, and changes no other task |
| CommandTheorems.FinalizeRefused | backend/app/agent/service.py:87-142 | a finalize is refused exactly for a taken client event id or turn id |
| CommandTheorems.PatchRefused | backend/app/main.py:697-738 | a current patch is refused exactly for its source turn or a taken client event id |
| CommandTheorems.InterruptRefused | backend/app/interrupts.py:79-139 | an interrupt is refused exactly for a foreign or outdated turn or a taken client event id |
| CommandTheorems.ClaimRefused | backend/app/worker.py:251-271 | the claim of a queued task fails only when the drawn tool-call id is taken |
| CommandTheorems.ComposeRefused | backend/app/agent/service.py:501-546 | a compose fails only when it builds and the drawn turn id is taken |
| CommandTheorems.PreferenceChain | backend/app/main.py:716-726 | preference versions are exactly 1..n with n active, and each payload is the initial one overlaid by the accepted patches in order |
| CommandTheorems.LastPatchWins | backend/app/main.py:722-722 | in an overlay a key has the value of the last patch that names it |
| CommandTheorems.PreferencesFollowContext | backend/app/main.py:655-738 | over any further steps the context version never falls, and while it stands still every preference row stays as it is |
| CommandTheorems.ContextDecidesCurrency | backend/app/worker.py:90-105 | a task is current exactly when its context version is the session's |
| OutsideWriter.NeverOverwrites | backend/app/agent/service.py:443-484 | on any database composing leaves the itineraries alone or replaces just the version that all its sources aimed at |
| OutsideWriter.BuildsFromSucceeded | backend/app/agent/service.py:382-443 | on any database a reply is built exactly when the context is current, there is no reply, and the succeeded tasks of the turn have one target and as many succeeded calls, on the active preference |
| OutsideWriter.ConflictDiscards | backend/app/agent/service.py:455-474 | on any database a conflict is reported exactly when the confirmed version is not the target, and discards just the tasks, with one event each |
| OutsideWriter.VerdictOnAnyDatabase | backend/app/worker.py:299-355 | on any database a result is discarded exactly when a mark was seen, the task was cancelled or asked to, or the session has left its context or preference |
| OutsideWriter.ElsewhereWins | backend/app/agent/service.py:443-474 | a version confirmed elsewhere between success and reply is kept, and the one task is discarded |
| OutsideWriter.ReplanAimsElsewhere | backend/app/agent/worker.py:82-94 | the packet rebuilt after that aims at the version confirmed elsewhere and is current, and planning it makes one new queued task on its versions, destination and text, or is refused exactly for a text out of bounds or a taken identifier |
| WorkOutcomes.TurnIsPublished | backend/app/outbox.py:47-66 | a plan message holds the versions of its event, the payload and the text under them, and the version confirmed by now |
| WorkOutcomes.PlanIsCarriedOut | backend/app/agent/service.py:284-364 | a plan message adds exactly its task if and only if its context and itinerary are current, the turn has no such task, its texts are within the limits and the identifier is free; otherwise nothing changes |
| WorkOutcomes.InputFits | backend/app/agent/service.py:314-315 | a task input is accepted if and only if its two texts, three keys and one level are within the limits |
| WorkOutcomes.ClaimIsCarriedOut | backend/app/worker.py:207-271 | a task message starts a runner and a tool call for a queued task, settles a request to cancel, and otherwise does nothing |
| WorkOutcomes.ExecutionIsChecked | backend/app/worker.py:108-114 | a runner starts its tool exactly when it reads a row that is not asked to cancel, and gives up exactly when it sees its mark or reads one that is |
| WorkOutcomes.ResultIsRechecked | backend/app/worker.py:293-311 | a result comes to its commit exactly through a second look, at the mark and then at the row, and the runner takes along the output and what it saw |
| WorkOutcomes.MarkIsCarriedOut | backend/app/worker.py:116-151 | a runner that gives up cancels its task and tool call, if the task is still asked to cancel |
| WorkOutcomes.CommitIsCarriedOut | backend/app/worker.py:293-355 | a commit leaves the task succeeded if and only if its context is the session's, else discarded, with result, tool call and event to match |
| WorkOutcomes.FailIsCarriedOut | backend/app/worker.py:360-414 | the handler fails a running task and its call, cancels one asked to cancel, and changes no other |
| WorkOutcomes.ComposeIsCarriedOut | backend/app/agent/service.py:367-562 | a compose message writes exactly the next version and the reply, field by field, if and only if its turn has a result in the session's context and no reply; otherwise nothing changes |
| OutsideWriter.ReplanIsCarriedOut | backend/app/agent/worker.py:82-88 | after a conflict the packet is built anew from the active preference and the version confirmed by then |
| Answers.AnsweredIff | backend/app/worker.py:207-232 | some run answers a turn of the current context if and only if it has its reply, its task has succeeded, is queued, or runs under a live runner that may still commit, or it has no task and its texts are within the limits |
| FinalStatuses.TerminalLeftIff | backend/app/worker.py:294-337 | a step changes the status of a terminal task if and only if it is the commit of the task's own runner, and then from cancelled to discarded |
| FinalStatuses.FinalIff | backend/app/worker.py:201-414 | a terminal status stays over all further steps if and only if no runner of the task may still commit |
| FinalStatuses.CancelledDiscardedIff | backend/app/worker.py:305-337 | some run discards a cancelled task if and only if it has a runner that may still commit |
| LateResult.CancelledCanBecomeDiscarded | backend/app/worker.py:212-226 | some run leaves cancelled for discarded: a redelivered message cancels the task that its first runner still executes |
| RunSafety.RunsAreSafe | backend/app/worker.py:201-414 | the world invariant (tables are the fold of a legal log, one runner per task, marks only on stale tasks, honest packets) holds after every run |
| RunSafety.FinalizedTurnStays | backend/app/outbox.py:47-66 | what a finalized-turn event says about its turn stays true, so a plan packet can be built from it at any time |
| RunSafety.CommittedRunnerOk | backend/app/worker.py:294-359 | after a runner's commit its task is succeeded or discarded, so an exception after that finds nothing to fail |
| TaskSteps.DiscardIsStaleness | backend/app/worker.py:305-310 | none of the reasons to discard can hold of a current task, on any database that satisfies the invariant |
| TaskSteps.CreateOneKeeps | backend/app/agent/service.py:314-363 | planning keeps the tables the fold of a legal log |
| TaskSteps.ClaimTaskKeeps | backend/app/worker.py:207-271 | claiming keeps it and touches one task |
| TaskSteps.MarkCancelledKeeps | backend/app/worker.py:116-151 | cancelling before execution keeps it and touches one task |
| TaskSteps.CommitResultKeeps | backend/app/worker.py:294-355 | committing keeps it, and the result is accepted exactly when the task's context is the session's |
| TaskSteps.FailTaskKeeps | backend/app/worker.py:363-414 | the exception handler keeps it and touches one task |
| InterruptSteps.RegisterInterruptKeeps | backend/app/interrupts.py:71-146 | an interrupt keeps it and leaves no queued or running task of its turn |
| ReplySteps.PlanIsBuild | backend/app/agent/service.py:402-441 | with one task of the current turn succeeded the guards on targets and call count let the reply through |
| ReplySteps.ComposeReplyKeeps | backend/app/agent/service.py:367-562 | composing keeps the tables the fold of a legal log |
| Refinement.FinalizeTurnKeeps | backend/app/agent/service.py:64-142 | finalizing keeps it |
| Refinement.UpdatePreferenceKeeps | backend/app/main.py:655-738 | patching keeps it |
| ConstraintSteps.FinalizeTurnConstraints | backend/app/models.py:198-198 | a committed finalize breaks no unique constraint, on any database |
| ConstraintSteps.UpdatePreferenceConstraints | backend/app/models.py:259-267 | nor does a patch: one preference stays active |
| ConstraintSteps.RegisterInterruptConstraints | backend/app/models.py:311-314 | nor does an interrupt with all its events |
| ConstraintSteps.CreateAllConstraints | backend/app/models.py:107-107 | nor does planning any number of tasks |
| ConstraintSteps.ClaimTaskConstraints | backend/app/models.py:362-362 | nor does a claim with its tool call |
| ConstraintSteps.CommitResultConstraints | backend/app/worker.py:294-355 | nor does the commit of a result |
| ConstraintSteps.FailTaskConstraints | backend/app/worker.py:363-414 | nor does the exception handler |
| ConstraintSteps.ComposeReplyConstraints | backend/app/models.py:409-417 | nor does a reply: one itinerary stays confirmed |
| SessionStore.SessionStore.constructor | backend/app/main.py:395-426 | a new session is at context 0 with preference 1 active and event 1 written |
| SessionStore.SessionStore.FinalizeTextTurn | backend/app/agent/service.py:87-142 | its statements leave exactly the database of the specified transaction, or the old one when it raises |
| SessionStore.SessionStore.UpdatePreferences | backend/app/main.py:655-738 | likewise for the guarded update; a version that does not match changes nothing |
| SessionStore.SessionStore.RegisterInterrupt | backend/app/interrupts.py:71-146 | likewise for the interrupt |
| SessionStore.SessionStore.RequestCancellations | backend/app/interrupts.py:107-122 | the loop asks every listed task to cancel, in order with one event each, unless a key is taken |
| SessionStore.SessionStore.CreateTasksForDecision | backend/app/agent/service.py:284-364 | likewise for planning; a plan that raises undoes the plans before it |
| SessionStore.SessionStore.CreateTask | backend/app/agent/service.py:314-363 | one plan brings back the task with its key or inserts one |
| SessionStore.SessionStore.Claim | backend/app/worker.py:207-271 | likewise for the claim |
| SessionStore.SessionStore.CancelOpenToolCalls | backend/app/worker.py:125-139 | the loop cancels exactly the pending and running calls of the task |
| SessionStore.SessionStore.MarkTaskCancelled | backend/app/worker.py:116-151 | likewise for the cancellation |
| SessionStore.SessionStore.FinishToolCall | backend/app/worker.py:159-182 | only the named call changes, in status and output |
| SessionStore.SessionStore.CommitTaskResult | backend/app/worker.py:294-355 | likewise for the commit of a result |
| SessionStore.SessionStore.HandleFailure | backend/app/worker.py:363-414 | likewise for the exception handler |
| SessionStore.SessionStore.AppendTaskEvent | backend/app/worker.py:41-70 | an event is appended with the next number unless its key is there |
| SessionStore.SessionStore.NextSequenceNo | backend/app/agent/service.py:104-108 | one more than the largest position in use |
| SessionStore.SessionStore.BuildItineraryContent | backend/app/agent/service.py:247-273 | the nested loops compute the content that ItemsCiteCalls characterizes |
| SessionStore.SessionStore.ItemsOf | backend/app/agent/service.py:258-267 | the inner loop keeps the object entries in order |
| SessionStore.SessionStore.DiscardTasks | backend/app/agent/service.py:456-473 | the conflict loop discards the listed tasks in order with one event each, unless a key is taken |
| SessionStore.SessionStore.ComposeReply | backend/app/agent/service.py:375-562 | likewise for the compose, with every early return |
| SessionStore.SessionStore.ConfirmItineraryAndReply | backend/app/agent/service.py:476-562 | the new version and the reply are written together or not at all |
| SessionStore.SessionStore.BuildContextPacket | backend/app/agent/service.py:145-209 | the packet holds the turn's text, the asked or active preference, and the confirmed version |
| SessionStore.SessionStore.ProcessComposeMessage | backend/app/agent/worker.py:61-95 | done exactly when there is a reply; after a conflict the turn is planned anew on what the conflict and any other transactions left |
| Cancellation.CancelMarks.WriteTaskCancelKeys | backend/app/cancellation.py:17-30 | exactly the ids whose write did not fail are added |
| Cancellation.WritesAreSteps | backend/app/main.py:239-244 | writing the marks of an accepted interrupt, with any failures, is a run of steps that changes the marks and nothing else |
| Cancellation.ReadsAreSteps | backend/app/cancellation.py:33-43 | what a runner can be told in a run is exactly what some read of the marks returns, failing or not |
| Cancellation.MarksAreHonest | backend/app/cancellation.py:17-43 | a task with a mark was cancelled by an accepted interrupt, and over any further steps it never runs, succeeds or fails |
| Outbox.Publisher.PublishPendingEvents | backend/app/outbox.py:127-177 | a pass publishes the oldest pending rows up to the limit, marks those that met no fault or that another publisher took, counts as specified, and keeps published rows delivered |
| Outbox.Publisher.PublishEvent | backend/app/outbox.py:108-124 | success means that the session event and the message the row calls for are in the streams |
| Outbox.CountersAddUp | backend/app/outbox.py:153-177 | published + failed + rows others marked first is attempted + failed commits; published + failed stays within attempted exactly when the failed commits are no more than the rows others marked |
| Outbox.FailedCommitIsCountedTwice | backend/app/outbox.py:159-170 | one row whose commit fails is reported published and failed, and is still pending |
| Outbox.PassTakesFront | backend/app/outbox.py:142-151 | an undisturbed pass takes its batch off the front of the pending rows |
| Outbox.DrainsInCeilPasses | backend/app/outbox.py:127-177 | k pending rows are drained by n undisturbed passes exactly when n >= ceil(k / limit) |
| Publishers.PublishedIsDelivered | backend/app/outbox.py:153-171 | with several publishers and crashes anywhere, a published row is in the event stream, a row in the event stream has its plan, task or compose message in the work streams, and every message there is some row's |
| Publishers.RowIsPublished | backend/app/outbox.py:153-171 | an undisturbed publisher sends the row's message, then its event, marks it and goes on |
| Publishers.NothingIsLost | backend/app/outbox.py:153-171 | over any further steps rows keep their content, marks are not taken back, and streams only grow |
| Publishers.CountersAddUp | backend/app/outbox.py:153-177 | the same at every point of every pass of any number of publishers, with the rows handled so far for attempted |
| EventFeed.FeedHasNoGaps | backend/app/main.py:860-871 | across resumes with or without a cursor and polls, with torn snapshots, every event after the cursor in the client's last message that named one, up to the server's, was sent |
| EventFeed.SnapshotAnswers | backend/app/main.py:960-977 | a connect or resume that names a cursor is answered with exactly the events after it |
| EventFeed.ResumeAnswers | backend/app/main.py:967-977 | a resume that names no cursor is answered with exactly the events after the server's |
| EventFeed.OnlyTornRowsRepeat | backend/app/main.py:441-491 | since the last snapshot only rows committed between its two reads were sent twice |
| EventFeed.PollCatchesUp | backend/app/main.py:1108-1113 | after a whole poll everything after the cursor in the client's last message that named one has been sent |
| EventFeed.Connection.SendSnapshotAndMissedEvents | backend/app/main.py:860-871 | sends the missed events and takes the cursor of the session row |
| EventFeed.Connection.PollOnce | backend/app/main.py:1108-1113 | the cursor follows every event sent, also when the poll is cut off |
| Realtime.OneRedeemableToken | backend/app/realtime.py:69-108 | in every state at most one token of a session is redeemable, and then no grant of its epoch is on its way or spent |
| Realtime.TokenRedeemsOnce | backend/app/realtime.py:118-120 | each token redeems at most once |
| Realtime.RedeemedEpochsIncrease | backend/app/realtime.py:136-147 | successful redeems of a session, ordered by their epoch read, have strictly increasing epochs |
| Realtime.OneResumePerEpoch | backend/app/realtime.py:77-83 | of all resumes naming one previous epoch at most one succeeds |
| Realtime.IssueIsCommitted | backend/app/realtime.py:69-85 | in any world an issue of an existing session, or a resume that names its epoch, commits the next epoch, and any other commits nothing |
| Realtime.IssueSupersedes | backend/app/realtime.py:56-107 | after an issue, or a resume that names the session's epoch, its token is the only redeemable one of the session |
| Realtime.TokenService.Issue | backend/app/realtime.py:56-107 | granted exactly when the session exists and stands at the epoch named, if any, Redis answers and the token is unused, with the failure for each other case; a grant leaves its token as the session's only redeemable one |
| Realtime.TokenService.Redeem | backend/app/realtime.py:110-147 | a call is the steps Consume and ReadEpoch of a run; granted exactly for a redeemable, bound, unexpired token, which is used up either way |
| RateLimit.SpanBound | backend/app/rate_limit.py:17-23 | for non-decreasing times any half-open span of k windows admits at most (k + 1) * limit - 1 requests of a key, and none when k is 0 |
| RateLimit.TwoKeyBound | backend/app/rate_limit.py:90-108 | the two-key check meets that bound for the session and for the principal over all sessions |
| RateLimit.SpanBoundIsTight | backend/app/rate_limit.py:17-23 | for all limits, every principal's or session's key and every span of k windows some traffic meets the bound |
| RateLimit.Limiter.Enforce | backend/app/rate_limit.py:42-69 | one counter is incremented, or started with a new window; admitted exactly when it stays within the limit, and unavailable exactly when Redis did not answer |
| RateLimit.Limiter.Handle | backend/app/rate_limit.py:90-108 | the session's counter is touched only when the principal's admits |
| InputValidation.AcceptedIffWithinLimits | backend/app/input_validation.py:11-57 | a value is accepted if and only if everything nested in it is of a supported kind and size and not too deep |
| InputValidation.RejectionIsTrue | backend/app/input_validation.py:11-57 | the error of a rejection names something that is wrong with some value nested in it |
| InputValidation.NodeBound | backend/app/input_validation.py:11-57 | an accepted document has at most N^0 + ... + N^D nodes |
| InputValidation.NodeBoundIsTight | backend/app/input_validation.py:11-57 | some accepted document has that many |

## Left out

- Liveness: workers read only new stream entries, so a message that a crashed worker held is not taken up again; nothing is proved to happen in the end, only what can and cannot.
- Sessions that do not exist (404), ownership, routing, request models, CORS and HTTP status codes.
- Smoke-test tasks in runs: they live in sessions of their own; their branches are in the transactions and in `SessionStore`.
- `recent_turns` of a packet, `budget_summary` and other constant fields of an itinerary, and the reason text of a discarded task.
- Wall-clock columns (`started_at`, `latency_ms`, `deadline_at`, `finished_at`), tracing, metrics and logging.
- The tools themselves: any output, at any time, or none.
- JWTs, principals, settings and log redaction: library code and single checks.
- PostgreSQL, SQLAlchemy and Redis internals beyond atomic locked transactions, committed reads per statement, unique constraints, INCR and EXPIRE, GETDEL, SET NX and stream append; early eviction of a limiter counter is not modelled.
- The order of the three tables other than events in a snapshot, and their agreement with each other when it is torn.
- Outbox.Publisher.PublishPendingEvents: another publisher may take a row of the batch by the time it is locked, but nothing else happens to the rows during the pass; every interleaving, new rows included, is in `Publishers`, where a pass may take its rows in any order.
- The frontend, the migrations and the infrastructure files.
- What only the design document has: retries with a delay, timeouts, and cancellation of tasks by a preference update.
