# Durable protocols of the agent runtime

A Dafny model of the agent runtime's durable protocols, with proofs about every run of them. The runtime keeps its
state in SQLite; each `BEGIN IMMEDIATE` transaction is one step here, and steps of different workers, processes and
humans interleave freely. Seven parts are modelled:

| part | files |
|---|---|
| collaboration graph: submit, claim, renew, recover, publish, review, cancel, merge, human recovery | `GraphTable`, `GraphRows`, `GraphMachine`, `GraphInvariant`, `GraphReview`, `GraphResolve`, `GraphExact`, `GraphGuards`, `GraphFencing`, `GraphSchedule`, `GraphEdges`, `GraphLaws`, `Coordinator`, `Merge` |
| task budget and shared model slots | `Ledger`, `TaskBudget`, `ModelSlots` |
| durable WebSocket event log | `EventLog`, `EventHistory`, `EventLaws`, `EventStore` |
| one WebSocket session | `SessionWire`, `SessionOrder`, `SessionComplete`, `SessionFaults`, `Session` |
| platform deliveries | `Deliveries`, `CommunicationStore` |
| context governor | `Messages`, `MessagePairs`, `ContextBudget`, `ContextResults`, `ContextLaws` |
| checkpointed agent loop and patches | `AgentProtocol`, `AgentResults`, `AgentQuestions`, `AgentLoop`, `Patches`, `PatchResults` |

Each part has the same layout. Transactions are pure functions on tables; classes (`Coordinator`, `TaskBudget`,
`SlotTable`, `EventStore`, `Session`, `CommunicationStore`, `Workspace`) run them step by step on their fields and are
proved to compute those functions; what such a function decides is stated independently of it, with every state and
amount written out (`GraphLaws`, `EventLaws`, `ContextLaws` and the `…Exact` lemmas elsewhere); a state machine lets
every process take steps in any order; invariants over its runs give the main results.

## Conventions

- The clock is a nondecreasing value that each transaction reads once, except in `cleanup` of the event log and of the
  deliveries, whose separate readings are modelled. UUIDs are numbers that are never issued twice. SHA-256 digests
  stand for the bytes they are taken of.
- A value that is read in one transaction and used in a later one is a ticket that stays in the state, so it may be
  arbitrarily old when it is used.
- Replies of models, hooks, tools and humans, byte-size limits and I/O failures are parameters. In the graph the durable
  task of each node is part of the state, with the worker that holds it and the tool call it has started, so a
  publication, an answer or a resolution happens only when the task allows it.
- Where a method spans several transactions, what other processes do to the table in between is a parameter as well: an
  arbitrary function on tables.
- A worker or process may stop after any step.

## Where the code does less than it promises

Each of these is a theorem: a concrete run or input, and the exact condition under which the property holds.

- `/agents answer` and `/agents resolve` end in an update without a state test (`coordinator.py:579`), one transaction
  after the task accepted the answer, so the update may land late.
  - A coder can ask. Two humans read it, the second answers a later question whose worker crashed, a recovery requeues
    the coder first, and the second update then reopens it under review: the review of one commit accepts another
    (`GraphGuards.LateAnswerAccepted`). Reviewers and coders stay paired exactly when an update meets `KeepsPairs`
    (`GraphExact.PairGuardExact`).
  - A reviewer cannot ask; its node is requeued only by a resolution, which names the started call. If no call starts
    under an id that a human has already named, no late update ever meets a reviewer that has approved
    (`GraphResolve.UnnamedSpares`), and the review gate holds whenever updates land
    (`GraphResolve.AcceptedOnlyByReview`). Ids that never repeat are enough (`GraphResolve.FreshRunsUnnamed`). The code
    does not ensure it: with a repeated id a resolution meant for one call is taken for another, and its update reopens
    the reviewer of an accepted coder (`GraphGuards.ApprovalReopened`). At the moment of the update the exact condition
    is `SparesApprovals` (`GraphReview.ApprovalGuardExact`).
  - The test `state IN ('needs_input','needs_resolution')` in the update would be enough for all of this
    (`GraphReview.WaitingRuns`, `GraphExact.WaitingPaired`).
- `ensure_review` reads, inserts and demotes in separate transactions (`coordinator.py:282-292`), so a coder can be
  accepted with a commit other than its reviewer's snapshot even when every human update is tested
  (`GraphGuards.StaleReviewAccepted`). Its steps keep coders and reviewers at the same commit exactly when they meet
  `ReviewGuarded` (`GraphExact.ReviewGuardExact`). An atomic `ensure_review` meets it (`GraphExact.AtomicReviewExact`).
- `cleanup` of the event log reads the clock for the floor and again for the deletion (`delivery.py:51-52`). It is
  lossless exactly when no event above the new floor expires between the readings (`EventHistory.CleanupLossless`).
- A session does not test whether a late step belongs to the current connection: a flush queued on a replaced lock, a
  completed send, a finished handshake. Nor does it test that the outbox is in order after a repeated event key, or that
  a flush cancelled in mid-send gives up its connection: the frame is on the wire, `sent_seq` is not set, and the next
  flush sends it again. With the five tests every connection receives increasing numbers
  (`SessionOrder.FramesIncrease`); without any one of them some run repeats or reorders frames
  (`SessionFaults.EachCheckNeeded`).
- Even with all of them an event that another process stores during a handshake can be passed over
  (`SessionFaults.ForeignEventSkipped`). A handshake leaves out nothing that was stored exactly when the outbox it
  replays covers the store (`SessionCompleteness.HandshakeExact`), and if every handshake's does, no stored event is
  ever passed over (`SessionCompleteness.NothingSkipped`).
- Model slots rely on renewal: a holder that renews late loses its row while it keeps running
  (`ModelSlots.LateRenewalBreaksLimit`); no holder loses its row exactly when all renew in time
  (`ModelSlots.TimelyIffNeverEvicts`).
- Grouping a history again can move a user message into the block before it (`MessagePairs.BlocksCanMerge`);
  messages never change. A call carried by a user message behind an assistant passes the first grouping and can be
  refused by the second (`MessagePairs.ForeignCallRefusedLate`), exactly when no call block in front of it takes it up
  (`MessagePairs.NormalizeTwice`).
- `ask_user` runs without a `tool_started` checkpoint, so a question can be asked again: after a crash, even one behind
  the saved `waiting_user` (`AgentQuestions.AskedTwice`), and without any crash when one turn asks two questions and the
  task is suspended on the first (`AgentQuestions.SecondQuestionRepeats`). One worker never repeats a question
  (`AgentQuestions.AskedByDifferentClaims`). A question of a saved turn can be asked again exactly when a live worker
  still has it before it, or a new worker can claim the task and finds it without a saved result and without a suspension
  on it (`AgentQuestions.AskedAgainExact`).
- A merge that does not finish leaves its row `merging` until the lease runs out, instead of asking for a human at once,
  exactly when a restoring write fails (`Merges.LeftMergingExact`).

## Model

| member | source | states |
|---|---|---|
| GraphResolve.AcceptedOnlyByReview | agent_execution/coordinator.py:259-292 | In every run in which no reviewer or planner starts a tool call under an id that a human's resolution has named, whenever human updates land, a node in reviewed, merging or merged is a coder with a verified successful result, and its `reviewed_by` is the one node reviewing it, completed with an approval without findings |
| GraphResolve.UnnamedSpares | agent_execution/coordinator.py:571-581 | In such runs every human update finds the approvals spared: at most one update of a reviewer is outstanding, its node stands still until then, and it has not approved |
| GraphResolve.FreshRunsUnnamed | agent_execution/tasks.py:196-214 | Runs in which call ids never repeat and humans name calls that exist are among them |
| GraphReview.ApprovalGuardExact | agent_execution/coordinator.py:571-581 | For any provider: a human update keeps the gate, and all it rests on, if and only if no accepted coder and no merge that has read one relies on the approval of the reopened node |
| GraphReview.AcceptedWhileSpared | agent_execution/coordinator.py:259-292 | Every run whose human updates all meet that condition keeps the gate |
| GraphReview.WaitingRuns | agent_execution/coordinator.py:571-581 | Runs in which each human update meets a node that still waits for a human are among those runs |
| GraphResolve.AcceptedResultsFrozen | agent_execution/coordinator.py:441-526 | In every continuation in which no named call is started, an accepted coder's reviewer keeps its result and approval for ever, also after the coder has left acceptance, and the coder keeps its result except for the merge record until it is published again |
| GraphReview.WaitingNeverReopens | agent_execution/coordinator.py:571-581 | If human updates meet waiting nodes, an approving reviewer is never reopened, so its result stays for ever |
| GraphExact.ReviewedAtDeliveredCommit | agent_execution/coordinator.py:193-324 | In every run in which no named call is started and whose human updates and `ensure_review` steps meet their exact pairing conditions, the reviewer of an accepted coder looked at exactly the commit in the coder's stored result |
| GraphExact.AtomicReviewExact | agent_execution/coordinator.py:282-292 | The same holds without the condition on `ensure_review` when every insertion or demotion directly follows its own read |
| GraphExact.PairGuardExact | agent_execution/coordinator.py:571-581 | A human update keeps coders and reviewers paired at the same commit if and only if the node may be reopened: a coder's reviewer works no more, and a reviewer's coder still waits with that commit or never again |
| GraphExact.ReviewGuardExact | agent_execution/coordinator.py:282-292 | A step of `ensure_review` keeps coders and reviewers paired at the same commit if and only if the coder still waits with that commit, and is demoted only when no reviewer of it may still work |
| GraphGuards.StaleReviewAccepted | agent_execution/coordinator.py:282-292 | Without the condition on `ensure_review`, some run accepts a commit other than the reviewer's snapshot, although every human update meets a waiting node, spares approvals and keeps pairs, and no named call is started |
| GraphGuards.LateAnswerAccepted | agent_execution/coordinator.py:571-581 | Without the pairing condition on human updates, a coder's late answer lets some run accept a commit other than the reviewer's snapshot, although all other conditions hold |
| GraphGuards.ApprovalReopened | agent_execution/coordinator.py:571-581 | When a reviewer's call repeats the id of one that a human has named, some run leaves an accepted coder with its only reviewer back in the queue |
| GraphFencing.FencedForEver | agent_execution/coordinator.py:254-280 | Once fenced, a token stays powerless in every further run: its renew, publish and fail leave the graph as it is |
| GraphFencing.ClaimFences | agent_execution/coordinator.py:230-252 | A claim fences every earlier worker of the node |
| GraphFencing.RecoveryFences | agent_execution/coordinator.py:193-222 | A recovery that requeues a node fences the worker that held it, although it leaves the token in the row |
| GraphFencing.EndFences | agent_execution/coordinator.py:310-324 | A worker that has published or stopped its node is fenced |
| GraphFencing.RequeueFences | agent_execution/coordinator.py:571-581 | A human requeue fences the node's worker |
| GraphFencing.EffectOfLastClaim | agent_execution/coordinator.py:254-324 | A worker call that changes a row was made with the last token claimed for that node |
| GraphFencing.TokenPublishesOnce | agent_execution/coordinator.py:272-280 | In every reachable graph each token has published at most once |
| GraphSchedule.RunningBounded | agent_execution/coordinator.py:238-239 | Live running rows never exceed the largest configured concurrency, in any run |
| GraphSchedule.AttemptsLimited | agent_execution/coordinator.py:335-353 | A node is attempted at most three times besides its human requeues |
| GraphSchedule.ClaimedDependenciesPublished | agent_execution/coordinator.py:240-245 | Every dependency of a node that was ever claimed carries a published result |
| GraphEdges.NoCycles | agent_execution/coordinator.py:122-179 | Parent, dependency and review edges form no cycle in any reachable graph |
| GraphEdges.CancelExact | agent_execution/coordinator.py:294-308 | Cancellation stops exactly the nodes reachable by parent and review edges, leaves merged ones, and changes nothing else |
| GraphRows.ClaimEffect | agent_execution/coordinator.py:230-252 | A claim only fails blocked rows and starts at most one ready row, with the fresh token and one more attempt |
| GraphLaws.ClaimExact | agent_execution/coordinator.py:230-252 | A claim goes through the rows in order: a listed, idle row below its concurrency with a stopped dependency fails, and no other row does; one with a missing, foreign or unfinished dependency stays queued; the first with neither is claimed for 90 seconds, and if none is, none could be |
| GraphLaws.RecoverExact | agent_execution/coordinator.py:193-215 | Where a recovery leaves a queued, running or cancelling row, state by state: an orphaned one is requeued exactly if its task started no tool, asks nobody, has not ended and was attempted less than three times |
| GraphLaws.RecoverRest | agent_execution/coordinator.py:193-221 | An expired merge asks for a human, a coder under review is rejected exactly when its reviewer is lost, and every other row is left alone |
| GraphLaws.FencedExact | agent_execution/coordinator.py:209-228 | A recovery takes a task from its worker exactly when it requeues the row and no tool has started |
| GraphLaws.PublishExact | agent_execution/coordinator.py:259-280 | A publication in time stores the result and frees the row; the next state of a planner, a coder and a reviewer is decided by success, by a verified success, and by an approval without findings; any other publication changes nothing |
| GraphLaws.PublishJudges | agent_execution/coordinator.py:274-279 | It reviews or rejects the waiting coder of its node, and touches nobody else |
| GraphLaws.StopFrees | agent_execution/coordinator.py:310-324 | A stopped worker frees its row, which is cancelled if that was asked for and else gets the state of the stop |
| GraphLaws.ExitExact | agent_execution/coordinator.py:331-353 | Which exit codes, tasks and attempts lead to a requeue, a timeout, a cancellation, a failure or a human, each if and only if |
| GraphLaws.StopJudges | agent_execution/coordinator.py:310-324 | A stopped reviewer rejects its waiting coder, a requeued one does not |
| GraphLaws.MergeRows | agent_execution/coordinator.py:495-526 | A merge takes only a reviewed row, for 90 seconds, finishes it only under its own lease, and gives it to a human when it gives up |
| GraphInvariant.InvRun | agent_execution/coordinator.py:147-324 | Rows, edges, leases and tickets stay well formed in every run |
| CoordinatorStore.Coordinator.Insert | agent_execution/coordinator.py:156-179 | Checks time limit and budget, returns the reviewer that already reviews the coder, refuses for capacity, deadline, number or depth of children, or inserts the row with its deadline and counts the child; refusals change nothing |
| CoordinatorStore.Coordinator.Recover | agent_execution/coordinator.py:193-228 | The loop over rows and the final sweep compute the recovered table, and fence the tasks of requeued rows |
| CoordinatorStore.Coordinator.Claim | agent_execution/coordinator.py:230-252 | The loop over queued rows computes the claim that `GraphLaws.ClaimExact` describes, and hands out the claimed row |
| CoordinatorStore.Coordinator.Publish | agent_execution/coordinator.py:259-280 | Publishes under a live lease and lets a reviewer's verdict decide its coder; errors change nothing |
| CoordinatorStore.Coordinator.EnsureReview | agent_execution/coordinator.py:282-292 | Inserts a reviewer at the commit it read, or demotes the coder when the insertion is refused, whatever other processes do before the insertion and before the demotion |
| CoordinatorStore.EnsuredExact | agent_execution/coordinator.py:282-292 | A waiting coder without a reviewer gets one that depends on it, starts at the commit that was read and inherits its graph, within the budget's and the request's time; without room it asks a human; nobody else is touched |
| CoordinatorStore.Coordinator.Cancel | agent_execution/coordinator.py:294-308 | The closure loop ends with the set reachable by parent and review edges, and cancels exactly that set |
| CoordinatorStore.Coordinator.Fail | agent_execution/coordinator.py:310-324 | Ends a held row in the given or cancelled state, fences or marks its task, and rejects the coder whose reviewer stopped |
| Merges.MergeNode | agent_execution/coordinator.py:441-526 | Admission, conflict check, file writes, finish and rollback give the stated rows and files in every outcome, whatever other processes do to the table before each transaction |
| Merges.MergeAtomic | agent_execution/coordinator.py:495-526 | Whatever happens to the table, if nobody disturbs the files the merge is all or nothing: the row was approved by a completed reviewer without findings, is merged with the result that was read and every file has the reviewed contents, or every file is as it was; a rolled-back row that others leave alone asks for a human |
| Merges.MergeNeeds | agent_execution/coordinator.py:441-500 | When a merge is done already, refused or in conflict, each if and only if; a conflict marks the row if it is still reviewed and leaves every file alone |
| Merges.MergeCompletes | agent_execution/coordinator.py:441-517 | An approved result whose files nobody touched is merged when no step fails and the others leave its row alone |
| Merges.LeftMergingExact | agent_execution/coordinator.py:517-526 | With undisturbed files, a merge that started and did not finish leaves its row merging if and only if a restoring write fails |
| Ledger.Conservation | agent_execution/budgets.py:115-172 | Task tokens, cost and requests equal the sums and the count over the call rows in every run |
| Ledger.OverrunBound | agent_execution/budgets.py:107-172 | Although refunds are reserved again, tokens and cost exceed their limits by at most the calls' excess over their own reservations; requests and children stay within theirs |
| Ledger.OverrunAttained | agent_execution/budgets.py:115-172 | The token bound is attained by a run that reuses a refund |
| Ledger.SettledFrozen | agent_execution/budgets.py:152-154 | A settled call's row never changes again |
| Ledger.ChargeFollowsReports | agent_execution/budgets.py:145-168 | A call's charge is the total of its first settling report, or else the highest of its reservation and interim totals |
| Ledger.CostNeverFalls | agent_execution/budgets.py:155-168 | Neither the task's nor a call's cost ever falls, and charges only rise until settled |
| TaskBudgets.TaskBudget.Reserve | agent_execution/budgets.py:115-143 | Charges a call before it is made, at the model's input and output rates per million tokens, or changes nothing and names exactly the limits it would break |
| TaskBudgets.TaskBudget.Reconcile | agent_execution/budgets.py:145-172 | Adjusts an open call to reported usage: tokens to the report or, while open, to the highest so far, cost to the larger of the old cost and the report priced at the rates stored with the call; raises, after committing, exactly when the task is over a limit |
| TaskBudgets.ReadStream | agent_execution/budgets.py:282-302 | A stream that ends normally settles its call at the last usage it carried, within time and limits; one that breaks off leaves the call open at the highest of its reservation and the totals seen |
| ModelSlots.HoldersWithinLimit | agent_execution/budgets.py:174-208 | Slot rows never exceed the limit, and holders exceed it by at most those that were evicted |
| ModelSlots.RowKept | agent_execution/budgets.py:185-205 | A row disappears only when its holder leaves or an attempt finds it expired, and its expiry never moves back |
| ModelSlots.AdmittedExact | agent_execution/budgets.py:185-192 | After any run an attempt is admitted exactly when fewer rows than the limit are unexpired, so every wait ends 65 seconds after the last step of the others, whoever crashed |
| ModelSlots.RenewedExact | agent_execution/budgets.py:193-198 | A renewal gives a row that is still there 65 seconds more, and changes nothing else |
| ModelSlots.TimelyHolders | agent_execution/budgets.py:193-200 | If every holder renews before an attempt finds its row expired, holders stay within the limit |
| ModelSlots.TimelyIffNeverEvicts | agent_execution/budgets.py:185-200 | Timely renewal is exactly when no holder ever loses its row |
| ModelSlots.LateRenewalBreaksLimit | agent_execution/budgets.py:185-200 | A late renewal admits two holders under a limit of one |
| ModelSlots.SlotTable.Enter | agent_execution/budgets.py:181-192 | Among other processes, the waiting loop enters on its first successful attempt and gives up as soon as the budget or the caller says so |
| EventHistory.NoSilentLoss | agent_execution/delivery.py:48-140 | With one clock reading per cleanup, every number above the floor is stored after any mix of operations |
| EventHistory.CleanupLossless | agent_execution/delivery.py:48-53 | With two readings, cleanup keeps the history gapless if and only if no event above the new floor expires between them |
| EventHistory.TwoReadingsLose | agent_execution/delivery.py:50-52 | Two readings can lose an event the floor never mentions |
| EventHistory.ResumeExact | agent_execution/delivery.py:55-62 | A client resuming between floor and head is replayed exactly the numbers after its last one |
| EventHistory.KeyStoresOnce | agent_execution/delivery.py:68-83 | An event key never stores a second event, even long after the first expired or was erased |
| EventHistory.ExecutedOnce | agent_execution/delivery.py:114-129 | An accepted input is executed once until its row expires; other texts under its id are refused |
| EventLaws.AppendOutcomes | agent_execution/delivery.py:64-95 | When an event is added, known, in conflict or refused |
| EventLaws.AddedEvent | agent_execution/delivery.py:92-99 | The new event stands behind all others with its own number, content and expiry |
| EventLaws.EndedInput | agent_execution/delivery.py:100-103 | A keyed ending settles the input it answers, and only that one: uncertain before interrupted before suspended before failed, and else completed |
| EventLaws.AckExact | agent_execution/delivery.py:105-112 | An acknowledgement within the history drops exactly the events up to its number and raises the floor |
| EventLaws.CleanupExact | agent_execution/delivery.py:48-53 | A cleanup deletes exactly what has expired |
| EventLaws.EraseExact | agent_execution/delivery.py:135-140 | Erasing an owner leaves its numbers and input ids and nothing of what they held |
| EventLaws.AcceptExact | agent_execution/delivery.py:114-129 | A new input is stored as uncertain before it is executed, a repeated one answered with its recorded status |
| EventLaws.EventNeverChanges | agent_execution/delivery.py:64-99 | Over all runs a stored event keeps its content and expiry as long as it is stored |
| EventLog.HighestExpired | agent_execution/delivery.py:50-51 | The number the floor rises to is the highest expired one |
| EventStores.EventStore.Append | agent_execution/delivery.py:64-103 | Stores an event under the next number, once per key; errors roll the transaction back |
| EventStores.EventStore.Snapshot | agent_execution/delivery.py:55-62 | Returns head, floor and the stored numbers in order after a cleanup |
| EventStores.EventStore.Ack | agent_execution/delivery.py:105-112 | Refuses numbers outside the history, otherwise drops events up to the number and raises the floor |
| EventStores.EventStore.AcceptInput | agent_execution/delivery.py:114-129 | Executes, answers a duplicate, or refuses, and stores the row before execution |
| EventStores.EventStore.EraseOwner | agent_execution/delivery.py:135-140 | Erases events and texts, keeps the inputs' ids and closes the history |
| SessionOrder.FramesIncrease | websocket_server.py:146-169 | With the five missing tests, replay and flush put each number on a connection at most once and in increasing order, in every interleaving, cancelled flushes included |
| SessionFaults.EachCheckNeeded | websocket_server.py:474-546 | Leaving out any one of the five tests allows a run that repeats or reorders frames |
| SessionFaults.ForeignEventSkipped | websocket_server.py:511-517 | With all tests, an event another process stores during a handshake can be passed over |
| SessionCompleteness.HandshakeExact | websocket_server.py:490-518 | A resuming handshake skips no event that was stored when its welcome ended if and only if every stored number above the client's last one is in the outbox or after everything in it |
| SessionCompleteness.NothingSkipped | websocket_server.py:146-169 | If the outbox of every handshake meets that test, then in every interleaving each stored event between what the client had seen and `sent_seq` is on the ready current connection |
| SessionCompleteness.ConnectExact | websocket_server.py:474-517 | A new connection takes over, waits for its handshake, and acknowledges what a client that can resume has seen |
| SessionCompleteness.AckedExact | websocket_server.py:171-175 | An acknowledgement drops exactly what it covers from the store and from an ordered outbox |
| SessionCompleteness.EnterExact | websocket_server.py:146-169 | A flush reads the connection and the store only when it gets its lock |
| Sessions.Session.Resume | websocket_server.py:490-518 | A handshake replays exactly what the client has not seen, when the history still covers it |
| Sessions.Session.Flush | websocket_server.py:146-169 | A flush sends exactly the stored numbers above `sent_seq`, up to the first failure |
| Deliveries.CalledOnce | communication_worker.py:94-106 | Each delivery row reaches an adapter at most once in every run |
| Deliveries.EventCalledOnce | communication_store.py:458-470 | A keyed event reaches an adapter at most once ever, although expired rows are deleted |
| Deliveries.EventQueuedOnce | communication_store.py:458-470 | Queueing a keyed event again never creates a second row |
| Deliveries.UncertainStays | communication_store.py:150-155 | A row that became uncertain stays exactly as it is |
| Deliveries.SentIsConfirmed | communication_worker.py:98-106 | In every run a row is marked as sent only if its own sender called the adapter and reported success |
| Deliveries.LeaseProtects | communication_store.py:150-155 | While its lease lasts, a row that is being sent stays as it is until its own sender finishes |
| Deliveries.ClaimExact | communication_store.py:487-492 | A claim takes exactly a permitted pending row that has not expired, for 120 seconds |
| Deliveries.FinishExact | communication_store.py:494-500 | A sender that finishes in time settles its row, sent on success and uncertain otherwise |
| Deliveries.CleanupExact | communication_store.py:150-155 | A cleanup makes overdue senders uncertain and deletes exactly expired rows that are sent or pending |
| Deliveries.QueueExact | communication_store.py:444-481 | When a reply or keyed event is created, present, in conflict or refused, and what is stored |
| Deliveries.LateFinishIgnored | communication_store.py:494-500 | A sender that finishes after its lease was given up changes nothing |
| CommunicationStores.CommunicationStore.QueueDelivery | communication_store.py:444-481 | Creates a pending row once per key, or says why not, leaving both tables unchanged |
| CommunicationStores.CommunicationStore.ClaimDelivery | communication_store.py:487-492 | Claims exactly a pending, unexpired, permitted row |
| CommunicationStores.CommunicationStore.FinishDelivery | communication_store.py:494-500 | Finishes only a row that is being sent |
| CommunicationStores.CommunicationStore.CleanupExpired | communication_store.py:150-155 | Gives up expired senders and deletes expired sent or pending rows |
| CommunicationStores.CommunicationStore.DeliverPending | communication_worker.py:94-106 | The loop claims, sends and finishes each listed row |
| CommunicationStores.PassCallsOnce | communication_worker.py:94-106 | One pass hands a row over at most once, however often it is listed |
| CommunicationStores.CalledSettled | communication_worker.py:100-105 | A row that was handed over ends sent if the attempt that claimed it succeeded, and uncertain otherwise |
| CommunicationStores.HandedOver | communication_worker.py:94-106 | Over a whole pass, the first permitted attempt before a row's expiry hands it over and settles it by its own success; a row without one stays as it is |
| Messages.NormalizeBlocks | agent_execution/context.py:74-108 | The index loop computes the grouping, including its two errors |
| MessagePairs.PairsComplete | agent_execution/context.py:74-108 | Every group is an ordinary message or a calling assistant followed directly by exactly one result per kept call in call order, then others' messages; if only assistants call tools, so do the groups |
| MessagePairs.AnsweredCallKept | agent_execution/context.py:93-100 | A call answered before the next assistant speaks is kept, with the last such answer |
| MessagePairs.SpeechKept | agent_execution/context.py:85-103 | An assistant message with content or without calls is never lost |
| MessagePairs.SilentDropped | agent_execution/context.py:85-103 | An assistant message that says nothing and none of whose calls was answered is dropped |
| MessagePairs.RefusedExact | agent_execution/context.py:74-97 | A history is refused exactly for its first message with repeated or missing call ids, or with calls by somebody else outside of an assistant's turn, and the error says which |
| MessagePairs.VoicesKept | agent_execution/context.py:98-107 | Messages of systems, developers and users are all kept, in order |
| MessagePairs.NormalizeTwice | agent_execution/context.py:74-108 | Flattening and grouping again is refused exactly when a foreign call stands behind no call block that takes it up; otherwise it changes no message, and no block exactly when every call block is last or followed by an assistant's |
| MessagePairs.BlocksCanMerge | agent_execution/context.py:103-107 | A history whose blocks do change |
| MessagePairs.ForeignCallRefusedLate | agent_execution/context.py:89-96 | A history with a call outside an assistant message that only the second grouping refuses |
| ContextBudget.LeastDrop | agent_execution/context.py:135-144 | Finds the shortest drop that fits, or shows that none does |
| ContextBudget.GovernMessages | agent_execution/context.py:116-149 | The dropping loop and its fallback compute the governed history that `ContextLaws.AnswerExact` describes |
| ContextLaws.ProtectedExact | agent_execution/context.py:116-131 | Protected are exactly blocks with a system or developer message, approvals, the anchors, and the last blocks with a user and with a tool message |
| ContextLaws.AnswerExact | agent_execution/context.py:116-149 | Whatever fits is the history without the fewest oldest blocks that need not stay, or what must stay with outputs cut |
| ContextLaws.MustStayStays | agent_execution/context.py:119-149 | Every block that must stay is in every answer, whatever the limit; at most the contents of its tool results are cut |
| ContextLaws.InstructionsStay | agent_execution/context.py:119-149 | Every answer holds all system and developer messages, unchanged and in order |
| ContextLaws.ConstraintStays | agent_execution/context.py:125-134 | The task constraint ends every answer |
| ContextLaws.TooLargeExact | agent_execution/context.py:134-149 | A history is too large exactly when every drop is, and what must stay has no outputs to cut or is too large without them |
| ContextLaws.GivesUpExact | agent_execution/turn_control/context.py:41-72 | Shortening gives up exactly when nothing can be cut, or cutting all of it away is not enough |
| ContextLaws.CutsOnlyEvidence | agent_execution/turn_control/context.py:41-61 | Only text outputs of tools behind the last call that speak of no approval are cut |
| ContextLaws.CutMeant | agent_execution/turn_control/context.py:51-61 | A cut output keeps three quarters of what is kept from its beginning and the rest from its end, around the remark that it was cut |
| ContextLaws.PriceMeant | agent_execution/context.py:35-71 | A message costs its text with stand-ins for its images, and their reservations |
| ContextLaws.TokensGrow | agent_execution/context.py:35-71 | A list costs a fixed margin, the price of each message, and a comma between two |
| ContextBudget.FitLatestEvidence | agent_execution/turn_control/context.py:41-72 | The bisection computes the shortened evidence or finds that it cannot fit |
| ContextResults.WithinBound | agent_execution/context.py:134-148 | The answer and the tool schemas together fit the limit |
| ContextResults.DropsFewest | agent_execution/context.py:134-149 | Whole unprotected groups go, oldest first and the fewest that suffice; dropping fails exactly when the protected groups and the task constraint alone do not fit |
| ContextResults.PairsIntact | agent_execution/context.py:139-148 | Whatever is dropped or cut, the answer consists of complete groups, in which only assistants call tools if only they did before |
| ContextResults.WholeIsStable | agent_execution/context.py:74-108 | Complete groups in which only assistants call are left alone by the next grouping; others are left alone or refused |
| ContextResults.SearchTight | agent_execution/turn_control/context.py:62-71 | The bisection's answer fits, and one final interval more does not |
| ContextResults.FitToolSchemas | agent_execution/context.py:152-183 | One pass in priority order keeps each tool that still fits |
| ContextResults.SelectionMaximal | agent_execution/context.py:152-183 | The selection is accepted, nothing is lost, and no omitted tool can be added |
| AgentResults.InvokedOnce | server.py:497-573 | Over all crashes, lost leases, resumed workers and human resolutions, each call other than `ask_user` is invoked at most once |
| AgentResults.StartedToolRefused | agent_execution/tasks.py:126-130 | From a saved `tool_started` on, in every run, no worker gets in and the call stays the started one until the worker that runs it completes it or a human resolves it |
| AgentResults.ClaimsBounded | agent_execution/tasks.py:124-140 | Over all crashes and errors a task is claimed at most four times more than humans answer or resolve |
| AgentResults.ClaimExact | agent_execution/tasks.py:124-140 | A worker takes exactly a task without a live lease that waits or was left running, has no started tool and fewer than three recoveries, for 180 seconds; a started tool makes the task uncertain |
| AgentResults.RenewExact | agent_execution/tasks.py:142-145 | A renewal prolongs the worker's own live lease, and no other |
| AgentResults.SavedPhases | agent_execution/tasks.py:147-163 | What each checkpoint tells the worker that resumes from it |
| AgentResults.EndedForEver | agent_execution/tasks.py:124-125 | A task that has completed, failed or been cancelled is never claimed or changed again |
| AgentQuestions.AskedByDifferentClaims | server.py:470-495 | Over all runs no worker asks the same question twice; whoever repeats one has made a claim of its own |
| AgentQuestions.AskedAgainExact | server.py:470-577 | After any run, some continuation asks a question of a saved turn if and only if a live worker still has it before it, or the task can be claimed, the question has no saved result and the task is not suspended on it |
| AgentQuestions.RecordedIsAskedOnce | agent_execution/tasks.py:181-194 | A question with a saved result, or on which the task is suspended, is never asked again unless some live worker already had it before it |
| AgentQuestions.AskedTwice | server.py:470-495 | A crash repeats a question even after its `waiting_user` checkpoint, before the task is suspended |
| AgentQuestions.SecondQuestionRepeats | server.py:491-577 | Without a crash, the second of two questions in one turn is asked again after the first is answered |
| AgentResults.EvaluationAfterAnswer | server.py:594-612 | An evaluation is only ever saved behind an answer without calls |
| AgentLoop.RunAgent | server.py:238-680 | For every environment, whose replies are returned in order: the loop ends; rounds, provider requests and critic rounds stay within their limits; it follows the worker protocol; and it ends for the reason it heard last. With an evaluator an answer is returned only on a successful verdict, handed over exactly on a failed one that may not be corrected or finds no room below the limits, and every other failed verdict is followed by a critic round; a saved verdict is heard again, and no round is opened while a saved answer waits; cancellation, a spent budget, a lost lease, a hook and a provider failure have their own endings |
| AgentLoop.AskModel | server.py:298-366 | A round makes at most `max_retries` + 1 requests, and gives the provider up only after a failure that is not worth repeating or after all of them |
| AgentLoop.Conclude | server.py:594-665 | What becomes of an answer without calls under an evaluator, by its verdict and the room below the limits |
| AgentLoop.FindAnswer | server.py:239-397 | Behind the check for cancellation a new round is opened exactly when no open call and no unsettled answer is left of what the worker resumed |
| AgentLoop.RunCalls | server.py:399-577 | Leaves every call of the turn answered, or ends; a suspension is the last thing saved |
| AgentLoop.RunPass | server.py:239-665 | A pass without a new round uses up the resumed state; what it heard settles it |
| Patches.Workspace.PreparePatch | agent_execution/patches.py:87-115 | Accepts 1 to 32 changes on distinct paths that match the files and change something; stores nothing otherwise |
| PatchResults.FaultExact | agent_execution/patches.py:87-110 | A proposal's fault is that of its first improper change: a path named twice, contents that are not the file's, no file on either side, or no difference, in this order |
| Patches.Workspace.ApplyPatch | agent_execution/patches.py:128-156 | Applies, reuses, refuses or rolls back, with the stated files and state |
| Patches.Workspace.Update | agent_execution/patches.py:75-84 | Changes the state only from the expected one |
| PatchResults.SucceedsExact | agent_execution/patches.py:128-147 | Undisturbed, a patch that matches the files succeeds exactly when no step fails |
| PatchResults.SuccessExact | agent_execution/patches.py:137-146 | Undisturbed success writes exactly the proposed contents and nothing else |
| PatchResults.FailureRestores | agent_execution/patches.py:147-155 | Undisturbed failure at any step restores every file |
| PatchResults.OthersKept | agent_execution/patches.py:148-153 | A file somebody else changed is left as others leave it |
| PatchResults.RollbackExact | agent_execution/patches.py:148-153 | Whatever others edit meanwhile, a rollback restores a file if and only if it was written, at its turn holds what was written and the restoring write succeeds |
| PatchResults.UnnamedUntouched | agent_execution/patches.py:128-156 | A file the patch does not name is left exactly as others leave it, on success and on rollback |
| PatchResults.BegunOnce | agent_execution/patches.py:75-84 | Over all state changes that processes attempt on all proposals, each proposal is begun at most once, with the changes it was prepared with, and never after it left `prepared` |
| PatchResults.ApplyIsAttempts | agent_execution/patches.py:128-156 | An apply that writes changes the artifacts as one begin and one completion or give-up do |

## Left out

- GraphResolve.AcceptedOnlyByReview: for runs in which no reviewer or planner starts a named call; the code does not ensure this when a provider repeats call ids, as `GraphGuards.ApprovalReopened` shows, and `GraphReview.AcceptedWhileSpared` gives what holds then.
- GraphResolve.AcceptedResultsFrozen: under the same condition, for the same reason.
- GraphExact.ReviewedAtDeliveredCommit: also needs `KeepsPairs` and `ReviewGuarded`, exact by `GraphExact.PairGuardExact` and `GraphExact.ReviewGuardExact`; `GraphGuards.LateAnswerAccepted` and `GraphGuards.StaleReviewAccepted` show that the code breaks them.
- GraphExact.AtomicReviewExact: needs `KeepsPairs` as well.
- GraphTable.ClaimChild: task leases have no clock in the graph, so a worker may take over a task whose lease still lives; the three counterexamples do not use it.
- GraphMachine.CanReadForMerge: a merge reads the coder and its reviewer in one step instead of two.
- SessionOrder.FramesIncrease: with five tests the code does not make, each of them needed by `SessionFaults.EachCheckNeeded`.
- SessionCompleteness.NothingSkipped: speaks of numbers up to `sent_seq`; that this number keeps up with the store depends on the network.
- Sessions.Session.Resume: nothing interferes at its awaits; `SessionWire` has every interleaving.
- Sessions.Session.Flush: likewise.
- SessionWire.Flight: taking a free lock is a step of its own, which allows a few more interleavings than the event loop does; the counterexamples do not use them.
- PatchResults.OthersKept: a check and the write behind it are one step; an edit that strikes between them is lost in the code as well.
- Patches.Workspace.PreparePatch: byte limits are one test at the end instead of one per file.
- Merges.MergeNode: the checks of role, parent and workspace are one parameter.
- AgentProtocol.Act: the calls of a superseded answer may run in any worker; in the code only in one that resumed.
- AgentLoop.RunAgent: floating-point delays between retries, event callbacks and episode logging; the limits on repeated operations and the remaining requests are one reply of the environment.
- ContextBudget.Bisect: fractions are real numbers instead of floating-point ones.
- TaskBudgets.TaskBudget.Reserve: costs are real numbers instead of floating-point ones.
- Byte-size capacity of the stores, the 128-row limit of a claim query, and the order of rows by update time: parameters or free choice.
- The `temporal_graph` branches of the coordinator and the `step_controller` branches of the agent loop: they depend on backends that are not part of this model.
- Git plumbing, worktrees, path validation, links and file modes: remote or operating-system effects.
- `request_desktop_tool`: it sends outside the numbered stream.
- Message compaction, provider message merging, model routing, word matching for tool priority (the priority order is a parameter) and conversation anchors (a parameter).
- Session deletion of deliveries and tasks, approvals, hooks, permissions, memory, adapters, sandboxing, tracing and schema migration.
