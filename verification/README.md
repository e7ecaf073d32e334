# A verified model of the loafer-awsx consumer

loafer-awsx polls an SQS queue, hands every message to a worker, hides it from other consumers while its
handler runs, and deletes it when the handler succeeds. This project models the life of a message in that
consumer and proves what its code and its documentation promise of it, for every interleaving of its
goroutines, every outcome of a handler and every failure of an API call.

`dafny verify dfyconfig.toml` checks the whole project.

## The components

* **The consumer** (`Lifecycle`, `Consumer` and the `Consumer...` modules, `Reference`). A step system: one
  state, and one labelled step for each thing a goroutine can do next. `Enabled` is when it can, `Do` is what
  it does, and a run is any sequence of enabled steps. The goroutines are the polling loop with the shutdown
  sequence, W workers with bounded channels, one visibility loop per message, and the senders of the delete
  batcher. The same steps run with and without batched deletes, in both run modes and under both retry
  models. A misuse that panics in the code (a send on a closed channel, a second close, a wait group that goes
  negative or is reused after reaching zero) sets a flag that is then proved never to be set.
* **The delete batcher** (`DeleteBatcher`, `SenderLoop`, `BatchResponse`). The concurrent senders are a step
  system of their own, which the consumer embeds; the loop of one sender and the handling of one response are
  methods.
* **The visibility loop** (`Visibility`), with 32-bit arithmetic written out.
* **The scheduled-retry loop** (`RetryLoop` and the `RetryLoop...` modules, `Orchestration`, `Attributes`,
  `Decimal`, `Backoff`). A step system of the entry queue, the workers, the schedules, the dead-letter queue (DLQ)
  and the scheduler that fires schedules back into the queue.
* **The sequential code** (`Processing`, and the methods of `GroupKey`, `Visibility`, `Attributes`, `Backoff`,
  `BatchResponse`, `SenderLoop`). The objects that change in place are classes; every loop of the code is a
  method with a loop. `Processing` ties the code of `process` to the stages of the step system, and the code
  of a whole batch to the sequential walk that the step system is proved to refine; `Orchestration` ties the code
  of `processScheduled`, on the contents of a message, to the steps of the retry loop.

How the steps of `Consumer` correspond to the code:

| step | code |
|---|---|
| `PollTop`, `Receive`, `ReceiveError`, `RetryTimer`, `RetryCancelled`, `BatchDone` | the loop of `poll` and its retry wait, consumer/consumer.go:194-224 |
| `Enqueue`, `Drop` | the two cases of the select in `dispatch`, consumer/dispatch.go:166-173 |
| `CloseChannel`, `Join`, `AwaitSenders` | `stop`, consumer/dispatch.go:184-193 |
| `Take`, `WorkerExit` | `worker`, consumer/dispatch.go:196-201 |
| `Work` | one stage of `process` or `processScheduled`, consumer/dispatch.go:228-362 |
| `Loop` | one event of the visibility loop, consumer/visibility.go:119-164 |
| `Batcher` | one event of a sender, consumer/delete_batcher.go:93-112 |

## What the main results say

1. **Refinement.** Every complete run issues exactly the deletes, and emits exactly the metrics, of a one-pass
   walk over what it dispatched (`ConsumerResults.RefinesSequentialWalk`), and that is what it received but for
   dropped messages of the last batch. A message can be dropped if and only if the cancellation finds the polling
   loop in a receive request or in the middle of a batch (`LosesIff`); otherwise the walk is over all that was
   received (`RefinesWalkIfUnexposed`). The walk is the one the repository's own property tests compare with.
2. **Order.** In every reachable state, cancelled or not: one group's handlers never overlap and start in the
   order of dispatch, a failure holds back exactly the rest of its group in its batch, and the deletes of a
   batch and group are a prefix of what was dispatched (`GroupOrder`, `FailureHoldsBackGroup`).
3. **Progress and shutdown.** Polling goes on until a cancellation and stops at once after one (`KeepsPolling`,
   `StopsOnlyWhenCancelled`, `StopsAtOnce`). What each goroutine waits for is known exactly (`PollerBlockedIff`,
   `WorkerBlockedIff`, `SenderBlockedIff`). No reachable state is stuck, a cancelled run stops within a computed number of
   steps, and nothing is misused or left alive (`DeadlockFree`, `CancelledRunsStop`, `ShutdownSafety`).
4. **The batcher** loses nothing, sends nothing twice, and flushes K handles with S senders in ceil(K/10) to
   ceil(K/10) + S - 1 requests (`FlushedExactlyOnce`, `FlushRequestBound`).
5. **The retry loop** never loses a message, retries within its limit and keeps the payload, under any mix
   of failures (`NoLoss`, `BoundedRetries`, `PayloadKept`); and keeps exactly one copy of each open message, with
   one worker at most on it, if and only if no delete is lost, no message is redelivered while it is being handled
   and no schedule fires twice (`ExactlyOneCopy`, `ExactlyOnceIff`, `HandledOnce`). Once failures, redeliveries and
   new messages cease it drains in a bounded number of steps (`RetryLoopProgress.Drains`).
6. **Visibility.** The values sent are exact if and only if (limit+1)*timeout fits in 32 bits, and the message
   stays hidden without a gap if and only if moreover a worker starts on it within ten seconds
   (`ValuesExactIff`, `CoverageIff`).

## Where the code and its comments disagree

* `dispatch` is said to return without enqueuing once the context is cancelled (consumer/dispatch.go:161-165).
  Its select may still take the send: `ConsumerHistory.DropThenEnqueue` is a run in which a message is dropped and
  a later one of its batch and group enqueued. Order is therefore stated over what was enqueued. Some continuation
  of a cancellation drops a message if and only if it finds the polling loop in a receive request or in the middle of
  a batch (`ConsumerResults.LosesIff`, `ConsumerHistory.DropPossibleIff`).
* The separator is said to keep field combinations from colliding (consumer/dispatch.go:490). For a group id
  without the separator, which is all SQS admits, and distinct fields that is so if and only if there is at most one
  custom field or no value contains the separator (`GroupKey.IdentifiedIff`). `GroupKey.SeparatorCollides` is a
  collision of two messages with two custom fields, one value of which carries the separator in its envelope.
* `extension += visibilityTimeout` wraps in 32 bits. The values are exact if and only if (limit+1)*timeout fits
  (`Visibility.ValuesExactIff`), and `Visibility.FirstOverflow` shows that the first one past the range is sent as
  zero, which shows the message to every consumer at once.
* A retry is meant for after its backoff, but its fire time is truncated to whole seconds. The fire time is still to
  come if and only if the backoff reaches the next whole second (`Backoff.FiresLaterIff`), and whenever the failure
  happens if and only if the backoff is a second or more (`AlwaysFiresLaterIff`). The comment on it claims only that the
  time is within one second.
* The backoff channel is said never to block the caller of `Backoff` (consumer/message.go:63-65); the comment on the
  method says so of the first call only (consumer/message.go:221-223). A call that finds the channel full returns
  only once the visibility loop has read from it, which can still happen if and only if the model is not the
  scheduled one and the loop has neither reached its limit nor read a backoff (`Lifecycle.SlotEmptiedIff`).

## Model

| member | source | states |
|---|---|---|
| `ConsumerResults.RefinesSequentialWalk` | consumer/dispatch.go:166-440 | Whatever the interleaving and whatever a cancellation cut off, a run in which stop has returned issued as a multiset exactly the deletes, and emitted exactly the metrics, of the sequential walk over the batches it dispatched; on the batched path the entries sent are those deletes, in requests of 1 to 10 entries; the batches dispatched are those received with the dropped messages left out, all of them from the last batch, so they are equal if and only if none was dropped, and only a cancellation drops |
| `ConsumerResults.RefinesWalkOfReceived` | consumer/delete_batch_test.go:133-161 | If all that a complete run ever receives had been dispatched by some moment, such as that of the cancellation, nothing is dropped and the walk is over the batches received |
| `ConsumerResults.LosesIff` | consumer/dispatch.go:161-173 | Some continuation of a run that is cancelled now drops a message if and only if the polling loop is in a receive request or in the middle of a batch |
| `ConsumerResults.RefinesWalkIfUnexposed` | consumer/consumer.go:178-182 | If the cancellation finds the polling loop in neither, a complete run drops nothing, receives nothing more, and issues and emits exactly what the walk over the batches received by then does |
| `ConsumerHistory.DropPossibleIff` | consumer/dispatch.go:161-173 | The same for any cancelled state and the messages dropped from then on |
| `ConsumerResults.NothingUnaccounted` | consumer/consumer.go:194-224 | In every reachable state all of every batch but the last has been dispatched, and of the last a subsequence of what comes before the rest; every message received is dispatched, dropped or still to be considered; and after a drop, which takes a cancellation, nothing more is received |
| `ConsumerHistory.AllDispatchedIff` | consumer/dispatch.go:161-173 | Once nothing is left to consider, the batches dispatched are those received if and only if nothing was dropped |
| `ConsumerHistory.DropThenEnqueue` | consumer/dispatch.go:161-173 | For every route that receives two messages or more at a time, and any two messages, a run in which, after a cancellation, the first is dropped and the second one of its batch enqueued |
| `ConsumerHistory.HistoryStep` | consumer/consumer.go:194-224 | Every step keeps that |
| `ConsumerHistory.HistoryEnqueue` | consumer/consumer.go:217-222 | Dispatching takes the first message of the rest of the current batch and puts it at the end of what was dispatched of that batch, and of no other, whatever was dropped before |
| `ConsumerResults.GroupOrder` | consumer/dispatch.go:228-272 | In every reachable state of a PerGroupID route, of two dispatched messages with one group key the later is not touched by a worker before the earlier is finished, and their deletes are issued in order |
| `ConsumerKeys.OrderByAttributes` | consumer/dispatch.go:485-502 | The same order for any two messages with one group id and one value of every custom field, whatever they contain |
| `ConsumerKeys.HeldByOwnGroup` | consumer/dispatch.go:274-295 | With group ids free of the separator, and at most one custom field or values free of it, a held message is held by a failed message of its batch with its own group id and field values |
| `ConsumerResults.FailureHoldsBackGroup` | consumer/dispatch.go:274-295 | In every reachable state, no handler starts after an earlier failure of its batch and group, a message is held only if such a failure precedes it, and a delete issued for one message of a batch and group implies one for every earlier message of it |
| `ConsumerResults.OnlyDueDeletes` | consumer/dispatch.go:423-440 | In every reachable state a message has at most one delete issued, and only if the walk over what was dispatched commits it |
| `ConsumerResults.HandlesConserved` | consumer/delete_batcher.go:27-44 | In every reachable state of a batched route the deletes issued are as a multiset those queued, held by a sender or already in a request, with at most workers * maxMessages queued and ten held by a sender |
| `ConsumerResults.AllSent` | consumer/delete_batcher.go:76-86 | Once stop has returned, every delete handed to the batcher has gone out exactly once, in requests of 1 to 10 entries and few of them after the workers were done; without batching no request is ever formed |
| `ConsumerResults.LoopsInAnyRun` | consumer/visibility.go:119-164 | In every reachable state of every route each message's loop has made its ticks in order, at most limit+1, then at most one backoff call in range, none in scheduled mode; the ticks are min(43200, k*timeout) if (limit+1)*timeout fits in 32 bits; and once its processing has ended, a loop still at its select has a signal waiting |
| `ConsumerVisibility.HandlerIsCovered` | consumer/visibility.go:106-113 | In every reachable state not cancelled, a message whose handler is running and has not signalled has a live visibility loop that has made ticks only, unless the loop has made all limit+1 of them |
| `ConsumerVisibility.StepCause` | consumer/visibility.go:119-164 | Every step keeps: without a backoff a loop returns only on cancellation, on dispatch or after its last tick |
| `ConsumerVisibility.FinishedLoopsSettle` | consumer/dispatch.go:225-227 | In every reachable state the live loop of a message that process has let go of can end within three of its events; with no more calls if the message is dispatched or the run cancelled, and at most the waiting backoff's otherwise |
| `ConsumerResults.FinalOutcome` | consumer/dispatch.go:228-362 | In every reachable state a finished message has its delete issued if and only if the walk commits it, and has emitted exactly the walk's metric for it |
| `ConsumerGroups.BarrierAnswers` | consumer/barrier.go:39-47 | When a worker asks the shared barrier about its message, the answer is yes if and only if an earlier dispatched message of the same batch and group fails |
| `ConsumerGroups.FirstFailure` | consumer/barrier.go:5-15 | If any earlier message of the group fails, then one that is itself not held back does, so the barrier has been told |
| `ConsumerGroups.StepGated` | consumer/dispatch.go:228-281 | Every step keeps: the barrier holds exactly the groups of the messages that have failed, no blocked message starts, no other message is held |
| `ConsumerGroups.StepLedger` | consumer/dispatch.go:313-440 | Every step keeps: one delete issued for each message past its commit and for no other, one metric for each message that has reached its fate, deletes of one worker in order of dispatch |
| `ConsumerOrder.TakenInTurn` | consumer/dispatch.go:196-201 | A worker takes a message only when it has finished every earlier message given to it |
| `ConsumerOrder.StepPlaced` | consumer/dispatch.go:152-201 | Every step keeps: a channel holds exactly its worker's untouched messages, in order and within capacity; a message being processed is held by its worker alone; a worker finishes one message before touching the next |
| `ConsumerShutdown.ShutdownSafety` | consumer/dispatch.go:175-193 | In every reachable state nothing was sent on or closed twice, the wait group equals live workers plus live visibility loops; when stop has returned no goroutine is alive, every channel is closed and empty and every dispatched message has reached its fate |
| `ConsumerShutdown.StepSound` | consumer/dispatch.go:152-240 | Every step of every goroutine keeps the invariant behind that, so no step panics |
| `ConsumerShutdown.NoSendOnClosed` | consumer/dispatch.go:166-173 | The polling loop only ever sends on an open channel |
| `ConsumerShutdown.AliveMeansWaiting` | consumer/dispatch.go:234-238 | While a worker or a visibility loop is alive the counter is positive and the wait has not returned, so adding to it never races with its reaching zero |
| `ConsumerProgress.DeadlockFree` | consumer/dispatch.go:175-193 | From every reachable state in which stop has not returned some goroutine can move, without waiting for a cancellation, even with every worker blocked on a full delete queue |
| `ConsumerProgress.CancelledRunsStop` | consumer/consumer.go:86-93 | From every reachable cancelled state, whatever happens next, at most Measure steps remain, and a run can go no further if and only if stop has returned |
| `ConsumerProgress.StepShrinks` | consumer/consumer.go:86-93 | After a cancellation every step strictly decreases the work left over queued messages, handles and remaining ticks |
| `ConsumerProgress.WorkerCanMove` | consumer/delete_batcher.go:73-78 | A worker with something to do can do it or, when it is blocked on the full delete queue, some sender can move |
| `ConsumerProgress.LoopCanMove` | consumer/visibility.go:106-113 | A visibility loop is never stuck: its limit, its call or its ticker lets it go on |
| `ConsumerPolling.KeepsPolling` | consumer/consumer.go:194-224 | From every reachable state that has not been cancelled some continuation without a cancellation brings the polling loop back to a receive request, in which any batch up to the limit can be received |
| `ConsumerPolling.StopsOnlyWhenCancelled` | consumer/consumer.go:178-182 | In every reachable state the polling loop has returned, or the shutdown begun, only if the run has been cancelled |
| `ConsumerPolling.StopsAtOnce` | consumer/consumer.go:226-241 | Once cancelled no receive request and no retry wait begins any more, and the top of the loop, a failed receive and a retry wait lead straight to the shutdown |
| `ConsumerBlocking.PollerBlockedIff` | consumer/dispatch.go:166-193 | The polling goroutine can do nothing if and only if stop has returned, or it holds a message for which no eligible channel has room and is not cancelled, or it waits for live workers or loops, or for live senders |
| `ConsumerBlocking.CanEnqueueIff` | consumer/dispatch.go:442-454 | The next message can go to every worker with room in Parallel mode, to that of its key if it has room in PerGroupID mode, and to no other |
| `ConsumerBlocking.WorkerBlockedIff` | consumer/dispatch.go:195-201 | A worker can do nothing if and only if its channel is empty and open, or it has a delete to commit and the delete queue is full |
| `ConsumerBlocking.SenderBlockedIff` | consumer/delete_batcher.go:88-112 | A sender can do nothing if and only if it waits on the empty, open channel |
| `ConsumerBlocking.SendsWhenFullOrDry` | consumer/delete_batcher.go:97-110 | A request is issued with the whole batch, and only when that has ten entries or nothing is queued |
| `ConsumerBlocking.NoMisuse` | consumer/dispatch.go:152-240 | In every reachable state no step that any goroutine can take sends on or closes a closed channel, adds to a wait group that has reached zero or takes it below zero |
| `ConsumerBlocking.PanicsIff` | consumer/delete_batcher.go:73-86 | A step of the model panics exactly when it is one of those |
| `Reference.WalkStep` | consumer/delete_batch_test.go:133-161 | One more dispatched message appends to the walk exactly its own commit and its own metric, decided by whether an earlier message of its batch and group fails |
| `Reference.WalkIsOutcomes` | consumer/delete_batch_test.go:539-579 | The batch-by-batch walk over what was dispatched is the sequence of the messages' own outcomes |
| `Reference.FailedSet` | consumer/delete_batch_test.go:133-161 | The failed set the walk has built for a batch is the groups of the failing messages dispatched in it, if groups are ordered, and empty otherwise |
| `Lifecycle.HandshakeLeavesNoLeak` | consumer/dispatch.go:225-227 | When process has let go of a message: a held one never started a loop; otherwise a loop at its select or in an extension call finds dispatch signalled, or the handler's backoff waiting in a mode that reads it |
| `Lifecycle.EndsAtSelect` | consumer/visibility.go:131-155 | At its select, a loop whose message is dispatched or whose run is cancelled can end at once, without another call |
| `Lifecycle.StopsPromptly` | consumer/visibility.go:106-113 | From any live state such a loop can end within two events, without another call |
| `Lifecycle.BackoffApplied` | consumer/visibility.go:151-153 | A waiting backoff can be read at a select within the limit, is sent clamped to [0, 43200], and the loop ends after that call |
| `Lifecycle.LoopSettles` | consumer/dispatch.go:225-227 | When process has let go of a message its live loop can end within three events, with no more calls, or with the one of the backoff that it still reads |
| `Lifecycle.AdvanceOk` | consumer/dispatch.go:228-362 | Every stage of process keeps the account of the signals, the stage and the calls of its message |
| `Lifecycle.MetricIs` | consumer/dispatch.go:313-402 | Which metric is emitted, exactly when: success, retry while the count is below the limit, dead letter from the limit on, exhaustion from the receive limit on |
| `Lifecycle.LoopStepOk` | consumer/visibility.go:119-164 | So does every event of its visibility loop, and it leaves the stage alone |
| `Lifecycle.AdvanceShrinks` | consumer/dispatch.go:228-362 | Every stage leaves less to do, a commit by more than the work it hands to a sender |
| `Lifecycle.LoopStepShrinks` | consumer/visibility.go:111-113 | Every event of a loop brings it nearer to its return |
| `Processing.Dispatcher.Process` | consumer/dispatch.go:228-272 | Run without interference, process starts a visibility loop, and leaves the signals, the barrier, the deletes and the metrics, where the stages of the step system do |
| `Processing.OutcomeIs` | consumer/dispatch.go:203-227 | The stages lead every message to the fate its handler and its API calls determine: held, left in the queue, retained, or deleted; with the documented signals |
| `Processing.Dispatcher.ProcessScheduled` | consumer/dispatch.go:313-362 | Given the recorded count and the outcome of the schedule or publish call: deletes on success and after a call that works, retains otherwise, with the success, retry or dead-letter metric of that branch, and always stops the visibility loop |
| `Orchestration.ProcessScheduled` | consumer/dispatch.go:313-362 | For every content of a message: parses the count, and on a failure with count+1 within the limit makes the schedule of the retry loop's step with the backoff of that count, beyond it the dead letter of that step, and retains if the call fails |
| `Orchestration.CreateSchedule` | consumer/retry_scheduler.go:91-131 | The schedule keeps body and group, carries a table with the new count, and fires at the truncated end of the backoff |
| `Orchestration.Publish` | consumer/dlq_publisher.go:56-78 | The dead letter keeps body and group and carries the dead-letter table with the final count |
| `Orchestration.AcceptedRoutes` | router/options.go:208-274 | Every configuration that the route options accept is covered |
| `Processing.Dispatcher.ObserveDLQ` | consumer/dispatch.go:377-402 | Emits the exhaustion metric and answers yes if and only if a limit is configured and the receive count has reached it |
| `Processing.Dispatcher.FailGroup` | consumer/dispatch.go:277-281 | Adds the group to the barrier exactly when groups are ordered |
| `Processing.Dispatcher.NewBatchBarrier` | consumer/dispatch.go:470-475 | A fresh empty barrier exactly when groups are ordered |
| `Processing.Dispatcher.RunBatch` | consumer/consumer.go:217-222 | One batch processed by one goroutine with a new barrier is the walk of that batch |
| `Processing.Dispatcher.Run` | consumer/consumer.go:194-224 | The polling loop over whatever its iterations meet, cancellations and failed receives included, run sequentially is the walk over the batches received before it returns |
| `Processing.PolledIs` | consumer/consumer.go:194-224 | What is polled is every batch received before the first cancellation met, and none after it |
| `Processing.WalkIsOutcome` | consumer/delete_batch_test.go:133-161 | The walk's treatment of one message is the fate, commit, metric and poisoning of process |
| `Processing.GroupBarrier.Fail` | consumer/barrier.go:28-35 | Adds one key, and does nothing on a nil barrier |
| `Processing.GroupBarrier.Failed` | consumer/barrier.go:39-47 | Whether the key is recorded; never on a nil barrier |
| `Processing.Message.Dispatch` | consumer/message.go:209-213 | Signals completion, any number of times, leaving the backoff state alone |
| `Processing.Message.Backoff` | consumer/message.go:224-227 | Marks the message at once; puts the delay in the one-place channel exactly when that is empty, and otherwise leaves it as it was and the call waiting |
| `Lifecycle.SlotEmptiedIff` | consumer/message.go:63-65 | Some events of the visibility loop empty a full backoff channel if and only if the model is not the scheduled one and the loop is at, or in a call before, a select within its limit: otherwise a waiting call never returns |
| `DeleteBatcher.FlushedExactlyOnce` | consumer/delete_batcher.go:80-86 | For every capacity, number of senders and interleaving: when close has returned, the entries of all requests are as a multiset exactly the handles enqueued, and every request has 1 to 10 of them |
| `DeleteBatcher.FlushRequestBound` | consumer/delete_batcher.go:88-112 | With K handles queued or being collected at the close, the S senders issue at least ceil(K/10) and at most ceil(K/10) + S - 1 further requests, and none for K = 0 |
| `DeleteBatcher.InOrder` | consumer/delete_batcher.go:73-78 | In every run what is queued are the last handles enqueued, in order |
| `DeleteBatcher.OldestFirst` | consumer/delete_batcher.go:96-105 | So a sender that receives puts the oldest handle not yet taken at the end of its batch |
| `DeleteBatcher.StepKeepsInv` | consumer/delete_batcher.go:93-112 | Every step keeps: enqueued equals queued plus held plus sent, at most capacity queued, at most ten held by a sender, and the count of requests since the close |
| `DeleteBatcher.SomeSenderCanMove` | consumer/delete_batcher.go:88-92 | With handles queued, the channel closed or work in hand, some sender that has not exited can move |
| `DeleteBatcher.WorkDecreases` | consumer/delete_batcher.go:80-86 | Sender steps strictly decrease the work left, an enqueue adds exactly three units and a close none, so close returns |
| `SenderLoop.Run` | consumer/delete_batcher.go:93-112 | One sender flushing a closed channel sends its handles in order, in full requests but the last: exactly ceil(n/10) of them |
| `SenderLoop.Drain` | consumer/delete_batcher.go:97-109 | A batch takes the handles from the front of the channel until it has ten or the channel is empty |
| `SenderLoop.PackedCount` | consumer/delete_batcher.go:88-92 | Requests that are all full but the last are as few as the limit of ten allows |
| `BatchResponse.BatchIndexExact` | consumer/delete_batcher.go:179-188 | An Id is accepted as index i if and only if i is in the batch and the Id is its canonical decimal |
| `BatchResponse.OtherFormsRejected` | consumer/delete_batcher.go:179-181 | "01", "+1" and "-0" parse to an index of the batch and are rejected all the same |
| `BatchResponse.BuildEntries` | consumer/delete_batcher.go:118-125 | Entry i carries the decimal of i and the i-th handle, and no two Ids are equal |
| `BatchResponse.ReportFailed` | consumer/delete_batcher.go:163-177 | A failed Id is reported with the handle sent under it, and raw exactly when no entry was sent under it |
| `BatchResponse.Send` | consumer/delete_batcher.go:118-144 | One report per handle if the request failed as a whole, none without an output, else one correctly attributed report per failed entry, in order |
| `Decimal.RoundTrip` | consumer/retry_scheduler.go:154-157 | Parsing the decimal text of any 64-bit integer gives that integer |
| `Decimal.ItoaInjective` | consumer/delete_batcher.go:114-125 | Different integers have different texts |
| `Decimal.ItoaIs` | consumer/retry_scheduler.go:154-157 | The text is a minus sign for a negative number and then digits, no leading zero, whose positional value in base ten is the magnitude |
| `Decimal.AtoiIff` | consumer/retrycount.go:25-32 | Exactly the texts of an optional sign and one or more digits whose positional value is within 64 bits parse, and to that value |
| `Visibility.ValuesExactIff` | consumer/visibility.go:156-161 | Tick k sends min(43200, k*timeout) for every k the limit allows if and only if (limit+1)*timeout fits in 32 bits |
| `Visibility.FirstOverflow` | consumer/visibility.go:156-161 | If some tick's extension does not fit in 32 bits there is a first such tick, all earlier ones fit, it is not the first tick of all, and it sends zero |
| `Visibility.ExtensionWraps` | consumer/visibility.go:156-161 | The k-th extension is k*timeout wrapped into 32 bits, however often it has wrapped |
| `Visibility.EventKeepsCalls` | consumer/visibility.go:119-164 | Whichever ready case a select takes, the calls made stay ticks in order, then at most one backoff call as the last |
| `Visibility.CallSequence` | consumer/visibility.go:119-164 | So the calls are the ticks in order, at most limit+1, and at most one call in [0, 43200] after them, none in scheduled mode; the tick values are exact, in range and non-decreasing if the extensions fit in 32 bits |
| `Visibility.Run` | consumer/visibility.go:119-164 | The loop over its two variables makes, for any picks of its selects, the calls of the step system, all of them accounted for |
| `Visibility.TicksUntilLimit` | consumer/visibility.go:123-162 | The loop neither stops early nor runs on: k ticks send the first min(k, limit+1) renewals, and a backoff picked before the limit follows them |
| `Visibility.ChangeVisibility` | consumer/visibility.go:169-180 | The value sent is the requested one if that is in range, else the nearer end of the range |
| `Visibility.CoverageIff` | consumer/visibility.go:93-164 | For 11 <= timeout <= 43200 and calls that take no time, in the run of the loop a message whose handler runs on stays hidden from the receive until the last of its limit+1 ticks runs out if and only if its worker starts less than ten seconds after the receive and the extensions fit in 32 bits |
| `Visibility.CoverageTight` | consumer/visibility.go:93-164 | If the extensions fit the message is no longer hidden at that end |
| `Visibility.WatchedIs` | consumer/visibility.go:119-164 | On an ideal clock the loop takes every tick up to its limit, and its calls hide the message until tick time plus the value sent |
| `Visibility.IntervalIs` | consumer/visibility.go:89-104 | Ticks are timeout - 10 seconds apart, and never less than one |
| `Visibility.LateStart` | consumer/visibility.go:89-104 | Started ten seconds late or more, it shows when its first timeout expires |
| `Visibility.Overflowed` | consumer/visibility.go:156-161 | With an extension that overflows, it shows before the last tick runs out |
| `GroupKey.Key` | consumer/dispatch.go:491-502 | The key is the group id and each configured field, native before envelope, joined by the separator |
| `GroupKey.ComponentsAre` | consumer/dispatch.go:492-500 | The group id comes first; a field's value is the native attribute if present and not empty, else the envelope's, and empty if neither has it |
| `GroupKey.JoinAppend` | consumer/dispatch.go:501 | The key is the components in order, each after the first behind one NUL |
| `GroupKey.UniqueIff` | consumer/dispatch.go:485-502 | A key belongs to one list of so many components, whatever another list contains, if and only if there is one component or none of them contains the separator |
| `GroupKey.IdentifiedIff` | consumer/dispatch.go:485-502 | For distinct fields and group ids free of the separator, a message's key tells it from every message with another group id or other field values if and only if there is at most one field or no value contains the separator |
| `GroupKey.IdentifiedIf` | consumer/dispatch.go:485-502 | One half of it also for fields that repeat |
| `GroupKey.JoinSeparators` | consumer/dispatch.go:501 | A key has one separator fewer than components if and only if the components have none, and never less |
| `GroupKey.SeparatorCollides` | consumer/dispatch.go:485-502 | Two messages of one clean group id with two custom fields, the separator in an envelope value of one, have different values and one key |
| `GroupKey.Index` | consumer/dispatch.go:477-483 | The key alone determines the worker, and it is one of the pool |
| `GroupKey.KnownHashes` | consumer/dispatch.go:477-483 | The hash agrees with the published FNV-1a values of the empty text, "a" and "foobar", and in a pool of seven "a" selects worker 5 |
| `Backoff.ComputeBackoff` | consumer/backoff.go:24-56 | For any arguments nothing overflows 64 bits, the result is the base doubled attempt-1 times within its bounds, and the doublings made are logarithmic in max over base |
| `Backoff.AcceptedIsExact` | router/options.go:208-274 | For every configuration the route accepts, its default applied, and every attempt from 1, the delay is exactly min(max, base * 2^(attempt-1)), between base and max |
| `Backoff.DelayOfAny` | consumer/backoff.go:21-23 | For any arguments: a maximum or base below 1ms counts as 1ms, a base above the maximum as the maximum, an attempt below 1 as the first |
| `Backoff.FirstBroken` | router/options.go:232-274 | The configuration problem reported is the first rule broken, in the order of the checks |
| `Backoff.DefaultOnlyWhenUnset` | router/options.go:218-220 | An unset base becomes one second; a configured one, and everything else, is kept |
| `Backoff.NonDecreasing` | consumer/backoff.go:10-13 | A later attempt never waits less, and every delay is at least a millisecond |
| `Backoff.FiresWithinASecond` | consumer/backoff.go:58-64 | The fire time is a whole second, not after now plus backoff and less than a second before it; it is in the future if the backoff is a second or more |
| `Backoff.FiresLaterIff` | consumer/backoff.go:58-64 | The fire time is still to come if and only if the backoff reaches the next whole second |
| `Backoff.AlwaysFiresLaterIff` | consumer/backoff.go:58-64 | It is so at every instant if and only if the backoff is a second or more |
| `Backoff.SubSecondCanFireInThePast` | consumer/backoff.go:58-64 | A witness: one millisecond of backoff half a second into a second fires half a second in the past |
| `Attributes.BuildRetryAttributes` | consumer/retry_scheduler.go:139-160 | For every iteration order: retry_count set to the new count, and beside it nine of the user attributes, or all if they are fewer, unchanged |
| `Attributes.BuildDLQAttributes` | consumer/dlq_publisher.go:84-111 | For every iteration order: retry_count set to the final count, and beside it the nine smallest user keys, or all if they are fewer, with unchanged values |
| `Attributes.DeadLetterTableUnique` | consumer/dlq_publisher.go:80-83 | That determines the table: the choice is deterministic |
| `Attributes.CountReadsBack` | consumer/retrycount.go:19-35 | The count set in a table, sent as a number, is the count a receiver parses from it; the table has at most ten attributes; those beside it are nine of the sender's or all if fewer, sent as strings with their values |
| `Attributes.CountIs` | consumer/retrycount.go:19-35 | An absent, empty, malformed, out-of-range or negative retry_count reads as 0, any other as its value |
| `Attributes.NothingDropped` | consumer/retry_scheduler.go:133-138 | All user attributes arrive if and only if there are nine or fewer |
| `Attributes.SortStrings` | consumer/dlq_publisher.go:91-98 | The distinct keys, each exactly once, in strictly increasing order |
| `Attributes.BelowIff` | consumer/dlq_publisher.go:91-98 | The order of the keys: at the first place where two differ the smaller character decides, and a key comes before its extensions |
| `RetryLoopSafety.NoLoss` | consumer/dispatch.go:313-362 | In every reachable state, under any mix of failed schedules, publishes, deletes and schedule deletes, repeated deliveries and repeated firings, a message that entered was handled successfully or has its most recently republished copy in the entry queue, a schedule or the DLQ |
| `RetryLoopSafety.BoundedRetries` | consumer/dispatch.go:316-355 | For entry count c0 and limit M, a copy carries c0 plus its republications; no queued or scheduled one exceeds max(c0, M), so a lineage has at most max(0, M-c0) schedules; a dead-lettered one carries exactly max(c0, M)+1 |
| `RetryLoopSafety.PayloadKept` | consumer/retry_scheduler.go:91-160 | Over any number of hops, the DLQ included: body and group unchanged, at most ten attributes with the count among them, and the user attributes are those that survived the first hop, unchanged: nine of the original ones, or all if they were fewer |
| `RetryLoopSafety.NeverEarly` | consumer/retry_scheduler.go:110-111 | A retry is back in the queue no earlier than one second before its backoff ends |
| `RetryLoopSafety.CanFireOnTime` | consumer/backoff.go:58-64 | In every reachable state a schedule whose backoff is over can fire |
| `RetryLoopSafety.FreshMessage` | consumer/dispatch.go:297-309 | A message that enters without a count carries its number of republications as its count, is scheduled up to the limit and dead-lettered with one more |
| `RetryLoopSafety.FirstRetryWaitsBase` | consumer/dispatch.go:316-322 | The first retry of a message without a count waits exactly the base and carries count 1 |
| `RetryLoopSafety.GivenUpComesBack` | consumer/dispatch.go:304-309 | A message given up before an outcome stays in the queue as it was and can be received again |
| `RetryLoopSafety.StepInv` | examples/localscheduler/main.go:150-203 | Every step of producer, workers and scheduler keeps all of this; a copy is deleted, and a fired schedule cleared, only once a newer copy or a success makes it redundant |
| `RetryLoopOnce.ExactlyOneCopy` | consumer/dispatch.go:320-358 | If no message is redelivered while a worker has it, no delete fails and no schedule fires twice, then whatever else fails a handled message has no live copy and any other exactly one |
| `RetryLoopOnce.HandledOnce` | consumer/dispatch.go:320-358 | In such a run a message whose outcome is still open has been neither handled nor dead-lettered before |
| `RetryLoopOnce.ExactlyOnceIff` | consumer/dispatch.go:415-422 | All states of a run have exactly one live copy of every open message, none of a handled one, and one worker at most on each, if and only if no step redelivers a message that a worker has, loses a delete after the outcome, or fires a schedule again |
| `RetryLoopOnce.StepOnceIff` | examples/localscheduler/main.go:150-203 | The same for one step |
| `RetryLoopProgress.Drains` | consumer/dispatch.go:313-362 | From every reachable state, a run without failures, redeliveries and new messages takes at most Work steps besides waiting; it can take no more, however long it waits, if and only if nothing is queued, scheduled or in a worker; and then every message that ever entered is handled or has its latest copy in the DLQ with the count of one out of retries |
| `RetryLoopProgress.ForwardShrinks` | examples/localscheduler/main.go:150-203 | Every step that brings a message further, a first receive, an outcome, a delete, a first firing or a clear, strictly decreases the work left |
| `RetryLoopProgress.CanMove` | examples/localscheduler/main.go:150-203 | Unless nothing is left, such a step can be taken, at the latest once a fire time has come |
| `RetryLoopOnce.FailedDeleteRepeats` | consumer/dispatch.go:415-422 | After a failed delete a message that was handled successfully is handled again |
| `RetryLoopOnce.StepOnce` | examples/localscheduler/main.go:150-203 | Every step other than those three keeps exactly one live copy of each open message and one worker at most on each |
| `RetryLoop.HopFaithful` | consumer/retry_scheduler.go:91-131 | One republication keeps body, group and surviving attributes and raises the parsed count by exactly one |
| `RetryLoop.RetryWaits` | consumer/dispatch.go:316-323 | The retry whose copy carries count k waits min(max, base * 2^(k-1)) from the failure, and fires at the last whole second of that wait |

## Left out

* `Processing.Dispatcher.Handle`: a handler is the outcome recorded in its message. It may dispatch the message itself and ask for one backoff, in that order. What it does, its middlewares and its panics are not modelled.
* `Processing.Dispatcher.Process`: the events of the visibility loop it starts, and the wait group, are in the step system; here nothing else runs meanwhile.
* `Processing.Dispatcher.ProcessScheduled`: takes the parsed count and the outcome of the call as recorded; `Orchestration.ProcessScheduled` has their contents.
* `Processing.Dispatcher.Run`: a message dropped by the select of dispatch after a cancellation is in the step system only.
* `Processing.Message.Backoff`: the waiting of a call that finds the channel full is its answer; the rest of such a handler is not modelled, and in the step systems a handler asks for one backoff.
* `GroupKey.IdentifiedIff`: for field lists that repeat a field only one half is stated, in `GroupKey.IdentifiedIf`; such a list can keep apart values that contain the separator.
* `Visibility.CoverageIff`: is about an ideal clock and calls that take no time and succeed; the SQS total of 12 hours since the receive is not modelled.
* `Attributes.SortStrings`: sorts a sequence of distinct keys by insertion; sort.Strings, in place on a slice, is a library function.
* `RetryLoopSafety.NoLoss`: assumes, like the code's addition, an incoming count below the largest machine integer, and that generated ids are fresh and distinct; SQS deduplication windows are not part of the model.
* `Backoff.AcceptedIsExact`: a route switched to the scheduled model without a scheduled configuration is not modelled.
* The concurrent behaviour is modelled on values, as step systems, because interleavings are the point; the classes show the same code updating its objects in place.
* The outcome of a message's handler and of its schedule or publish call is fixed when it is received. It is handled at most once per receipt, so no behaviour is lost.
* A message's position in the order of dispatch stands for its receipt handle in the consumer.
* In the consumer a synchronous delete is issued, and may fail; the retry loop has failed deletes as steps.
* The conversion of a backoff from a duration to 32-bit seconds: the slot holds the seconds after conversion.
* The metrics recorder is taken to be wired; a nil one emits nothing.
* The OnDLQ callback, logs, error texts and wrapping.
* AWS SDK calls, HTTP and JSON: an API call is a step that succeeds or fails, a schedule's payload a record.
* Calendar formatting of schedule expressions: times are integers.
* The fail-fast checks of the consumer's Run and the lookup of the queue URL.
* Schedules whose target is not the SendMessage API, and malformed expressions, which the local scheduler skips.
* Attributes without a string value, which the code omits when it reads them.
* The fairness of select: every ready case can be taken, so nothing here depends on it.
* The test override of the visibility interval.
* The broker and its shutdown timeout, connections, clients, producer, typed handlers, id generation, loggers and middlewares: wrappers, I/O, or claims about one loop.
