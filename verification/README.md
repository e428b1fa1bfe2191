# nos-event-service: a verified model

The service downloads Nostr events from many relays, stores each one, queues a message about it, and
processes the messages. This project models its stateful core in Dafny and proves what that core
promises over whole runs. `dafny verify dfyconfig.toml` checks everything.

Four clusters are modelled. Each has a specification made of values (functions, a step relation over a
state with history, lemmas) and, where the Go code updates objects in place, classes whose methods are
proved against that specification.

1. **Download scheduler** (`Contexts`, `Filters`, `TimeWindows`, `Trackers`, `SchedulerModel`,
   `SchedulerProperties`, `Generation`, `CatchUp`, `Generators`, `Passes`, `TaskSubjects`,
   `SubscriptionLists`, `RelayTaskModel`, `RelayTasks`). A relay's three generators cut time into
   one-minute windows and start one attempt at a time for each kind of query, each under its own
   cancellable context. `SchedulerModel` is a state machine whose steps are the clock, derived and
   cancelled contexts, the parts of `Generate`, and callbacks. A callback's check of its context and its
   marking of the tracker are two steps, and anything may come between them. `Passes` adds what a pass
   over the subscriptions does with the attempts: it collects them kind by kind, pushes them, gives up or
   fails. The classes in `Trackers`, `Generators` and `RelayTasks` follow the Go objects. In `RelayTasks`
   the clock, cancellations and callbacks come in between any two loops of a generator, before each send
   and before each subscription, and the methods are shown to be runs of `Passes`.
2. **Durable event pipeline** (`Backoff`, `Tables`, `Pipeline`, `PipelineProperties`, `DuplicateFilter`,
   `Storage`, `SaveHandler`, `ProcessHandler`, `Transactions`, `Contacts`, `ContactRepository`). Every
   transaction may commit, roll back, or commit while its caller is told an error; processes may crash;
   messages are redelivered; rows are cleaned up. In `ProcessHandler` time passes and other transactions
   run between any two steps of the handler and of the loop that feeds it. `Transactions` models the
   runner that makes transactions serial, with callers that leave early, and shows what a caller may
   conclude from what it is told. `Transactions.EachIsOneStep` is why `Pipeline` may treat a transaction as
   one step with one of three outcomes. `Contacts` has a book of what is stored and whose contacts event
   is current over any run of saves, deliveries and clean-ups, and the tables of `ContactRepository`, in
   which SQLite gives out the row ids of deleted rows again, are shown to answer as the book says.
3. **Relay connection bookkeeping** (`Subscriptions`, `Requests`). The REQ and CLOSE messages on the wire,
   the channels of the subscribers, and the table in which several senders share one event. The Go type
   `RelayConnection` appears as two classes, one for each of its two mutexes.
4. **Migrations** and **rate limiting** (`Migrations`, `RateLimit`). The runner over any number of runs
   with failing functions, failing storage and crashes; the int32 counter of rate-limit notices.

Instants are integer nanoseconds (`Clock`). Integer width is modelled where it decides the result: int64
durations in `Backoff`, the int32 counter in `RateLimit`. The clock, random numbers, fresh ids, failures
of I/O and the order in which Go iterates over a map are parameters or nondeterministic choices.

## Where the code differs from its documentation, or does less than it seems to

- The README of the service says that events tagging any user to monitor are downloaded, but a filter
  keeps only the last value of each tag name (service/domain/filter.go:42-48), so of several monitored
  keys only the last is asked for. `Filters.AllTagsAskedForIff` is the exact condition.
- "Delete each done subscription" (service/domain/downloader/scheduler.go:238-246) drops the result of
  `slices.DeleteFunc`. Nothing is deleted, and live subscriptions can be listed twice.
  `SubscriptionLists.CompactionKeepsLive` says exactly when the list is what the comment says.
- "OnRunning is only called when a migration is actually being executed"
  (internal/migrations/migrations.go:26) does not hold when the state cannot be loaded.
  `Migrations.OnRunningWithoutExecution` is the exact condition.
- An id enters the duplicate filter before its transaction has ended
  (service/app/handler_save_received_event.go:119), so after a rollback the filter may hold an id that is
  not stored, and the event is dropped when it is received again. `SaveHandler.SoundnessKeptIff` is the
  exact condition.
- `MaybeStart` returns an error for a finished tracker as if that could not happen. An EOSE between
  pruning and starting makes it happen (`SchedulerProperties.EoseBetweenPruneAndStart`), and the call then
  drops the attempts that it has started for the kinds before (`Passes.EoseDropsAttempt`).
  `Passes.DroppedIff` is the exact condition. Nobody works on a dropped attempt, and its kind stands still
  for as long as its context lives (`Passes.DroppedBlocksKind`).
- A queued message can outlive its event; it is then nacked for ever (`PipelineProperties.StrandedForever`).
  A rolled-back ack is one way to get there (`PipelineProperties.AckLostThenCleanedUp`); a marking that was
  reported as an error and a backoff longer than the retention are others. `PipelineProperties.StrandsIff`
  is the exact condition for a step and `PipelineProperties.StrandedByCleanup` for a run.
- Clean-up deletes event rows that `contacts_events` points to, so that "newest wins" fails when an older
  contacts event is delivered again (`Contacts.OlderComesBack`). `Contacts.NewestWinsIff` is the exact
  condition over runs with clean-ups, and `ContactRepository.ContactsHandler.Changes` ties it to the tables.
  The followees of a deleted event stay until the next one is processed.
- The row id of a deleted event can be given to another event (`Contacts.RowIsUsedAgain`). That one is then the
  current event of the author whose link points to the row, whosever and of whatever kind it is. If it is another
  author's contacts event, that one's own link is refused; if it is of another kind, the first author's contacts
  events fail to be processed until it is deleted (`Contacts.BlockedByOtherKind`). `Contacts.KeepsTheRuleIff` is
  the exact condition over runs, `ContactRepository.StoringKeepsCurrentIff`, `ContactRepository.LinkIsFreeIff`
  and `ContactRepository.DanglesAtNextIff` are those of single steps.
- `SendEvent`'s first caller for an event may give up before it hands the event to the sending loop; the
  callers behind it then wait for an event that is not sent on this connection
  (`Requests.FirstMayGiveUp`). `Requests.NotHandedIff` is the exact condition.

## Model

| member | source | states |
|---|---|---|
| Contexts.LiveAfterWithCancel | service/domain/downloader/time_window_task.go:80-84 | deriving a context changes no other context's liveness; the new one is live iff its parent is |
| Contexts.LiveAfterCancel | service/domain/downloader/time_window_task.go:76-78 | cancelling ends exactly the context and its descendants |
| Contexts.ContextTree.Derive | service/domain/downloader/time_window_task.go:80 | appends a live child and returns its number |
| Contexts.ContextTree.CancelContext | service/domain/downloader/time_window_task.go:48 | marks one context cancelled |
| Filters.NewFilter | service/domain/filter.go:15-71 | the loops compute the filter, with ids, kinds and authors as given and bounds cut to seconds; error iff both bounds are given and since is not before until |
| Filters.BoundsAreKept | service/domain/filter.go:54-66 | a second is within the bounds iff no given bound is past it |
| Filters.LastTagWins | service/domain/filter.go:42-48 | the value kept for a tag name is that of its last occurrence |
| Filters.TagNamesKept | service/domain/filter.go:42-48 | the names kept are exactly those given |
| Filters.AllTagsAskedForIff | service/domain/filter.go:42-48 | every tag given is asked for iff no name comes with two values |
| Filters.FirstOfTwoProfilesIsLost | service/domain/downloader/scheduler.go:228-236 | with two monitored keys only the second key's events are asked for |
| TimeWindows.BoundarySecond | service/domain/downloader/time_window.go:33-44 | truncation shifts all window boundaries alike |
| TimeWindows.CoveringWindowsAre | service/domain/filter.go:54-66 | exactly which of n windows' filters match a given second |
| TimeWindows.SecondsCovered | service/domain/downloader/time_window_task.go:64-71 | every second from first since to last until is matched, by at most two windows, by two iff it is an inner boundary |
| Trackers.TimeWindowTaskTracker.constructor | service/domain/downloader/time_window_task.go:32-38 | a new tracker has no context and is new |
| Trackers.TimeWindowTaskTracker.CheckIfDoneAndEnd | service/domain/downloader/time_window_task.go:40-50 | true iff done, and then the attempt's context is cancelled |
| Trackers.TimeWindowTaskTracker.MaybeStart | service/domain/downloader/time_window_task.go:52-88 | error, nothing or a new attempt as the specification says, superseded contexts cancelled first, everything else unchanged |
| Trackers.TimeWindowTaskTracker.MarkAsDone | service/domain/downloader/time_window_task.go:90-97 | a started tracker becomes done, any other stays as it is |
| Trackers.TimeWindowTaskTracker.MarkAsFailed | service/domain/downloader/time_window_task.go:99-106 | a done tracker stays so, any other becomes failed |
| Trackers.TimeWindowTask.OnReceivedEOSE | service/domain/downloader/time_window_task.go:144-148 | marks done iff the attempt's context is live |
| Trackers.TimeWindowTask.OnError | service/domain/downloader/time_window_task.go:150-154 | marks failed iff the attempt's context is live |
| SchedulerModel.StartLive | service/domain/downloader/time_window_task.go:76-84 | after a start the superseded attempt's context is dead and no dead context came to life |
| SchedulerModel.ExtendTiled | service/domain/downloader/scheduler.go:375-396 | one more window keeps the tiling gapless and behind the clock |
| SchedulerModel.InvPrune | service/domain/downloader/scheduler.go:348-350 | dropping a done tracker keeps the invariant, its context being cancelled |
| SchedulerModel.InvStart | service/domain/downloader/scheduler.go:362-371 | starting an attempt keeps the invariant |
| SchedulerModel.InvMark | service/domain/downloader/time_window_task.go:90-106 | a late mark, whatever came after its check, keeps the invariant |
| SchedulerModel.InvNext | service/domain/downloader/scheduler.go:344-396 | every step keeps the invariant |
| SchedulerProperties.WindowConservation | service/domain/downloader/scheduler.go:344-396 | in every run windows 0..n-1 of the tiling are each either finished or tracked, once; the next is n; a window is finished only after an EOSE at a live context for that window |
| SchedulerProperties.OneLiveAttemptPerKind | service/domain/downloader/scheduler.go:170-180 | at most one live attempt of a kind |
| SchedulerProperties.ConcurrencyBound | service/domain/downloader/scheduler.go:160-180 | in every run at most three live attempts per relay, over all subscriptions |
| SchedulerProperties.StartFailsOnlyWhenDone | service/domain/downloader/time_window_task.go:56-62 | starting fails iff the tracker is done, and starts an attempt iff it is neither done nor running |
| SchedulerProperties.EoseBetweenPruneAndStart | service/domain/downloader/scheduler.go:348-366 | a concrete run in which an EOSE between pruning and starting makes the start fail |
| SchedulerProperties.OnceDeadAlwaysDead | service/domain/downloader/time_window_task.go:108-120 | an attempt whose context is dead stays dead |
| SchedulerProperties.MarkDecides | service/domain/downloader/time_window_task.go:90-106 | after a callback, however late, the next start fails iff the window is finished: it was before, or the callback is an EOSE and the attempt had not failed; otherwise it is tried again and the old attempt is over |
| SchedulerProperties.ErrorIsRetried | service/domain/downloader/time_window_task.go:99-106 | an error of a live attempt makes the next start try the same window again |
| SchedulerProperties.EoseFinishesWindow | service/domain/downloader/scheduler.go:344-373 | an EOSE of a live attempt that has not failed ends it, drops its tracker, and the next window is issued iff one remains |
| SchedulerProperties.LeavingFreesWindows | service/domain/downloader/time_window_task.go:108-120 | when a subscriber leaves, every attempt below its context is over and its unfinished window can be started again for another subscriber |
| SchedulerProperties.GrowUsesOne | service/domain/downloader/scheduler.go:375-396 | a window is issued iff one remains, and uses up exactly one |
| SchedulerProperties.MinutesBringWindows | service/domain/downloader/scheduler.go:379-387 | with every minute that passes one more window remains to be issued |
| SchedulerProperties.IssuedWindowsLag | service/domain/downloader/scheduler.go:379-387 | in every run no issued window ends later than one window before now |
| Passes.PassInvNext | service/domain/downloader/scheduler.go:224-307 | every move of a pass, and everything that other goroutines do meanwhile, keeps each attempt in exactly one of the accounts: pending, sent, dropped or abandoned with a dead context |
| Passes.UnsentIffDropped | service/domain/downloader/scheduler.go:264-307 | between two calls, however they were disturbed, a live attempt was not handed to a subscriber iff a failed call dropped it |
| Passes.DropsIff | service/domain/downloader/scheduler.go:284-304 | a move drops an attempt iff it reaches the start of a kind's kept tracker that is done while the call holds the attempt for an earlier kind |
| Passes.DroppedIff | service/domain/downloader/scheduler.go:284-304 | over every run: an attempt is dropped iff some move of the run does that |
| Passes.EoseDropsAttempt | service/domain/downloader/scheduler.go:344-373 | a concrete run from the start in which an EOSE within a call drops a live attempt |
| Passes.LiveAttemptBlocksKind | service/domain/downloader/time_window_task.go:52-66 | over every run, while an attempt's context lives, no window of its kind is issued and no attempt of its kind is started |
| Passes.DroppedBlocksKind | service/domain/downloader/scheduler.go:284-304 | while a dropped attempt's context lives nobody works on it and its kind stands still, in whatever passes follow |
| Passes.PassIsRun | service/domain/downloader/scheduler.go:224-307 | every run of passes is a run of the scheduler, so that what holds over the scheduler's runs holds over it |
| Generation.GenerateIsRun | service/domain/downloader/scheduler.go:344-373 | an undisturbed Generate never fails and is a run of single steps |
| CatchUp.GenerateKeepsBusy | service/domain/downloader/scheduler.go:344-373 | after an undisturbed Generate exactly one attempt of the kind is live if there is work, else none |
| CatchUp.PromptRoundIssuesOne | service/domain/downloader/scheduler.go:344-373 | a round of Generate and EOSE issues one window if one remains, and leaves all done |
| CatchUp.PromptRoundsIssue | service/domain/downloader/scheduler.go:344-396 | n rounds at a fixed clock issue min(n, remaining) windows |
| CatchUp.NewGeneratorIssuesFifteen | service/domain/downloader/scheduler.go:318-336 | a new generator issues exactly the fifteen windows from 16 minutes to 1 minute ago and stops |
| Generators.TimeWindowTaskGenerator.constructor | service/domain/downloader/scheduler.go:318-337 | starts with the window sixteen minutes ago and no trackers |
| Generators.TimeWindowTaskGenerator.MaybeGenerateNewTracker | service/domain/downloader/scheduler.go:375-396 | a tracker for the last window and the window advanced, iff it ended a window ago |
| Generators.TimeWindowTaskGenerator.DropDone | service/domain/downloader/scheduler.go:348-350 | keeps the trackers that are not done, in order, cancelling the others' contexts |
| Generators.TimeWindowTaskGenerator.AddTrackers | service/domain/downloader/scheduler.go:352-360 | fills up to the concurrency with new trackers |
| Generators.TimeWindowTaskGenerator.StartTrackers | service/domain/downloader/scheduler.go:362-372 | starts what is dead, in order, returning the attempts, and stops at the first failure |
| Generators.TimeWindowTaskGenerator.Generate | service/domain/downloader/scheduler.go:344-373 | the object's new state, contexts and result are those of the specification |
| SubscriptionLists.CompactionKeepsLive | service/domain/downloader/scheduler.go:238-246 | whatever the contexts answer while the loop runs, no subscription found live is lost, none is invented, and the slice is the live ones iff none was found done |
| SubscriptionLists.CompactionExamples | service/domain/downloader/scheduler.go:238-246 | a live subscription behind a dead one is listed twice, a dead one behind a live one stays |
| SubscriptionLists.LiveOnesInOrder | service/domain/downloader/scheduler.go:238-246 | the live subscriptions keep their order |
| TaskSubjects.AskedByMeans | service/domain/downloader/scheduler.go:281-307 | what each kind asks for, spelled out: the given event kinds by anybody; everything by the authors, if there are any; what the tags ask for, if there are any |
| TaskSubjects.QueryAsksFor | service/domain/downloader/scheduler.go:224-236 | with the public keys put in: kinds 0, 2, 3 and 10002; the authors; the last one of the tagged keys |
| RelayTasks.ProfileTags | service/domain/downloader/scheduler.go:228-236 | one p tag per key, in order; error iff a key is empty |
| RelayTasks.RelayTaskGenerator.constructor | service/domain/downloader/scheduler.go:182-214 | three separate generators in the initial state, each with its own reading of the clock |
| RelayTasks.RelayTaskGenerator.AddSubscription | service/domain/downloader/scheduler.go:216-222 | appends the subscription |
| RelayTasks.RelayTaskGenerator.CallbackChecks | service/domain/downloader/time_window_task.go:144-154 | a callback's look at its context, at any moment, is the Check move of the pass machine: it goes on iff the context is live |
| RelayTasks.RelayTaskGenerator.CallbackMarks | service/domain/downloader/time_window_task.go:90-106 | its marking of the tracker, at any later moment, is the Mark move |
| RelayTasks.RelayTaskGenerator.Others | service/domain/downloader/downloader.go:335-379 | any number of ticks, cancellations, derived contexts and callbacks of sent attempts: a run of moves that starts, sends and drops nothing and leaves the lists of trackers alone |
| RelayTasks.RelayTaskGenerator.StartKind | service/domain/downloader/scheduler.go:362-372 | the start of the kept tracker as a move of the pass machine: fails iff that was marked as done since it was looked at; otherwise its context is live then, or the subscription's is done, and the attempt started, if any, is added to the result |
| RelayTasks.RelayTaskGenerator.KindToPush | service/domain/downloader/scheduler.go:284-302 | one kind's Generate with anything happening between its loops: the kind is busy at some moment of it, that is, its kept tracker has a live context, or no window remains to be issued, or the subscription's context is done; or it fails, and then its tracker was not done at one moment of the call and done at a later one |
| RelayTasks.RelayTaskGenerator.GetTasksToPush | service/domain/downloader/scheduler.go:281-307 | while anything happens outside: a run of the pass machine in which the kinds that there are keys for were busy, returning exactly the attempts of this call, each asking for its kind's subject; or an error for a tracker that was marked as done in the middle of the call |
| RelayTasks.RelayTaskGenerator.DeliverOne | service/domain/downloader/scheduler.go:270-277 | sends the attempt through the channel, or gives up, which it does only if the subscription's context is done |
| RelayTasks.RelayTaskGenerator.Deliver | service/domain/downloader/scheduler.go:270-278 | with anything happening before each send: a prefix of the attempts is sent, in order; all of them, or the context is done |
| RelayTasks.RelayTaskGenerator.PushTasks | service/domain/downloader/scheduler.go:264-279 | while anything happens outside: without an error every kind that is wanted was busy for the subscription; what is sent goes through its own channel, the count is that of the attempts, an error means that its context is done or that a tracker was marked as done in the middle of the call |
| RelayTasks.RelayTaskGenerator.DeleteDone | service/domain/downloader/scheduler.go:238-246 | what Go 1.21's in-place loop leaves in the slice, contexts ending while it runs |
| RelayTasks.RelayTaskGenerator.PushToAll | service/domain/downloader/scheduler.go:248-261 | one subscription after the other is served so, all of them unless one's context is done or its call fails; true iff something was sent |
| RelayTasks.RelayTaskGenerator.SendOutTasks | service/domain/downloader/scheduler.go:224-262 | one pass over the compacted list, while anything happens outside: the subscriptions before an error, all without one, are served with the kinds that there are keys for; a live attempt is unsent iff it was dropped; each sent one hangs below the context of the subscriber it was sent to; the queries are for kinds 0, 2, 3 and 10002, for everything by the authors, and for the last tagged key; true iff something was sent; errors only for an empty key, a done context, or a tracker marked as done in the middle of a call |
| Backoff.WrappedMultiple | service/adapters/sqlite/pubsub.go:375 | a wrapped multiple of 2^43 is not positive or at least 2^43 |
| Backoff.LargePowersOverflowSafely | service/adapters/sqlite/pubsub.go:374-390 | past 2^34 seconds the wrapped product is not positive or larger than every maximum, whichever way the float conversion overflows |
| Backoff.MessageErrorBackoffExact | service/adapters/sqlite/pubsub.go:374-379 | for every n >= 1 the backoff before jitter is min(4^(n-1), 3600) seconds |
| Backoff.NoMessagesBackoffExact | service/adapters/sqlite/pubsub.go:384-390 | for every n >= 1 the pause is min(2^(n-1), 30) seconds |
| Backoff.JitterWithinTenPercent | service/adapters/sqlite/pubsub.go:380-381 | with jitter the backoff is positive and within ten percent, up to one nanosecond below, whatever the roundings to float64 |
| Pipeline.InvSave | service/app/handler_save_received_event.go:85-126 | saving with its message, whatever the outcome, keeps the invariant |
| Pipeline.InvMark | service/app/handler_process_saved_event.go:97-104 | marking, whatever the outcome, keeps the invariant, so a delivery that ends well relies on nothing unprocessed |
| Pipeline.InvAck | service/adapters/sqlite/pubsub.go:287-295 | removing the message of a delivery that ended well keeps the invariant |
| Pipeline.InvNack | service/adapters/sqlite/pubsub.go:297-330 | nacking keeps the invariant, also when the message is gone |
| Pipeline.InvCleanup | service/adapters/sqlite/event_repository.go:165-181 | clean-up keeps the invariant |
| Pipeline.InvNext | service/ports/sqlitepubsub/event_saved.go:73-84 | every step of the protocol keeps the invariant |
| PipelineProperties.AcceptedEventsAreNotForgotten | service/app/handler_process_saved_event.go:75-107 | in every run an accepted event is completely handled or stored unprocessed, and then queued with a message that no finished delivery is about to remove |
| PipelineProperties.AckIsHarmless | service/adapters/sqlite/pubsub.go:243-247 | an ack never removes the message an unprocessed event depends on |
| PipelineProperties.SavedIff | service/app/handler_save_received_event.go:85-126 | in every run: exactly which saves store an event; it is then unprocessed and has one new message about it |
| PipelineProperties.OnlySavesStore | service/adapters/sqlite/event_repository.go:23-37 | nothing but a save of an event stores it |
| PipelineProperties.DueIff | service/adapters/sqlite/pubsub.go:258-265 | in every run a queued message is delivered when read iff it was never nacked or its latest backoff is over, to the second, and delivers the event it announces |
| PipelineProperties.DueEventCanBeFinished | service/app/handler_process_saved_event.go:75-107 | from every state that a run can come to, a due message whose event is stored can be handled at once: the event is marked as processed now, the message acked, and nothing else changes |
| PipelineProperties.CrashLosesOnlyDeliveries | service/adapters/sqlite/pubsub.go:234-254 | a crash or an ended context loses deliveries and nothing else: a message that is due is delivered again |
| PipelineProperties.SettlingDoes | service/adapters/sqlite/event_repository.go:151-163 | a marking or an ack has its effect iff it is not rolled back |
| PipelineProperties.NacksCounted | service/adapters/sqlite/pubsub.go:304-323 | in every run the recorded nacks are the committed nack steps |
| PipelineProperties.QueueIsConserved | service/adapters/sqlite/pubsub.go:202-358 | in every run committed messages are the disjoint union of queued and acked ones, topic and payload unchanged, nack_count the number of committed nacks |
| PipelineProperties.AckedStaysAway | service/adapters/sqlite/pubsub.go:287-295 | an acked message is never read again |
| PipelineProperties.NackedNotReadEarly | service/adapters/sqlite/pubsub.go:258-265 | a nacked message is not read more than a second before its latest backoff ends |
| PipelineProperties.NackBacksOff | service/adapters/sqlite/pubsub.go:309-323 | a committed nack backs the message off for min(4^k, 3600) seconds within ten percent, k its nacks before, float64 roundings included |
| PipelineProperties.DeletionIsSafe | service/app/handler_cleanup_processed_events.go:40-58 | an event disappears only by clean-up, only after a run of the handler completed, only more than an hour after its latest marking |
| PipelineProperties.CleanupBounds | service/adapters/sqlite/event_repository.go:165-181 | an hour and a second after its marking a processed event is deleted, up to an hour after it is kept |
| PipelineProperties.StrandedForever | service/adapters/sqlite/pubsub.go:297-307 | a message without its event is never acked unless the event is saved again |
| PipelineProperties.AckLostThenCleanedUp | service/adapters/sqlite/pubsub.go:243-247 | a concrete run that leads to such a message |
| PipelineProperties.StrandsIff | service/adapters/sqlite/event_repository.go:165-181 | a step takes the event from under a queued message iff it is a committed clean-up whose cutoff is past the latest marking of the processed event |
| PipelineProperties.StrandedByCleanup | service/app/handler_cleanup_processed_events.go:40-58 | over every run: a queued message is without its event iff such a clean-up took it and the event was not stored again |
| Transactions.Serial | service/adapters/sqlite/sqlite.go:153-196 | in every interleaving the database is what the committed callbacks make of it in order, none twice |
| Transactions.WhatCallersKnow | service/adapters/sqlite/sqlite.go:136-151 | success means committed and a transaction error not committed, for ever; a context error before the hand-over means never committed |
| Transactions.OutcomesAreFinal | service/adapters/sqlite/sqlite.go:136-196 | once its transaction is over, committed, rolled back and committed-but-reported-as-error are final; success is told exactly for the first, a transaction error only for the second |
| Transactions.NextTurnIsAfterAll | service/adapters/sqlite/sqlite.go:153-169 | when a transaction is taken the fate of all earlier ones is decided, also of those whose callers left |
| Transactions.EachIsOneStep | service/adapters/sqlite/sqlite.go:136-196 | a run with callers that leave early takes the database through the same states as one in which each transaction handed over is one atomic step with its final outcome |
| Transactions.ToldBeforeLater | service/adapters/sqlite/sqlite.go:136-151 | in that order of atomic steps a transaction whose caller was told its result comes before all that are submitted later |
| Transactions.ContextErrorIsAmbiguous | service/adapters/sqlite/sqlite.go:145-150 | told a context error, a caller's transaction may still commit or never commit |
| Transactions.TransactionRunner.RunTask | service/adapters/sqlite/sqlite.go:171-196 | the Finish step of the machine: the callback's effect iff begin, callback and commit succeed, an error otherwise |
| Transactions.TransactionRunner.Serve | service/adapters/sqlite/sqlite.go:157-167 | a call's transaction is taken and run, its effect is there iff it had no error, and the caller is told its own result unless that one's context, or the loop's, is over |
| Transactions.TransactionRunner.TakeTurn | service/adapters/sqlite/sqlite.go:153-169 | one turn: somebody who offers is served, nobody is only if nobody offers at that moment, or the loop's context ends |
| Transactions.TransactionRunner.RunTasks | service/adapters/sqlite/sqlite.go:153-169 | the loop, with callers that come, expire and leave at any moment and a loop context that may end, is a run of the machine: a turn serves some call if one is on offer, and the loop ends only with its context; the calls served are taken one by one and those without an error committed in this order |
| DuplicateFilter.ReportedForAnInterval | service/domain/bloom/filter.go:42-67 | an added id is reported until the clock is a rotation interval past its Add |
| DuplicateFilter.HeldAreTwoGenerations | service/domain/bloom/filter.go:51-67 | the ids held are exactly those added in this generation or the one before |
| DuplicateFilter.ReportedIff | service/domain/bloom/filter.go:51-56 | an id is reported iff it was added in this generation or the one before |
| DuplicateFilter.ForgottenAfterTwoIntervals | service/domain/bloom/filter.go:42-67 | an id is forgotten at the latest when two Adds follow its last one at intervals |
| DuplicateFilter.EventFilter.AddId | service/domain/bloom/filter.go:42-48 | rotates if due, then adds to the current filter |
| DuplicateFilter.EventFilter.MaybeRotate | service/domain/bloom/filter.go:60-67 | at an interval or more after the last rotation the current filter becomes the previous one |
| DuplicateFilter.EventFilter.ContainsId | service/domain/bloom/filter.go:51-56 | true iff held or colliding |
| Storage.Database.Save | service/adapters/sqlite/event_repository.go:23-37 | a new row, or an existing one that keeps its processed_at |
| Storage.Database.Mark | service/adapters/sqlite/event_repository.go:151-163 | sets processed_at of an existing row to the second, changes nothing otherwise |
| Storage.Database.DeleteProcessed | service/adapters/sqlite/event_repository.go:165-181 | removes exactly the rows processed before the second, and counts them |
| Storage.Database.PublishTx | service/adapters/sqlite/pubsub.go:347-358 | inserts the message, fails iff the uuid is taken |
| Storage.Database.ReadMsg | service/adapters/sqlite/pubsub.go:258-285 | some message of the topic that is due, none iff every one is backed off past this second |
| Storage.Database.Finish | service/adapters/sqlite/sqlite.go:182-195 | a failed body or commit puts the tables back |
| SaveHandler.SaveReceivedEventHandler.HandleEvent | service/app/handler_save_received_event.go:56-131 | tables, filter and error are those of the specification |
| SaveHandler.SaveReceivedEventHandler.SaveInTransaction | service/app/handler_save_received_event.go:85-126 | the transaction's body step by step, with the filter filled before the commit |
| SaveHandler.StoredIff | service/app/handler_save_received_event.go:74-126 | exactly when an event is stored with its message, what the tables then are, and exactly when its id is in the filter afterwards |
| SaveHandler.ErrorIff | service/app/handler_save_received_event.go:85-131 | exactly when the caller is told of an error |
| SaveHandler.SuccessMeans | service/app/handler_save_received_event.go:70-131 | without an error the event was filtered out, is not wanted, or is stored |
| SaveHandler.SoundnessKeptIff | service/app/handler_save_received_event.go:119 | a filter that holds only stored ids stays so iff no rollback follows its Add |
| SaveHandler.FilterIsOnlyAShortcut | service/app/handler_save_received_event.go:74-83 | without such rollbacks and collisions the tables end up as without the filter, row for row and message for message |
| SaveHandler.PublishedExactlyOnce | service/app/handler_save_received_event.go:91-123 | over any sequence of events each stored event has exactly one message and each message a stored event |
| SaveHandler.RollbackThenDropped | service/app/handler_save_received_event.go:119 | after such a rollback the event is dropped when received again |
| SaveHandler.HandleIsASaveStep | service/app/handler_save_received_event.go:56-131 | the handler's effect on the tables is a Save step of the pipeline |
| ProcessHandler.Surroundings.Others | service/app/handler_save_received_event.go:85-126 | any number of ticks, saves and clean-ups is a run of the pipeline |
| ProcessHandler.ProcessSavedEventHandler.Handle | service/app/handler_process_saved_event.go:75-107 | every way through the handler, whatever others do between its steps, is a run of the pipeline; success iff every step succeeded and the marking's commit was reported |
| ProcessHandler.ProcessSavedEventHandler.MaybeSendEventToRelay | service/app/handler_process_saved_event.go:194-218 | replaced and invalid events count as sent |
| ProcessHandler.ReceivedMessage.Ack | service/adapters/sqlite/pubsub.go:72-83 | succeeds iff neither acked nor nacked before |
| ProcessHandler.ReceivedMessage.Nack | service/adapters/sqlite/pubsub.go:85-96 | succeeds iff neither acked nor nacked before |
| ProcessHandler.Subscriber.DeliverOne | service/adapters/sqlite/pubsub.go:234-254 | reading, handling and settling one message, with time passing and other transactions in between, is a run of the pipeline that ends with the step the handler's result asks for, or with the context's end, and leaves no delivery behind; the handler's result is decided by its circumstances and by whether the event was there when it looked |
| ProcessHandler.Subscriber.Settle | service/ports/sqlitepubsub/event_saved.go:73-84 | success is acked, failure nacked, as the pipeline's steps say |
| ProcessHandler.Subscriber.NackMessage | service/adapters/sqlite/pubsub.go:297-330 | nack_count and backoff_until of an existing message, nothing if it is gone |
| ProcessHandler.Subscriber.TakeTurn | service/adapters/sqlite/pubsub.go:209-254 | one turn: an error iff the table cannot be read, nothing iff no message is due at that moment, otherwise one delivery of a due message |
| ProcessHandler.PausesAre | service/adapters/sqlite/pubsub.go:202-256 | which pauses the loop makes: 1, 2, 4, 8, 16 and then 30 seconds for the turns without a message since the last delivery, one second for a failed read |
| ProcessHandler.Subscriber.Subscribe | service/adapters/sqlite/pubsub.go:202-256 | the loop, with anything happening at any moment until its context ends, is a run of the pipeline and keeps its invariant; each turn's result is what it found when it looked; the k-th empty read since a delivery is followed by min(2^(k-1), 30) seconds, a failed read by one |
| ProcessHandler.CleanupProcessedEventsHandler.Handle | service/app/handler_cleanup_processed_events.go:40-69 | the clean-up step with the cutoff an hour before the clock was read, some time before the transaction, and the number of rows deleted |
| Contacts.ParsedKeyIs | service/domain/public_key.go:15-27 | a key is exactly 64 hexadecimal digits, kept as the same bytes in small letters |
| Contacts.SameKeyIff | service/domain/public_key.go:15-27 | two strings are the same key iff they are the same bytes, whatever the case of their letters |
| Contacts.ExtractFromContacts | service/domain/contacts.go:25-56 | the valid keys of the p tags, each once; none for kinds other than 3 |
| Contacts.CurrentIsNewest | service/app/handler_process_saved_event.go:182-192 | over any sequence of processed events the current event is a newest contacts event of the author, and exists iff one was processed |
| Contacts.ContactsConverge | service/domain/contacts.go:58-63 | the same events in any order with repetitions leave the same newest event if the author's times differ |
| Contacts.TiesGoToTheFirst | service/domain/contacts.go:62 | of events with the same time the one processed first stays |
| Contacts.CurrentSince | service/app/handler_process_saved_event.go:182-192 | over every run with saves, deliveries and clean-ups: the current event is a newest one of those processed since the last clean-up that took the author's current event, and there is none iff none was |
| Contacts.NewestWinsIff | service/app/handler_process_saved_event.go:182-192 | it is a newest one of the whole run iff a newest one was processed since then |
| Contacts.NewestWinsWithoutCleanup | service/app/handler_process_saved_event.go:182-192 | in every run without clean-ups the current event is a newest one of the whole run, and exists iff one was processed |
| Contacts.ConvergeSince | service/domain/contacts.go:58-63 | runs in which the same events were processed since then agree, if these have distinct times |
| Contacts.FolloweesOfCurrent | service/adapters/sqlite/contact_repository.go:63-102 | in every run the followees are those of the current event, as long as there is one |
| Contacts.KeepsTheRuleIff | service/adapters/sqlite/migrations.go:30-34 | what happens to the book over a run is from first to last what the newest-wins rule says iff no event is stored in a row that an author's link still points to |
| Contacts.BlockedByOtherKind | service/domain/contacts.go:58-63 | once such a row was filled with an event of another kind, every contacts event of that author fails to be processed, whatever is delivered, until that event is deleted |
| Contacts.NothingDanglesWithoutCleanup | service/adapters/sqlite/event_repository.go:23-37 | in a run without clean-ups no event is stored in a row that an author's link points to |
| Contacts.RowIsUsedAgain | service/adapters/sqlite/migrations.go:30-34 | the run that stores, processes and cleans up an author's only event: the next event gets the row that the link points to and becomes the author's current event, and if it is another author's contacts event, processing it fails |
| Contacts.OlderComesBack | service/app/handler_process_saved_event.go:182-192 | a concrete run: the newest event is cleaned up, an older one is delivered again and becomes current |
| ContactRepository.CleanupForgetsIff | service/adapters/sqlite/contact_repository.go:107-126 | deleting event rows changes an author's current event iff it is among them, and then to none |
| ContactRepository.LinkIsFreeIff | service/adapters/sqlite/contact_repository.go:51-61 | the UNIQUE constraint lets an author be linked to a stored event iff no other author's link has its row; then the event is the current one and other authors' stay |
| ContactRepository.StoringKeepsCurrentIff | service/adapters/sqlite/migrations.go:30-34 | with row ids used again: storing an event keeps every author's current event iff no link dangles at the row it gets; otherwise it becomes the current event of that link's author |
| ContactRepository.DanglesAtNextIff | service/adapters/sqlite/event_repository.go:165-181 | after a deletion a link dangles at the next row iff its event and all later ones were deleted and the one just before was not, if there was one |
| ContactRepository.ContactTables.StoreEvent | service/adapters/sqlite/event_repository.go:23-37 | stores the event in the row after the largest one; every current event stays as it was iff no link dangled there |
| ContactRepository.ContactTables.DeleteEvents | service/adapters/sqlite/event_repository.go:165-181 | deletes the rows; authors whose current event was among them have none, the others what they had |
| ContactRepository.ContactTables.KeyId | service/adapters/sqlite/contact_repository.go:21-39 | inserts a missing key, returns its row id, changes no answer |
| ContactRepository.ContactTables.AddFollowees | service/adapters/sqlite/contact_repository.go:72-102 | succeeds iff no contact is listed twice, the followees being the contacts |
| ContactRepository.ContactTables.SetContacts | service/adapters/sqlite/contact_repository.go:20-105 | replaces the author's event, link and followees; fails iff the event is not stored, another author's link has its row or a contact is listed twice; other authors' answers unchanged |
| ContactRepository.ContactsHandler.SaveContacts | service/app/handler_process_saved_event.go:149-161 | fails iff the current event is of another kind, or is to be replaced by one that is no longer stored or whose row another author's link has; otherwise the tables show the replaced current events with their followees |
| ContactRepository.RelayTables.Save | service/adapters/sqlite/relay_repository.go:19-60 | a row for the address, old or new, tied to the event; an error iff the event has no row |
| ContactRepository.RelayTables.SaveAll | service/app/handler_process_saved_event.go:143-147 | exactly the given addresses are added and tied to the event, known ones keep their rows; an error iff there are some and the event has no row |
| ContactRepository.ContactsHandler.SaveRelaysAndContacts | service/app/handler_process_saved_event.go:132-169 | the whole transaction, rolled back on an error, does what the book of changes says; exactly when it fails |
| ContactRepository.ContactsHandler.Change | service/app/handler_process_saved_event.go:132-169 | a save, a delivery or a clean-up leaves the tables showing what happens to the book, and reports an error exactly when the delivery fails |
| ContactRepository.ContactsHandler.Changes | service/app/handler_process_saved_event.go:132-192 | over every run of these the tables show the book, and each result is the right one; as long as no event is stored in a row at which a link dangles, and always without clean-ups, each author's current event is a newest one of those processed since the last clean-up that took the current one |
| ContactRepository.ContactsHandler.SameAnswers | service/domain/contacts.go:58-63 | two databases that have processed the same events since then, with distinct times, have the same current event and followees of the author |
| ContactRepository.EmptyTables | service/adapters/sqlite/migrations.go:28-111 | the empty tables show the empty book, from which every run starts |
| Subscriptions.ReqsAndClosesAlternate | service/domain/relays/relay_connection.go:636-668 | between two REQs for an id there is a CLOSE, between two CLOSEs a REQ |
| Subscriptions.NothingAfterClose | service/domain/relays/relay_connection.go:244-258 | a closed channel is never closed again and nothing is passed to it |
| Subscriptions.RelayConnection.GetEvents | service/domain/relays/relay_connection.go:130-158 | adds the subscription with an open channel and a waiting goroutine |
| Subscriptions.RelayConnection.RemoveSubscriptionChannel | service/domain/relays/relay_connection.go:244-258 | closes the channel and removes exactly its subscription, error iff it is not open |
| Subscriptions.RelayConnection.ContextDone | service/domain/relays/relay_connection.go:149-155 | the waiting goroutine never gets the error, and the map holds exactly the open channels afterwards |
| Subscriptions.RelayConnection.PassEventOrEOSEToChannel | service/domain/relays/relay_connection.go:574-584 | passes only to an open channel, always if the context is not done |
| Subscriptions.RelayConnection.CloseUnwanted | service/domain/relays/relay_connection.go:636-653 | closes what is open and unwanted, each once; the active set is what the wire says, also after a failed send |
| Subscriptions.RelayConnection.OpenWanted | service/domain/relays/relay_connection.go:655-668 | opens what is wanted and not open, each once, with its filter |
| Subscriptions.RelayConnection.UpdateSubs | service/domain/relays/relay_connection.go:629-672 | the active set is the fold of the messages sent, also after a failed send; at most one message per differing id, the CLOSEs first, each REQ with its filter, all of them iff no send failed |
| Subscriptions.RelayConnection.ManageSubs | service/domain/relays/relay_connection.go:610-627 | over arbitrary changes to the wanted map the wire is one such update after the other, each from what the one before left open to the map at that moment; the loop ends early only at a failed send |
| Requests.WithoutIsRest | service/domain/relays/relay_connection.go:269-277 | removing a request leaves exactly the others |
| Requests.InvNext | service/domain/relays/relay_connection.go:170-222 | every step of senders, timeouts and replies keeps the invariant |
| Requests.TableAgreesWithCalls | service/domain/relays/relay_connection.go:202-222 | in every interleaving an entry exists iff some call for it is between scheduling and removal, with exactly these calls' channels, once each |
| Requests.RemovalsSucceed | service/domain/relays/relay_connection.go:260-281 | in no run does removeEventChannel reach an error return |
| Requests.OneFirstPerLifetime | service/domain/relays/relay_connection.go:211-221 | each lifetime of an entry has exactly one call that was told it is first |
| Requests.NeverHandedTwice | service/domain/relays/relay_connection.go:182-188 | an event is handed to the sending loop at most once per lifetime of its entry |
| Requests.ReplyReachesEveryone | service/domain/relays/relay_connection.go:586-601 | after an OK message every call on the event has its answer or a context that is over |
| Requests.AnswersComeFromReplies | service/domain/relays/relay_connection.go:190-199 | what a call returns is what some OK message for its own event said |
| Requests.ToldIff | service/domain/relays/relay_connection.go:190-199 | over every run: a call has an answer, or has returned it, iff at some step it took it from an OK message for its event |
| Requests.ReturnsIff | service/domain/relays/relay_connection.go:190-199 | a call returns an answer iff it took that answer at some step; it returns none only if its context is over |
| Requests.FirstMayGiveUp | service/domain/relays/relay_connection.go:182-188 | a concrete run that leaves a caller waiting for an event nobody hands over |
| Requests.GiveUpLosesEventIff | service/domain/relays/relay_connection.go:182-199 | in every run the first call's giving up leaves the event not handed over iff it is still handing it over |
| Requests.EarlyIff | service/domain/relays/relay_connection.go:182-199 | over every run: a call is marked as early iff at some step it gave up while handing over |
| Requests.NotHandedIff | service/domain/relays/relay_connection.go:182-199 | over every run: a lifetime's event is not handed over iff its first call is still handing it over or gave up at some step while doing so |
| Requests.RelayConnection.ScheduleSendingEvent | service/domain/relays/relay_connection.go:202-222 | appends the request, first iff there was no entry |
| Requests.RelayConnection.RemoveEventChannel | service/domain/relays/relay_connection.go:260-281 | removes the request and an empty entry, error iff there is no such request |
| Requests.RelayConnection.PassSendEventResponseToChannel | service/domain/relays/relay_connection.go:586-601 | every request takes the reply unless its context is done |
| Migrations.NewMigrations | internal/migrations/migrations.go:77-91 | accepts a list iff no value is zero and no name occurs twice |
| Migrations.ExecutionStores | internal/migrations/migrations.go:193-198 | an execution leaves the last state that reached the storage, and finished or failed by its result unless the process died or the write was lost |
| Migrations.RunKeepsInv | internal/migrations/migrations.go:142-158 | a run, wherever it fails, keeps storage and history orderly |
| Migrations.FinishedPrefix | internal/migrations/migrations.go:142-240 | after any runs the finished migrations are a prefix, the next one is at most failed, the others have no status |
| Migrations.RunsOnlyInOrder | internal/migrations/migrations.go:142-152 | a migration is executed only after the finished status of all earlier ones was stored |
| Migrations.NeverAfterFinished | internal/migrations/migrations.go:212-221 | once its finished status is stored a migration is neither executed nor written again |
| Migrations.RetryGetsLastState | internal/migrations/migrations.go:223-232 | a retry is given the last state stored, a first execution the empty one |
| Migrations.DoneMeansAllFinished | internal/migrations/migrations.go:33-35 | OnDone is called only when every finished status is stored |
| Migrations.RunSucceedsIff | internal/migrations/migrations.go:142-210 | a run reports success iff nothing went wrong for any unfinished migration and no status was unreadable; then all are finished |
| Migrations.RunReports | internal/migrations/migrations.go:142-158 | a run is reported once, at its end: OnDone for success, OnError of the first migration that failed for a failure, nothing if the process died |
| Migrations.OnRunningWithoutExecution | internal/migrations/migrations.go:179-184 | OnRunning is called without an execution iff an unfinished migration's state cannot be loaded |
| Migrations.Runner.RunMigrationAt | internal/migrations/migrations.go:160-210 | one attempt does what the specification says, for every failure of reads, function and writes |
| Migrations.Runner.Run | internal/migrations/migrations.go:142-158 | the loop stops at the first failure and reports it |
| RateLimit.BackoffRange | service/domain/relays/rate_limit_notice_backoff_manager.go:50-56 | the pause is 0 iff the counter is not positive, else from 100 ms to 10 s, doubling up to the seventh notice |
| RateLimit.InvNext | service/domain/relays/rate_limit_notice_backoff_manager.go:23-64 | changes of the counter stay spaced out, and it stays the bumps less the decreases |
| RateLimit.CounterBounds | service/domain/relays/rate_limit_notice_backoff_manager.go:23-64 | in every run, however long, the counter is the counted bumps less the decreases wrapped to int32 and at most elapsed/500 ms, exactly the difference for the first 2^30 seconds; the pause is 0 or from 100 ms to 10 s |
| RateLimit.WrapsOnlyAtTheTop | service/domain/relays/rate_limit_notice_backoff_manager.go:30 | the counter becomes negative iff it is bumped at the int32 maximum |
| RateLimit.IdleCountsDown | service/domain/relays/rate_limit_notice_backoff_manager.go:57-61 | an idle counter k is 0 after k reads each over 300 s after the last change |
| RateLimit.SpacedBumpsCount | service/domain/relays/rate_limit_notice_backoff_manager.go:23-32 | every notice half a second or more after the last change counts |
| RateLimit.SoonChangesNothing | service/domain/relays/rate_limit_notice_backoff_manager.go:23-64 | one within half a second does not, and a read within five minutes changes nothing |
| RateLimit.RateLimitNoticeBackoffManager.Bump | service/domain/relays/rate_limit_notice_backoff_manager.go:23-32 | counts unless less than 500 ms passed since the last change |
| RateLimit.RateLimitNoticeBackoffManager.GetBackoffMs | service/domain/relays/rate_limit_notice_backoff_manager.go:50-64 | returns the pause for the counter before the call and decreases an idle counter by one |

## Left out

- RateLimit.CounterBounds: holds for calls one after the other; the concurrent counter's read and decrease
  are not atomic, and WrapsOnlyAtTheTop says when the counter becomes negative.
- ProcessHandler.Subscriber.Subscribe: one process handles one message at a time, as the port does; several
  deliveries under way at once are in Pipeline only.
- DuplicateFilter.HeldAreTwoGenerations: a Bloom filter is the exact set of what was added; collisions
  are a parameter of ContainsId.
- Subscriptions.RelayConnection.ManageSubs: wakeups may be dropped, so nothing is claimed about when a
  change of the wanted map reaches the wire.
- Requests.ReplyReachesEveryone: how long passing a reply blocks on a caller that has already left its
  select is not modelled.
- Storage.Database.ReadMsg: any due message may be the one read; the randomness of the order is not modelled.
- Liveness under real concurrency: pushing to channels, wakeups, queue draining.
- WebSocket dialing and reading, HTTP server, Google Pub/Sub, metrics, profiling, logging, dependency
  injection: I/O and wiring, present only as success or failure.
- SQL text, JSON, signatures, URLs, NIP-19, ULIDs and hashing: tables are maps with their uniqueness
  constraints, ids are fresh values.
- shouldBeDownloaded and shouldBeDirectlyMonitored: lookups without state, one parameter of the save handler.
- NOTICE and CLOSED classification, relay address normalisation, configuration: easy members.
- dialBackoff: powers of five are not exact in floating point.
- Back-pressure: check-then-set without a lock, no invariant to keep.
