# Verified model of the GitHub release notifier

Four services (subscription, notifier, saga orchestrator, scanner) own their tables,
publish through transactional outboxes and meet on a bus that delivers at least once.
This project models their protocols in Dafny and proves what holds over every run,
with publishes that are lost or land unnoticed, transactions that roll back, crashes,
redeliveries and reorderings as explicit choices of the run.

`dafny verify dfyconfig.toml` checks everything.

| module | models |
|---|---|
| `Outbox` | one relay flushing batch by batch |
| `RelayProtocol` | any number of relays and writers on one outbox table |
| `Saga` | the transition table, the `sagas` updates, the five handlers, the NATS compensator |
| `Subscriptions` | the `subscriptions` table and its five use cases |
| `SubscribeSaga` | subscription, notifier and orchestrator together |
| `GrpcCompensation` | the gRPC compensator, with both services moving |
| `Views` | the read model fed by the event log |
| `WatchList`, `Counts` | the watched repositories and their subscriber counts |
| `Mailer`, `Releases`, `ReleaseDelivery`, `ReleaseVerdicts` | batch accounting, the notify-release use case, release retries, whole runs, and that what is announced is what happened |
| `Confirmations`, `ConfirmationDelivery`, `ConfirmationVerdicts` | the send-confirmation use case, confirmation retries and dead letters, whole runs, and that what is announced is what happened |
| `Scanner` | the scan pass and the `last_seen_tag` loop |
| `GitHub` | repository names and the cache-aside client |
| `Types` | identifiers, events, sequences |

How it is built. Objects whose methods update tables are classes; each method draws its
failures nondeterministically and is proved equal to a specification function on the old
state. Runs are sequences of actions over the same specification functions, so a property
of runs is a property of what the methods do. The layers are tied together by refinement
lemmas: the many-relay protocol refines the bus step the composed world uses
(`RelayProtocol.RelayRefinesBus`, `SubscribeSaga.RelayIsBusStep`), the detailed
confirmation model refines the notifier's actions there (`SubscribeSaga.NotifierRefines`),
a flush is a step of the replication pipeline (`Views.FlushIsAStep`), and the tag loop's
actions are what the scan pass and the notify-release use case do
(`Scanner.ScanIsProcess`, `Scanner.BatchIsCommitted`).

## What the code does not guarantee

Properties one might expect. Each has a concrete run or state in which it fails and the
exact condition under which it holds.

- "A failed batch is detected again and retried" (ADR-012). The code marks a release as
  processed even if nobody was reached: in `ReleaseDelivery.NobodyReached` no later
  detection changes anything. Over every run, and for as long as its mark has not been
  pruned, a release's detection is acted on exactly if no summary of it was committed,
  whatever that counted (`ReleaseDelivery.DetectedAgainIff`); a pruned one is acted on
  again. The recipients are covered by
  `failed_notifications` instead.
- "Every failed notification is within the retrier's reach." With MaxRetries below one it
  stays for ever (`ReleaseDelivery.NobodyReached`, `ReleaseDelivery.StrandedForEver`);
  every row is listed exactly if MaxRetries is at least one
  (`ReleaseDelivery.EveryRowIsListedIff`).
- "Compensation is not stranded" (ADR-013). That is so over NATS
  (`SubscribeSaga.CompensationIsNeverLost`). Over gRPC a lost call leaves the row pending
  under a compensated saga however often the dead event comes again
  (`GrpcCompensation.LostCallStrandsRow`). With both services moving and as long as the
  pair is not started again, the row stays pending exactly if the first call did not take
  effect and no late call, unsubscribe link, confirmation or cleanup ends it
  (`GrpcCompensation.RollbackIffCalled`); a new start lets a later dead event roll back
  after all (`GrpcCompensation.RollbackAfterRestart`).
- "A live saga has its subscription row." A stale command of attempt 1 deletes the row
  attempt 2 relies on (`SubscribeSaga.StaleCommandHitsNewerAttempt`), and presenting the
  token of a pending row does so without any command (`SubscribeSaga.LeavingStrandsSaga`).
  `SubscribeSaga.StrandsIff` names exactly the steps that break it in every reachable
  world. A command is harmless while its own attempt is the pair's last
  (`SubscribeSaga.OwnCommandIsHarmless`) and no longer
  (`SubscribeSaga.CommandAfterStartStrands`).
- "The read model ends up right." Confirmed and removed events are consumed by two
  durables; a removal can overtake its confirmation (`Views.RemovalMayOvertake`).
  Redeliveries included, the read model is right exactly when for every pair the event
  handled last is of the kind committed last (`Views.ConvergesIffOrdered`).
- "The subscriber counts agree with the subscriptions." The scanner has two durables of
  its own: a removal that overtakes its confirmation leaves a repository watched for nobody
  (`Counts.OvertakenCount`). Somebody who unsubscribes before confirming makes it drop a
  repository that has a subscriber even in commit order (`Counts.EarlyLeaveUpsetsCount`).
  For every run and whatever was handled, in any order and number, `Counts.CountsRightIff`
  says exactly when a count equals the number of confirmed subscriptions; with disclosed
  tokens only and no redelivery that is exactly if handled removals are never ahead of
  handled confirmations (`Counts.NeverAheadIff`). In commit order, each event once:
  `Counts.CountsAgreeIff`. Against a read model that handles the same events in the same
  order: `Counts.TallyAgreesIff` and `Counts.RedeliveryKeepsCountIff`.
- "`last_seen_tag` does not go back." A redelivered summary puts an older tag back
  (`Scanner.RedeliveryRewindsTag`), and so does a seed from a listing that has become
  stale (`Scanner.StaleListingRewindsTag`). A stored tag survives a run exactly if no step
  of it removes the last subscriber, seeds from an untagged listing, or applies another
  summary that reached somebody (`Scanner.TagKeptIff`, `Scanner.TagHeldIff`).
- "Cached answers expire." With a time-to-live of zero none does
  (`GitHub.ZeroTtlNeverExpires`); with a positive one every answer is younger than it
  (`GitHub.AnswersAreFresh`).

## Model

| member | source | states |
|---|---|---|
| `Outbox.DeletePrefix` | internal/infrastructure/outbox/relay.go:112-114 | deleting the ids of the published leading run leaves exactly the rest of the table, still in id order |
| `Outbox.Relay.Publish` | internal/infrastructure/outbox/relay.go:127-129 | an accepted publish is on the log; a failed one is lost or landed unnoticed |
| `Outbox.Relay.PublishAll` | internal/infrastructure/outbox/relay.go:123-135 | publishes a prefix in order, returns its ids, reports an error exactly if it is proper; at most the failed message may have landed beyond it |
| `Outbox.Relay.FlushBatch` | internal/infrastructure/outbox/relay.go:91-121 | one batch: on success the first min(n, batchSize) rows are published and gone; on a publish error exactly the suffix from the failed row stays; on a delete or commit error the table is untouched although the batch was published |
| `Outbox.Relay.Flush` | internal/infrastructure/outbox/relay.go:78-89 | terminates within n / batchSize + 1 batches; a nil result means an empty table and a log extended by exactly the old table in id order; every error case leaves the stated suffix |
| `Outbox.FlushedThen` | internal/infrastructure/outbox/relay.go:78-89 | the outcome of a flush composes from a successful batch and whatever the rest does |
| `RelayProtocol.Invariant` | internal/infrastructure/outbox/relay.go:91-166 | ids, locks, log and publication counts stay consistent over every interleaving of relays and writers |
| `RelayProtocol.RelaysAreSafe` | internal/infrastructure/outbox/relay.go:91-166 | locked sets are disjoint; a committed message is in the table or published; a rolled-back one is never published; an id is published at most once plus its failed attempts, and exactly once if it is deleted without any |
| `RelayProtocol.RelayRefinesBus` | internal/infrastructure/outbox/outbox.go:14-23 | every protocol step is a bus step (nothing enters the bus but from the outbox, nothing leaves the outbox but onto the bus), and a writer's commit enqueues exactly its rows |
| `Saga.TransitionTable` | internal/saga/domain/domain.go:33-36 | the table is the strict order of ranks; the terminal states are exactly completed, compensated and expired |
| `Saga.SourceStates` | internal/saga/domain/domain.go:38-50 | returns exactly the inverse of the table, without repetition, in any map order |
| `Saga.Coordinator.OnPending` | internal/saga/usecase/coordinator/coordinator.go:34-46 | (re)starts the pair's saga as pending with the new id, or changes nothing on a malformed id, a taken id or a store error |
| `Saga.Coordinator.TransitionById` | internal/saga/adapter/repository/saga.go:40-52 | moves the row with the id exactly if the table allows it, reports whether it did, touches no other row |
| `Saga.Coordinator.TransitionByEmailRepo` | internal/saga/adapter/repository/saga.go:54-71 | the same, by pair |
| `Saga.Coordinator.Get` | internal/saga/adapter/repository/saga.go:73-91 | finds the row that owns the id, or says that none does |
| `Saga.Coordinator.OnConfirmationSent` | internal/saga/usecase/coordinator/coordinator.go:48-59 | exactly a pending saga with the id becomes confirmation-sent; an error changes nothing |
| `Saga.Coordinator.OnConfirmed` | internal/saga/usecase/coordinator/coordinator.go:61-69 | exactly a pending or sent saga of the pair becomes completed, keeping its id |
| `Saga.Coordinator.OnExpired` | internal/saga/usecase/coordinator/coordinator.go:71-79 | exactly a pending or sent saga of the pair becomes expired, keeping its id |
| `Saga.Coordinator.CompensateViaOutbox` | internal/saga/usecase/coordinator/nats_compensator.go:35-54 | transition and command commit together or not at all |
| `Saga.Coordinator.OnConfirmationDead` | internal/saga/usecase/coordinator/coordinator.go:81-111 | a pending or sent saga that owns the id becomes compensated and its command, with its id and pair, is enqueued; otherwise, or on error, nothing changes |
| `Saga.DeadOfRow` | internal/saga/usecase/coordinator/coordinator.go:98-108 | a dead event acts on the owner of its id exactly if that row is not terminal |
| `Saga.PhasesOnlyAdvance` | internal/saga/adapter/repository/saga.go:25-71 | between Starts, under any events in any order and number, a row keeps its id and its state only moves along the table; ids stay unique |
| `Saga.SupersededIsInert` | internal/saga/adapter/repository/saga.go:25-52 | once a pair has a new id, erasing every sent and dead event of the old id from the run leaves its row exactly as it is |
| `Saga.SupersededNeverCompensates` | internal/saga/usecase/coordinator/coordinator.go:87-102 | with atomic handlers, no dead event of a superseded id ever changes a row or enqueues a command |
| `Subscriptions.Service.ResolveExisting` | internal/subscription/usecase/subscribe/subscribe.go:110-122 | rejects exactly confirmed rows, tells a missing row from a pending one |
| `Subscriptions.Service.EmitPendingTx` | internal/subscription/usecase/subscribe/subscribe.go:124-161 | row and pending event commit together or not at all; an existing pair fails the insert |
| `Subscriptions.Service.Subscribe` | internal/subscription/usecase/subscribe/subscribe.go:87-108 | success leaves one pending row (a new one with its token and time, or the old one unchanged) and one new event for the pair and no other change; any error changes nothing |
| `Subscriptions.Service.ConfirmTx` | internal/subscription/usecase/confirm/confirm.go:56-73 | flips exactly an unconfirmed row and enqueues its event with its token, atomically; otherwise nothing |
| `Subscriptions.Service.UnsubscribeTx` | internal/subscription/usecase/unsubscribe/unsubscribe.go:43-64 | deletes the row with the token and enqueues its removal, atomically; an unknown token is an error |
| `Subscriptions.Service.CleanupTx` | internal/subscription/usecase/cleanup/cleanup.go:40-66 | removes exactly the unconfirmed rows created before the cutoff, keeps every other row as it is, and enqueues one expired event for each removed row in order, atomically |
| `Subscriptions.PendingKeptIff` | internal/subscription/adapter/repository/subscription.go:72-158 | over every step a pending row stays as it is exactly if the step is not its confirmation, its own token, a rollback of its pair, or a cleanup with a cutoff later than its creation |
| `Subscriptions.AgeDecides` | internal/subscription/adapter/repository/subscription.go:134-158 | over every run without those, cleanups with a cutoff no later than its creation included, a pending row stays as it is; a cleanup after that ends it exactly if its cutoff is later |
| `Subscriptions.Service.CompensatePair` | internal/subscription/usecase/compensate/compensate.go:26-37 | deletes exactly an unconfirmed row of the pair and says whether it did |
| `Subscriptions.EventLogRefinesState` | internal/subscription/adapter/repository/subscription.go:72-158 | over every run, folding the committed confirmed and removed events gives exactly the confirmed rows with their tokens |
| `Subscriptions.ConfirmedIsSafe` | internal/subscription/adapter/repository/subscription.go:116-158 | a confirmed row stays unchanged over every run until its own token is presented |
| `Subscriptions.RolledBackUntilPending` | internal/subscription/usecase/subscribe/subscribe.go:144-152 | a pair without an unconfirmed row gets one only by an insert with its pending event |
| `Subscriptions.CompensateRollsBack` | internal/subscription/adapter/repository/subscription.go:116-132 | the rollback removes the pending row, keeps a confirmed one, is idempotent and touches no other pair |
| `SubscribeSaga.Invariant` | internal/saga/usecase/coordinator/coordinator.go:34-111 | every event, retry row, held read and saga row is justified over every run of the composed system |
| `SubscribeSaga.RelayIsBusStep` | internal/infrastructure/outbox/relay.go:91-121 | every bus step of a relay is a relay action of the composed system |
| `SubscribeSaga.NotifierRefines` | internal/notifier/usecase/retry/retrier.go:124-154 | every step of the detailed confirmation model is a step of the composed system or invisible |
| `SubscribeSaga.CompensationIsNeverLost` | internal/saga/usecase/coordinator/nats_compensator.go:35-54 | every saga row was started by a published pending event of its id and pair and its state has a witnessing event; a compensated row's command is in the saga outbox or published |
| `SubscribeSaga.SagaIdsAreUnique` | internal/saga/adapter/repository/saga.go:25-38 | at most one row owns an id |
| `SubscribeSaga.CommandsAreJustified` | internal/saga/usecase/coordinator/coordinator.go:81-111 | a published rollback command belongs to an attempt whose pending and dead events were published for the same pair and address |
| `SubscribeSaga.SubProjects` | internal/subscription/usecase/compensate/compensate.go:26-37 | a run of the composed system is, for the subscription service, a run of its use cases and rollbacks |
| `SubscribeSaga.ConfirmedSurvivesTheSaga` | internal/subscription/adapter/repository/subscription.go:116-132 | over every run of the composed system, with stale, duplicated or racing commands, a confirmed row stays until its own token is presented |
| `SubscribeSaga.CommandRollsBack` | internal/subscription/usecase/compensate/compensate.go:26-37 | once a command is handled, the pair has no unconfirmed row in any continuation until a new pending row is committed |
| `SubscribeSaga.StrandsIff` | internal/saga/usecase/coordinator/coordinator.go:34-111 | in every reachable world a step takes the row from under a live saga exactly if it deletes the row of a live saga (own token, cleanup, or a command that meets an unconfirmed row) or handles a pending event whose row is gone |
| `SubscribeSaga.CommandStrandsIff` | internal/subscription/adapter/repository/subscription.go:122-126 | handling a command takes the row from a live saga exactly if the pair has an unconfirmed row and its saga is not terminal; it removes a row exactly in the first case |
| `SubscribeSaga.OwnCommandIsHarmless` | internal/saga/usecase/coordinator/nats_compensator.go:35-54 | if the saga row carried the id when the compensation committed and no pending event of the pair was handled since, the command meets a terminal saga after any run |
| `SubscribeSaga.CommandAfterStartStrands` | internal/saga/adapter/repository/saga.go:25-38 | once a pending event of a pair with an unconfirmed row is handled, and for as long as no step ends the new attempt or its row, a command for the pair strands it, of whatever attempt and after whatever else |
| `SubscribeSaga.StaleCommandHitsNewerAttempt` | internal/subscription/adapter/repository/subscription.go:122-126 | a concrete run in which attempt 1's command deletes attempt 2's row while saga 2 stays pending |
| `SubscribeSaga.LeavingStrandsSaga` | internal/subscription/adapter/repository/subscription.go:99-105 | a concrete run in which presenting the token of a pending row leaves a pending saga without a row |
| `Subscriptions.TokensStayUnique` | internal/subscription/adapter/repository/subscription.go:30-41 | over every run no two rows carry the same unsubscribe token |
| `GrpcCompensation.TransportsAgree` | internal/saga/usecase/coordinator/grpc_compensator.go:22-32 | when nothing fails, both compensators end in the same saga and subscription tables |
| `GrpcCompensation.WaitsThroughoutIff` | internal/saga/usecase/coordinator/grpc_compensator.go:22-32 | over every run of both services a pending row stays throughout exactly if no late call, own token, confirmation, cleanup or rollback ends it, and no dead event whose call works and whose id owns a non-terminal saga of the pair |
| `GrpcCompensation.RollbackIffCalled` | internal/saga/usecase/coordinator/grpc_compensator.go:22-32 | after a dead event, over any run of both services that does not start the pair again, the saga stays compensated and the row stays pending exactly if the first call did not take effect and no late call, own token, confirmation or cleanup ends it |
| `GrpcCompensation.RollbackAfterRestart` | internal/saga/usecase/coordinator/grpc_compensator.go:22-32 | after a lost call, a handled pending event of the pair followed by a dead event of its id rolls back after all |
| `GrpcCompensation.LostCallStrandsRow` | internal/saga/usecase/coordinator/grpc_compensator.go:22-32 | a concrete run in which the call is lost: no number of redelivered dead events with working calls ends the row, the cleanup does |
| `GrpcCompensation.CompensateViaRpc` | internal/saga/usecase/coordinator/grpc_compensator.go:22-32 | success transitions and rolls back; an error leaves nothing done, or the transition alone, or both |
| `Views.ReadModel.Upsert` | internal/notifier/adapter/repository/subscriptions_read.go:24-36 | afterwards the pair's row carries the token, whatever it did before; no other row moves; an error changes nothing |
| `Views.ReadModel.Delete` | internal/notifier/adapter/repository/subscriptions_read.go:38-48 | afterwards the pair has no row, whether or not it had one; no other row moves |
| `Views.ReadModel.Handle` | internal/notifier/usecase/readmodel/projector.go:25-43 | the projector built from the two has exactly the effect on the view that folding the log assumes |
| `Views.FoldAt` | internal/notifier/adapter/repository/subscriptions_read.go:24-48 | what the read model holds for a pair is decided by the last event about it |
| `Views.ReplayIsIdle` | internal/notifier/adapter/repository/subscriptions_read.go:24-48 | replaying a block of events right after itself changes nothing |
| `Views.FlushIsAStep` | internal/infrastructure/outbox/relay.go:78-135 | any outcome the relay's flush may have is a step of the pipeline |
| `Views.PipelineInvariant` | internal/infrastructure/outbox/relay.go:78-135 | at every moment publishing the rest of the table once would bring the log to the committed events' meaning |
| `Views.ReadModelConverges` | internal/notifier/adapter/repository/subscriptions_read.go:24-48 | once the outbox is drained and the log processed in order, repeated batches and deliveries included, the read model is the confirmed subscriptions with their tokens |
| `Views.ConvergesIffOrdered` | internal/bootstrap/notifier/consumers.go:26-37 | with two durables, each in order and with redeliveries in a row, the read model is right exactly if for every pair the event handled last is of the kind committed last |
| `Views.RemovalMayOvertake` | internal/bootstrap/notifier/consumers.go:26-37 | a removal handled before its confirmation leaves a row for somebody who unsubscribed |
| `Counts.TallyAgreesIff` | internal/scanner/adapter/repository/watched_repos.go:22-53 | for every sequence of events handled alike by both replicas, counts and read-model rows agree after every prefix exactly if no event confirms somebody subscribed or removes somebody who is not from a repository with subscribers |
| `Counts.CountsRightIff` | internal/bootstrap/scanner/consumers.go:18-29 | for every run and whatever the scanner handled, in any order and number, a count equals the number of confirmed subscriptions exactly if extra confirmations and removals swallowed by a missing row make up for extra removals and removals of never-confirmed rows; with two ordered durables and no redelivery exactly if the swallowed ones equal the latter |
| `Counts.NeverAheadIff` | internal/bootstrap/scanner/consumers.go:18-29 | with disclosed tokens only, two ordered durables and no redelivery, a count ends right exactly if no prefix of the handled order has more removals than confirmations of the repository |
| `Counts.OvertakenCount` | internal/bootstrap/scanner/consumers.go:18-29 | a removal handled before its confirmation leaves a repository watched for nobody |
| `Counts.RedeliveryKeepsCountIff` | internal/infrastructure/broker/broker.go:73-81 | an event handled twice keeps the counts right exactly if it concerns no subscription or is a removal that left no subscriber |
| `Counts.CountsAgree` | internal/scanner/adapter/repository/watched_repos.go:22-53 | over every run in which only disclosed tokens are presented, after every prefix of the log the count equals the number of read-model rows, and at the end the number of confirmed subscriptions |
| `Counts.CountsAgreeIff` | internal/subscription/adapter/repository/subscription.go:94-114 | over every run, handled once and in commit order, with any tokens presented, the counts agree after every prefix exactly if each removal of a pair that is not subscribed meets a repository without subscribers |
| `Counts.EarlyLeaveUpsetsCount` | internal/subscription/adapter/repository/subscription.go:99-105 | a concrete run in which unsubscribing a pending row makes the scanner drop a repository with a confirmed subscriber |
| `WatchList.WatchedRepos.IncrementSubscriber` | internal/scanner/adapter/repository/watched_repos.go:22-34 | the count goes up by one (from zero if absent), tag and other rows stay, stored counts stay positive |
| `WatchList.WatchedRepos.DecrementSubscriber` | internal/scanner/adapter/repository/watched_repos.go:36-53 | the count goes down by one and the tag stays; the row is gone exactly when nobody is left; other rows stay, stored counts stay positive |
| `WatchList.WatchedRepos.Advance` | internal/scanner/adapter/repository/watched_repos.go:75-85 | an existing row takes the tag, no row is created, no count and no other row changes |
| `WatchList.WatchedRepos.Handle` | internal/scanner/usecase/watchlist/projector.go:25-43 | the projector has exactly the effect on the table that tallying the log assumes |
| `WatchList.RemovalUndoesConfirmation` | internal/scanner/adapter/repository/watched_repos.go:22-53 | confirming and then removing a subscriber restores the table exactly, tag included |
| `WatchList.ReturnRestoresIff` | internal/scanner/adapter/repository/watched_repos.go:22-53 | removing and then confirming one restores it exactly if somebody else stayed or no tag was stored |
| `WatchList.WatchedRepos.OnNotified` | internal/scanner/usecase/advancetag/advance_tag.go:28-43 | advances exactly for a positive sent count |
| `Mailer.Mailer.SendBatch` | internal/notifier/adapter/mailer/smtp_sender.go:16-41 | one slot per message; the server took exactly the messages whose slot has no error |
| `Mailer.Mailer.SendEach` | internal/notifier/adapter/mailer/smtp_sender.go:34-38 | the loop over one connection: a slot keeps no error exactly if its message was taken, in order |
| `Mailer.Mailer.BuildAll` | internal/notifier/adapter/mailer/mailer.go:196-211 | messages and recipients are the buildable notifications in order, the failures exactly the others |
| `Mailer.Mailer.Tabulate` | internal/notifier/adapter/mailer/mailer.go:229-236 | counts the error-free slots and names the recipients of the others |
| `Mailer.Mailer.SendReleaseNotifications` | internal/notifier/adapter/mailer/mailer.go:190-243 | for every pattern of build errors, cancellation and send errors there is one outcome per notification, sent plus failed is the number of notifications, whatever counts as sent was taken, and nothing else was |
| `Mailer.Mailer.DeliverConfirmation` | internal/notifier/adapter/mailer/mailer.go:156-188 | no error means the mail was taken |
| `Mailer.MergePicks` | internal/notifier/adapter/mailer/mailer.go:228-236 | the successes of a batch are the error-free slots of the built messages |
| `Mailer.MergeMisses` | internal/notifier/adapter/mailer/mailer.go:205-236 | the failures are the unbuilt messages and the slots with errors, as a multiset |
| `Mailer.GiveUp` | internal/notifier/adapter/mailer/mailer.go:221-240 | a batch not queued or not awaited counts every recipient as failed, once |
| `Releases.RecordShape` | internal/notifier/usecase/notifyrelease/notify_release.go:166-214 | one outcome event per recipient in order; new retry rows exactly for the failed recipients that had none; old rows unchanged |
| `Releases.DeliveryAccounting` | internal/notifier/usecase/notifyrelease/notify_release.go:143-214 | recipient i gets a sent event exactly if its mail went out and a failed event otherwise; the counts and the failed addresses agree with the summary |
| `Releases.ReleaseNotifier.RecipientsByRepo` | internal/notifier/adapter/repository/subscriptions_read.go:50-69 | the subscribers of the repository, each once |
| `Releases.ReleaseNotifier.Deliver` | internal/notifier/usecase/notifyrelease/notify_release.go:143-164 | one outcome per recipient, the mailer's report; every mail taken is about this release, with its url and the addressee's own unsubscribe token |
| `Releases.ReleaseNotifier.RecordOutcomes` | internal/notifier/usecase/notifyrelease/notify_release.go:166-214 | without error the outcomes are exactly those of the specification |
| `Releases.ReleaseNotifier.Execute` | internal/notifier/usecase/notifyrelease/notify_release.go:92-141 | a processed release sends nothing and changes nothing; otherwise outcomes, summary and mark commit together or not at all, and follow the mailer's report; every mail taken carries the addressee's own token |
| `Releases.ReleaseNotifier.RetryRelease` | internal/notifier/usecase/retry/retrier.go:156-210 | somebody who unsubscribed is dropped without an event; otherwise the row leaves with a sent event exactly if the mailer reports the mail as sent, with a dead event exactly if it does not and this was the last attempt, and is counted one further if neither; the mail carries the addressee's own token; a failed lookup or write changes nothing |
| `Releases.ReleaseNotifier.ListRetryable` | internal/notifier/adapter/repository/failed_notifications.go:37-59 | exactly the rows below the limit, each once |
| `Releases.ReleaseNotifier.RetryPass` | internal/notifier/usecase/retry/retrier.go:107-122 | works off every row as listed, strands none; without store failures each is gone or one attempt further |
| `Releases.RetryRowsShape` | internal/notifier/usecase/retry/retrier.go:107-122 | a pass keeps every count below the limit and touches only listed rows |
| `ReleaseDelivery.PassesDrain` | internal/notifier/usecase/retry/retrier.go:107-210 | over every run, whatever is added or fails elsewhere, a row present at some moment is gone once MaxRetries passes begun after it have completed, plus one per failed lookup or write on that row |
| `ReleaseDelivery.Invariant` | internal/notifier/usecase/notifyrelease/notify_release.go:92-141 | marks, summaries, recipients, retry counts and resends stay consistent over every run |
| `ReleaseDelivery.EveryRecipientExactlyOnce` | internal/notifier/usecase/notifyrelease/notify_release.go:92-214 | for every release not pruned: marked exactly if one summary was committed; sent + dead + dropped + live retry rows is exactly one for each resolved recipient and zero for anybody else |
| `ReleaseDelivery.RetriesAreBounded` | internal/notifier/usecase/retry/retrier.go:156-210 | with MaxRetries >= 1 no row is out of reach, and no row is resent more than MaxRetries times plus its own failed writes |
| `ReleaseVerdicts.VerdictsAreTrue` | internal/notifier/usecase/retry/retrier.go:179-204 | over every run a recipient is announced as sent only if the mailer reported a mail to them about that release as sent, and as dead only for a row resent at least MaxRetries times, none reported and saved; a reported and saved resend is announced as sent with the row's saga id |
| `ReleaseDelivery.EveryRowIsListedIff` | internal/notifier/adapter/repository/failed_notifications.go:37-48 | over every run, listing yields all rows exactly if MaxRetries >= 1 or there is none |
| `ReleaseDelivery.StrandedForEver` | internal/notifier/adapter/repository/failed_notifications.go:37-48 | with MaxRetries below one no run ever changes a failed notification |
| `ReleaseDelivery.DetectedAgainIff` | internal/notifier/usecase/notifyrelease/notify_release.go:92-131 | over every run and until pruned, a detection is acted on exactly if no summary of the release was committed, whatever that summary counted |
| `ReleaseDelivery.NobodyReached` | internal/notifier/usecase/notifyrelease/notify_release.go:131-131 | a concrete run in which a batch reaches nobody, is marked, and no detection after it changes anything; with MaxRetries below one its failure also stays for ever |
| `Confirmations.ConfirmationNotifier.Execute` | internal/notifier/usecase/sendconfirmation/send_confirmation.go:55-101 | a sent event, or a retry row (the older one stays) with a failed event, atomically |
| `Confirmations.ConfirmationNotifier.DeleteAndPublish` | internal/notifier/usecase/retry/retrier.go:253-261 | row and event change together or not at all |
| `Confirmations.ConfirmationNotifier.DeadLetterConfirmation` | internal/notifier/usecase/retry/retrier.go:241-251 | the row leaves with a dead event carrying its saga id, address and the reason, or stays |
| `Confirmations.ConfirmationNotifier.RetryConfirmation` | internal/notifier/usecase/retry/retrier.go:212-239 | with working stores the row leaves with a sent event exactly if the mailer reports the mail as delivered, with a dead event exactly if it does not and this was the last attempt, and is counted one further if neither; a failed write changes nothing |
| `Confirmations.ConfirmationNotifier.DeadLetterAll` | internal/notifier/usecase/retry/retrier.go:136-138 | the loop has the effect of dead-lettering each row as it was listed, in order, failed transactions leaving theirs |
| `Confirmations.ConfirmationNotifier.RetryAll` | internal/notifier/usecase/retry/retrier.go:149-151 | the loop has the effect of retrying each row as it was listed, in order |
| `Confirmations.ConfirmationNotifier.ConfirmationPass` | internal/notifier/usecase/retry/retrier.go:124-154 | exactly the rows that failed at or before the cutoff are dead-lettered and exactly the others retried, although dead letters may fail in between; without store failures every row is gone or one attempt further |
| `Confirmations.ExpireRowsShape` | internal/notifier/usecase/retry/retrier.go:241-251 | expiring removes exactly the rows whose transaction committed |
| `Confirmations.RetryRowsShape` | internal/notifier/usecase/retry/retrier.go:212-239 | retrying keeps every count below the limit and touches only listed rows |
| `Confirmations.Partition` | internal/notifier/adapter/repository/failed_confirmations.go:38-85 | expired rows and rows retryable afterwards are disjoint and together all rows |
| `ConfirmationDelivery.HandlingIsRowStep` | internal/notifier/usecase/retry/retrier.go:212-261 | handling a row does nothing, counts an attempt, or takes it out with one event carrying its saga id and address |
| `ConfirmationDelivery.LedgerInvariant` | internal/notifier/usecase/retry/retrier.go:212-261 | over every run entries, departures and outbox events match one to one |
| `ConfirmationDelivery.EveryRowLeavesOnce` | internal/notifier/usecase/retry/retrier.go:212-261 | every row that ever entered is live and has no event, or left with exactly one sent or dead event of its own carrying its saga id; every outbox event is either one of those or written by send-confirmation, never both, and dead events are never the latter |
| `ConfirmationDelivery.PassesDrain` | internal/notifier/usecase/retry/retrier.go:124-154 | over every run, whatever is added or fails elsewhere, a row that had entered by some moment has left with its event once MaxRetries passes begun after it have completed, plus one per failed write on that row |
| `ConfirmationDelivery.PassHandlesEveryRowOnce` | internal/notifier/usecase/retry/retrier.go:124-154 | a completed pass has handled every row it found exactly once, whatever failed or was added meanwhile |
| `ConfirmationVerdicts.VerdictsAreTrue` | internal/notifier/usecase/retry/retrier.go:212-251 | over every run a row leaves with a sent event exactly if a resend of it was delivered and saved, with a dead event only if it had expired at its pass's cutoff or was resent at least MaxRetries times; send-confirmation announces sent exactly if the mail was delivered |
| `Scanner.PassIsOrderIndependent` | internal/scanner/usecase/watch/watch.go:56-92 | for every permutation of the observations the final tags, the detections as a multiset and both counts are the same |
| `Scanner.Watch.Scan` | internal/scanner/usecase/scanner/scanner.go:31-68 | at most one release per requested, well-formed repository |
| `Scanner.Watch.ListWatched` | internal/scanner/adapter/repository/watched_repos.go:55-73 | exactly the rows with subscribers, each once |
| `Scanner.Watch.ProcessOne` | internal/scanner/usecase/watch/watch.go:102-135 | seeds a row without a tag, skips the same tag, reports another; the outcome ignores write and publish errors |
| `Scanner.Watch.ProcessObserved` | internal/scanner/usecase/watch/watch.go:71-85 | the loop has the effect and the counts of the specification |
| `Scanner.Watch.Run` | internal/scanner/usecase/watch/watch.go:41-92 | a pass has the effect of its observations on the rows as listed; a failed one changes nothing |
| `Scanner.BatchIsCommitted` | internal/notifier/usecase/notifyrelease/notify_release.go:116-132 | the loop's notify action emits exactly what the use case commits |
| `Scanner.ScanIsProcess` | internal/scanner/usecase/watch/watch.go:102-135 | the loop's scan action is what the pass does with one observation |
| `Scanner.TagInvariant` | internal/scanner/usecase/watch/watch.go:102-135 | stored tags and summaries stay founded over every run |
| `Scanner.TagsAreEarned` | internal/scanner/usecase/advancetag/advance_tag.go:28-43 | a stored tag was reported by GitHub, and was seeded while the listed row had none or a summary with a positive count was published and a mail about exactly that release was taken |
| `Scanner.TagKeptIff` | internal/scanner/usecase/watch/watch.go:102-114 | over every action a stored tag survives exactly if the step is no removal of the last subscriber, no seed of another tag from an untagged listing and no summary of another tag that reached somebody |
| `Scanner.TagHeldIff` | internal/scanner/usecase/advancetag/advance_tag.go:28-43 | over every run a stored tag stays throughout exactly if no step of the run is one of those |
| `Scanner.ReportedAgainIff` | internal/scanner/usecase/watch/watch.go:102-135 | the next scan reports a release exactly if another tag is stored, and seeds it in silence if none is |
| `Scanner.RedeliveryRewindsTag` | internal/scanner/usecase/advancetag/advance_tag.go:28-43 | a concrete run in which the summary of an older release, delivered again, puts its tag back |
| `Scanner.StaleListingRewindsTag` | internal/scanner/usecase/watch/watch.go:105-114 | a concrete run in which a listing read while the row was untagged lets an old answer overwrite a newer tag |
| `GitHub.ParseRepoIsUnique` | internal/shared/github/parse_repo.go:8-17 | the accepted strings are exactly owner/name and the split is the only one |
| `GitHub.KeysNeverCollide` | internal/shared/github/github.go:71-110 | distinct operations or repositories never share a cache key |
| `GitHub.CachingClient.GetCachedRelease` | internal/shared/github/github.go:135-157 | a hit is a live entry that encodes exactly the answer returned; a read error, an expired entry or one that encodes no answer is a miss |
| `GitHub.CachingClient.CacheString` | internal/shared/github/github.go:177-187 | a write that works is seen by every read from now until its time-to-live has passed; no other entry changes; without a cache or on error nothing does |
| `GitHub.CachingClient.RepoExistsCall` | internal/shared/github/github.go:64-101 | one step of the client specification; on a miss a 404 answers absent, a 200 that the repository exists, anything else is an error |
| `GitHub.CachingClient.GetLatestRelease` | internal/shared/github/github.go:103-175 | one step of the client specification; on a miss a 404 answers absent, a 200 the release it decodes to, anything else is an error; an undecodable entry is a miss |
| `GitHub.CacheInvariant` | internal/shared/github/github.go:64-187 | every entry stands for an answer that the response to exactly that question meant when the entry was written |
| `GitHub.AnswersAreFresh` | internal/shared/github/github.go:64-187 | after any calls with any failures, exists is answered only from a 200, absent only from a 404 and a release only from a 200 that decoded to it, each for the same question less than the time-to-live ago; an error only if this round trip gave none of these, and it leaves the cache untouched |
| `GitHub.ZeroTtlNeverExpires` | internal/shared/github/github.go:177-187 | with a time-to-live of zero an answer is served at any age |

## Left out

- Outbox.Relay.Flush: requires batchSize > 0; with zero a batch publishes nothing and is not short, so the loop does not stop.
- Transactor.Within: appears as the all-or-nothing contracts of the methods; nested calls joining the outer transaction are not modelled, since no use case nests.
- A commit reported as failed is a rollback; one that landed all the same equals a commit for the tables. Handlers and transactions that fail are no step of a run.
- Outside `RelayProtocol`, where ids are handed out at insert, commit order is id order.
- UUIDs and tokens are fresh values; confirmation tokens are represented by the pair they verify to; JSON encoding is injective.
- The fresh saga ids of confirmed, removed, expired and detected events are read by no consumer and are omitted; the saga type is always subscribe; `repositories` is folded into the repository name.
- The composed system delivers any published event in any order and number; `MaxDeliver`, ack, nak and term are not modelled. `Views` assumes log order for one durable; `ReleaseDelivery` assumes one detection in flight (consumers use one pending ack) and a single retrier.
- Listing order (`ORDER BY failed_at`) is left open: the methods are proved for any order.
- The mailer's job channel and dispatcher goroutine: a queued batch is sent before its result is awaited or given up. SMTP and templates are reduced to build and send outcomes.
- Worker concurrency in a scan is reduced to the completion order; stopping early on rate limits is a scan that observed fewer releases.
- An API round trip is instantaneous: cached entries carry the time of the call.
- HTTP, Connect and gRPC handlers, validation, authorisation, the list use case, metrics, logging, configuration and migrations are not modelled.
