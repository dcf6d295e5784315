# Spacetime-node: the shared tables, their events and their readers

This project models the backend that several Go services form around one PostgreSQL database: points, stock and
redemptions, the transactional outbox with its publishers and consumers, recommendation ranking with its two read
paths, the copy template and its validator, and the beacon resolver cache.

## How the model is laid out

- `Schema` holds the tables as one value, with the checks, unique indexes and references of the migrations.
- The atomic meaning of each call is a function on those tables: `Redemptions`, `Users`, `Journeys`, `Notifications`,
  `Recommending`, and in `System` the set of all operations. Lemmas beside each function say what it answers and
  changes in terms of the rows alone, such as `Redemptions.FirstAnswers` and `Journeys.RecordAnswers`. `Invariants`
  and `System` prove the invariant every operation keeps; `Histories` draws the statements about whole runs from it.
- `Database` has a class for the database and one for a transaction, with one method per SQL statement. The services
  as they run, statement by statement, are the methods of `RedemptionService`, `GatewayService`,
  `NotificationWorker` and `RecommendationService`; each is proved equal to its atomic meaning, rollback included.
- `OutboxTable` is the publishing state of outbox rows, shared by all that touch it; `Reading` says what reads of
  recommendations return after any run.
- `Interleaving` runs `Create` and `Verify` a second time, as single statements of any number of clients under row
  locks; `Linearizability` proves that this is the atomic system, and `Concurrency` carries the run invariants over.
- `Outbox` is the publisher, `Processing` the claim-based consumer step, `AnalyticsConsumer` the insert-then-commit
  loop, and `Pipeline` the services, publishers, broker and analytics consumers together, with crashes anywhere;
  `Settling` proves that it can always come to rest. `Ordering` says when the log keeps the order of the rows, and
  `Overtaking` shows how two publishers undo it.
- `Ranking`, `ReadPaths` and `Recommending` are scoring, ordering and reading back, `Untitled` an example where
  reading back falls short; `Copy` and `Text` the wording; `Feedback` the learned weights; `Resolver` and `Resolving`
  the beacon resolver alone and interleaved.

## What the model takes as given

- A user row is addressed by its unique `user_id_hash`. The ledger is kept per user, in insertion order.
- Offer category, cost, merchant and window are fixed during a run; stock changes through redemptions only.
- PostgreSQL commits are atomic, and `FOR UPDATE` reads the row again after waiting. `current_timestamp` is the start
  of the transaction and comes in as a parameter, as do all clocks, minted identifiers and outcomes of remote calls.
- Minted UUIDs are non-empty and free of U+0000. That they are also fresh is assumed in `Interleaving` only; everywhere
  else a collision is a constraint error that rolls the call back. The version-5 UUID of a feedback identity
  (section 5.5 of RFC 9562) is collision-free, so the identity string stands for it.
- PostgreSQL refuses U+0000 in text parameters, text columns and JSONB; every modelled statement that binds or stores
  a string a client can choose fails on it, and the call rolls back.
- Size limits of PostgreSQL are modelled where a client can reach one: the idempotency key in the B-tree entry of
  UNIQUE (user_id, idempotency_key), 2704 bytes with its header and the user id, and the score in NUMERIC(8,4). Whether
  a longer key compresses far enough is up to PostgreSQL, so its compressed size is a parameter of the call. Every
  other value is assumed to fit.
- The outbox's `occurred_at` is the start of the enqueuing transaction, so a new row may sort before rows already
  there; the position is a parameter. Selecting a batch is one step: the oldest waiting rows nobody has locked, up to
  the limit. In `Ordering` a row that commits during a call counts as arriving after it.
- Preference weights, multiples of 0.25, are kept in quarters. Scores are exact reals.
- Trimming, case mapping and digit classification are parameters; the copy proofs ask only that ASCII digits are
  digits and that the template's own punctuation is not.
- A write the broker acknowledges is in the log. Other writes may be in it too.

## Where code and documentation differ

- `docs/architecture.md:249` promises that the events of one user keep their order within one partition. The writer is
  given no balancer that looks at the key (`internal/platform/outbox/outbox.go:48-50`), so the partition is left open
  here. Even within one partition the order is kept only under two conditions. One publisher alone keeps it, whatever
  fails, if and only if no row arrives behind one that is in the log already (`Ordering.OneKeepsOrder`). Two publishers,
  and several services run one each, can undo it without any failure: the second skips the row the first has locked
  (`Overtaking.EntriesOvertake`). The pipeline results claim no order; exactly-once projection does not need one.
- A redemption can pass every check and still never commit, for three reasons: the offer costs nothing, which
  `migrations/postgres/000001_core.sql:68` allows and the ledger refuses; the trace id has a U+0000, which the handler
  accepts and the JSONB column refuses; or the idempotency key, whose length nothing limits, is too long for its unique
  index. Under the assumptions above `Redemptions.GrantCommits` gives the exact condition,
  `Redemptions.GrantedYetRolledBack` and `Redemptions.LongKeyRolledBack` inputs for each failure on legal tables, and
  `Histories.NoFreeRedemptions` the consequence for whole runs.
- The template can fail its own validation: `Copy.TemplateAccepted` says exactly when, and `Copy.ForeignNumber` and
  `Copy.TemplateCanFail` show facts for which it does.
- The integer printer prints the least 64-bit value without digits: `Resolver.FormatParses` has the exact condition.
- The plain reader drops untitled candidates that `Recommend` returns: `ReadPaths.ReaderAgrees` has the exact condition,
  `Untitled.UntitledIsDropped` tables on which it happens.

## Model

| member | source | states |
|---|---|---|
| RedemptionService.Create | internal/redemption/service.go:61-193 | the statements in order end in exactly the atomic outcome: one of the refusals, the replay, or all six writes together; a failing statement leaves the committed tables as they were |
| Redemptions.FirstAnswers | internal/redemption/service.go:98-140 | a first request of a known user is told journey not found, already redeemed, unavailable or too expensive exactly when the rows say so, in that order; unavailable means missing, inactive, outside its window or out of stock |
| Redemptions.OtherAnswers | internal/redemption/service.go:62-97 | an incomplete request is invalid, an unknown user not found, and a key used before gives its row or a conflict |
| Redemptions.UnstorableAnswers | internal/redemption/service.go:74-130 | a string that cannot be bound fails the call at its statement and not before |
| Redemptions.OnlySalesChange | internal/redemption/service.go:62-140 | a call that changes anything sold an offer inside its window, in stock and affordable, to its user on their own journey, not redeemed before |
| Redemptions.SaleChanges | internal/redemption/service.go:154-181 | balance, stock, version, redemption row and ledger entry after a sale, in terms of the rows before |
| Redemptions.SaleIsAnnounced | internal/redemption/service.go:331-373 | exactly one new event, of the sold offer, redemption, user, journey and trace |
| Redemptions.SaleLeaves | internal/redemption/service.go:182-184 | the one weight a sale moves, by how much, and the tables it leaves alone |
| RedemptionService.WriteRedemption | internal/redemption/service.go:142-187 | the six writes succeed exactly when no constraint is broken, the key fits its unique index and the event can be stored, and then give exactly the granted tables |
| RedemptionService.WriteBooks | internal/redemption/service.go:152-181 | row, absolute balance, stock decrement and ledger entry, or a failed constraint: an id or code in use, a key too long for its index, a zero entry |
| RedemptionService.WriteSignals | internal/redemption/service.go:182-187 | the weight and the event, which fails exactly on an event id in use or a trace id the payload column refuses |
| RedemptionService.ExistingRedemption | internal/redemption/service.go:375-395 | finds the redemption under (user, key) if there is one |
| Histories.CreatedIsReadBack | internal/redemption/service.go:195-218 | any run after a granted `Create`, `Get` returns the created row with at most its status advanced to verified |
| RedemptionService.Verify | internal/redemption/service.go:220-282 | checks merchant and code, moves succeeded to verified with one event, acknowledges verified ones without writing |
| Redemptions.VerifyAnswers | internal/redemption/service.go:229-281 | each answer exactly when the rows call for it; verification fails exactly when code or merchant differs |
| Redemptions.IncompleteVerify | internal/redemption/service.go:221-223 | a call is invalid exactly when one of its four fields is empty |
| Redemptions.VerifyChanges | internal/redemption/service.go:256-281 | a call that changes anything turned one succeeded row, whose code and merchant were presented, into verified, with its event |
| Histories.OnlyProofVerifies | internal/redemption/service.go:256-274 | no operation of any service changes a redemption but a `Verify` with its code and its offer's merchant, from succeeded to verified |
| Histories.VerifiedWasPresented | internal/redemption/service.go:256-274 | after any run each verified redemption was presented, with its code, to the merchant of its offer |
| RedemptionService.ApplyPreferenceFeedback | internal/recommendation/feedback.go:19-48 | the upsert inserts or accumulates with the clamp, and fails exactly when user or offer is missing |
| Feedback.OneSignal | internal/recommendation/feedback.go:54-65 | a click adds 0.5, a dismissal takes 0.75, a redemption adds 1.5, each counted on its own counter, anything else nothing |
| Feedback.SignalMoves | internal/recommendation/feedback.go:30-47 | a signal moves the row of that user in the category of that offer and no other |
| Redemptions.GrantCommits | internal/redemption/service.go:142-191 | with fresh identifiers, a call that passes every check commits, and changes anything at all, if and only if the offer costs something, the trace id has no U+0000 and the unique index takes the key, as it does up to 669 characters |
| Redemptions.GrantedYetRolledBack | internal/redemption/service.go:174-191 | for any user, legal tables where a free offer, and a trace id with U+0000, pass every check and are rolled back, while the same call with neither commits |
| Redemptions.LongKeyRolledBack | internal/redemption/service.go:156-165 | so is every call on those tables whose key has more than 2676 characters and does not compress into as many bytes |
| Linearizability.Linearizable | internal/redemption/service.go:66-192 | every interleaving of statements of `Create` and `Verify`, with aborts anywhere, leaves the tables of the logged calls run one after another; every answered client holds exactly the reply of a log entry of its own call, made after the call began, and no two clients share an entry |
| Linearizability.MoveRefines | internal/redemption/service.go:224-281 | each single statement either changes nothing observable or is the whole atomic call with its reply, and keeps what each client has read current |
| Linearizability.MoveKeepsRecount | internal/redemption/service.go:224-281 | every move keeps each client's history: what it is about to be told and what it has been told is the reply logged for its call |
| Linearizability.StepKeepsOthers | internal/redemption/service.go:74-138 | a commit never makes stale what another client has read under its locks |
| Linearizability.DeadlockFree | internal/redemption/service.go:74-138 | in every state with an unfinished call, some unfinished call can take its next lock |
| Linearizability.Progress | internal/redemption/service.go:142-192 | every statement and every abort uses up remaining work |
| Linearizability.BoundedRuns | internal/redemption/service.go:61-282 | without new calls no run is longer than the work outstanding at its start |
| Linearizability.AllFinish | internal/redemption/service.go:61-282 | from every reachable state the outstanding calls can be driven to their replies by statements alone |
| Concurrency.InterleavingsAreRuns | internal/redemption/service.go:66-192 | every interleaving ends in the tables of an atomic run, so it keeps conservation, uniqueness and the event invariants |
| System.OpKeeps | migrations/postgres/000001_core.sql:49-101 | every operation of every service keeps the schema constraints and all cross-table invariants |
| System.RunsAreSound | migrations/postgres/000001_core.sql:49-101 | so does every run, with refusals, rollbacks and repeats |
| System.CreateTxKeeps | internal/redemption/service.go:61-193 | `Create` keeps ledger, stock, uniqueness, weights and events consistent, whatever it decides |
| System.VerifyTxKeeps | internal/redemption/service.go:220-282 | `Verify` keeps them too, and its event goes with the status change |
| Histories.LedgerConservation | internal/redemption/service.go:142-181 | after any run each balance is the sum of the user's ledger, every `balance_after` is the running sum, none is negative |
| Histories.StockConservation | internal/redemption/service.go:110-174 | stock plus live redemptions is the opening stock, the version counts them, stock is never negative, no user holds two live redemptions of an offer |
| Histories.NoFreeRedemptions | migrations/postgres/000001_core.sql:79 | no run ever holds a redemption that cost nothing |
| Histories.ExactlyOneEvent | internal/redemption/service.go:185-280 | each redemption has one succeeded event, one verified event if and only if it is verified, and the events tell the truth about their row |
| Histories.RunPersists | internal/platform/outbox/outbox.go:25-42 | no operation ever takes back a user, journey, recommendation, redemption, delivery, claim, dismissal, message or publishing mark, changes a delivery or a ledger entry, or moves a redemption out of verified; ledgers grow only at their end |
| Histories.CreateReplay | internal/redemption/service.go:85-97 | once (user, key) has a redemption, any run later the same pair gets that redemption or a conflict and changes nothing |
| Histories.VerifyReplay | internal/redemption/service.go:256-264 | once verified, any run later `Verify` changes nothing and an accepted one answers the same row |
| Histories.RepeatErasure | internal/redemption/service.go:85-97 | striking any repeated `Create`, `Verify` or feedback calls out of a run, all of them or some, leaves the final tables the same |
| Users.ProvisionedOnce | internal/user/service.go:34-50 | a new user starts with 1200 points and the entry that accounts for them; provisioning again changes nothing, and nobody else is touched |
| GatewayService.EnsureDemoUser | internal/user/service.go:34-50 | user row and opening ledger entry appear together or not at all |
| GatewayService.CreateEntryEvent | internal/journey/service.go:75-182 | provisions the user, inserts the journey and its event in one transaction, or changes nothing |
| Journeys.EnterAnswers | internal/journey/service.go:75-182 | an entry is invalid exactly for a bad hash or a missing or unknown station, and accepted exactly if besides its journey and event can be inserted |
| Journeys.EnterChanges | internal/journey/service.go:120-182 | an accepted entry leaves one new journey of the user at the station, its event, and the user provisioned |
| GatewayService.RecordRecommendationEvent | internal/journey/service.go:326-468 | the statements in order are the atomic call: refusal, acknowledged repeat, or claim, weight, dismissal and event together |
| Journeys.RecordAnswers | internal/journey/service.go:326-412 | each answer exactly when the request and the rows call for it; an offer that is neither primary nor an eligible candidate is refused, and the id answered is that of the offer meant |
| Journeys.OfferedIsAcknowledged | internal/journey/service.go:395-468 | feedback on an offered offer is acknowledged exactly if it is claimed already or everything can be written |
| Journeys.OnlyOfferedIsRecorded | internal/journey/service.go:371-405 | a call that changes anything was about an offered offer of the user's own recommendation and claims the event of the offer meant |
| Journeys.FeedbackIsAnnounced | internal/journey/service.go:414-463 | one new event naming the offer meant, and its dismissal exactly for dismissals |
| Journeys.FeedbackMovesOneWeight | internal/journey/service.go:411-413 | only the user's weight in the category of the offer meant moves, and not for impressions |
| Journeys.IdentityText | internal/journey/service.go:470-475 | the six parts that make up a feedback identity, in order |
| GatewayService.WriteFeedback | internal/journey/service.go:411-463 | weight, dismissal row exactly for dismissals, and event, or a failed statement |
| GatewayService.AllowedOffer | internal/journey/service.go:384-394 | the scan accepts exactly the stored eligible candidates |
| Journeys.JoinInjective | internal/journey/service.go:470-475 | joining with U+0000 is injective on parts without U+0000 |
| Journeys.JoinCollides | internal/journey/service.go:470-475 | with U+0000 inside a part it is not |
| Journeys.IdentityInjective | internal/journey/service.go:470-475 | one feedback identity means one user, journey, recommendation, offer and type |
| Histories.FeedbackReplay | internal/journey/service.go:395-413 | a claimed feedback, any run later, is acknowledged with the same id and changes nothing |
| Histories.RecordingClaims | internal/journey/service.go:398-413 | every acknowledged feedback call has left its claim |
| Histories.WeightHistory | internal/recommendation/feedback.go:35-47 | after any run a weight row is the accumulation, in order, of exactly the signals committed for it |
| Histories.RedemptionCounter | internal/redemption/service.go:182-184 | after any run the redemption counter is the number of that user's redemptions in the category, and the weight is within its bounds |
| Feedback.WeightBounds | internal/recommendation/feedback.go:19-61 | over any history the weight is in [-5, 5] and between -0.75 per dismissal and 0.5 per click plus 1.5 per redemption, and the counters are exact |
| Feedback.PlainWhileUnsaturated | internal/recommendation/feedback.go:39-47 | the weight is the plain sum at every point of a history if and only if no prefix sum leaves [-5, 5] |
| NotificationWorker.Deliver | internal/notification/worker.go:101-219 | the loop over the subscriptions is the atomic delivery: rows, deactivations and events together, or nothing |
| Notifications.UnwantedIsNotSent | internal/notification/worker.go:106-108 | with notifications switched off, or a window not configured or closed, nothing is delivered, announced or switched off |
| Notifications.OnlyActiveSubscriptionsServed | internal/notification/worker.go:109-115 | every new delivery is for the event's recommendation, to a subscription of its user that was active when the worker looked |
| Notifications.PushLeaves | internal/notification/worker.go:152-217 | the row, the events and the subscription after one push, by what the provider answered |
| Notifications.PushFits | internal/notification/worker.go:160-217 | when one push can be recorded |
| Notifications.HandledEvents | internal/notification/worker.go:41-47 | which events the worker handles |
| Notifications.NotForTheWorker | internal/platform/outbox/outbox.go:150-175 | nothing comes of any other event, of one whose id cannot be bound, or of one claimed before |
| NotificationWorker.DeliverToOne | internal/notification/worker.go:134-216 | one subscription: skip if delivered, otherwise its row with the events its status calls for, switching off a gone endpoint |
| NotificationWorker.Process | internal/notification/worker.go:84-86 | claim and delivery commit together or roll back together, and the call fails exactly when the handler does or the event id cannot be stored |
| NotificationWorker.FailsIfUnclaimed | internal/platform/outbox/outbox.go:155-186 | a call fails exactly when it leaves the event unclaimed or could not claim it |
| NotificationWorker.Worker.Run | internal/notification/worker.go:66-98 | every message before the committed offset is undecodable or has its claim committed, the tables are those of the messages handled in order, and the loop stops only at a failed fetch, a failed handler or a failed offset commit |
| NotificationWorker.SettledIsVoid | internal/notification/worker.go:66-98 | a session that starts over from an earlier offset changes nothing until it is past what was settled |
| Notifications.EveryRowServed | internal/notification/worker.go:134-217 | after the loop each listed subscription has its one row: the one it had, or one with the status its push earned |
| Notifications.EveryActiveSubscriptionServed | internal/notification/worker.go:101-217 | if the claim commits, every subscription active at the query has a row for the recommendation; otherwise nothing has changed |
| Histories.DeliveriesMatchEvents | internal/notification/worker.go:167-215 | after any run each delivery row has exactly the events of its status: sent, sent and delivered, or failed |
| Histories.EventsHaveDeliveries | internal/notification/worker.go:167-215 | every committed notification event belongs to exactly one delivery row |
| Outbox.Publisher.PublishPending | internal/platform/outbox/outbox.go:76-148 | a call marks, counts and logs exactly what its writes and its commit allow, an unacknowledged message taken or not, and keeps published rows in the log |
| Outbox.Publisher.WriteInOrder | internal/platform/outbox/outbox.go:111-143 | writes the batch in order up to the first write that is not acknowledged, marking exactly those in its transaction |
| Outbox.AttemptKeepsInStep | internal/platform/outbox/outbox.go:111-147 | whatever fails or crashes, even a write that failed after the broker took it, a published row is in the log and the log holds only enqueued messages |
| Outbox.AttemptAnswers | internal/platform/outbox/outbox.go:111-147 | the count, the result and the log of a call, write by write: the batch in order up to the first write not acknowledged, which the broker may have taken |
| Outbox.MarksArePrefix | internal/platform/outbox/outbox.go:120-135 | the rows newly marked are a prefix of the batch, a proper one after a failed write, with one more attempt counted on the failing row alone |
| Outbox.PendingAfterMarks | internal/platform/outbox/outbox.go:87-93 | marking a prefix leaves exactly the other pending rows, in the same order |
| Outbox.RoundsDrain | internal/platform/outbox/outbox.go:52-148 | publishing calls whose writes succeed take min(limit, pending) rows off each, oldest first, and after any number of them the log has got exactly those messages in that order |
| Outbox.EnoughRoundsDrain | internal/platform/outbox/outbox.go:52-148 | enough such calls leave nothing pending |
| Processing.Processor.Process | internal/platform/outbox/outbox.go:150-187 | claim and handler effect commit together; a repeat runs nothing; a failure leaves neither |
| Processing.StepAnswers | internal/platform/outbox/outbox.go:150-187 | what each answer means; only a processed event leaves anything, its own claim and its handler's effect |
| Processing.ExactlyOnce | internal/platform/outbox/outbox.go:150-187 | for any handler and any deliveries, after any number of them, the state is the first successful delivery of each event, run once each in delivery order, and the claims are exactly those events |
| Processing.ProcessedIffFirstSuccess | internal/platform/outbox/outbox.go:163-186 | a delivery takes effect exactly if its handler succeeds on the state it meets and failed at every earlier delivery of the event |
| Processing.UnclaimedAlwaysFailed | internal/platform/outbox/outbox.go:175-186 | a delivered event is left unclaimed only if its handler failed at every delivery |
| Processing.RepeatsDoNotCount | internal/platform/outbox/outbox.go:168-174 | with a handler that succeeds, deliveries with repeats amount to one run per distinct event in first-seen order, and the claims are exactly those of the distinct events |
| AnalyticsConsumer.Reader.Consume | internal/analytics/consumer.go:38-67 | projects what it commits, commits nothing it has not projected, and is at most one message ahead of its commits |
| AnalyticsConsumer.RedeliveryIsVoid | internal/analytics/consumer.go:41-65 | replaying any projected messages, in any order and number, changes nothing |
| AnalyticsConsumer.RestartsAreVoid | internal/analytics/consumer.go:41-65 | a session that starts over from an earlier offset ends where an uninterrupted one would |
| Analytics.DecodeAccepts | internal/analytics/events.go:68-84 | exactly which messages are accepted |
| Analytics.DecodeKeeps | internal/analytics/events.go:85-93 | what is kept of an accepted message, field by field |
| Pipeline.EndToEnd | internal/analytics/consumer.go:41-65 | once nothing is pending and all offsets are at the log end, the projection holds exactly the outbox, despite any crashes and duplicates, with one succeeded event per redemption and one verified event exactly for verified ones |
| Pipeline.NothingLostOrInvented | internal/platform/outbox/outbox.go:111-147 | at every moment a published row is in the log, the log holds only enqueued messages, the projection only decoded outbox rows |
| Settling.CanSettle | internal/platform/outbox/outbox.go:52-148 | from every reachable state with a publisher, publishers and consumers that just finish their work, with no crash and no service call, reach such a quiet state, where the projection mirrors the outbox; every batch is the oldest unlocked rows up to the limit |
| Ordering.OneKeepsOrder | internal/platform/outbox/outbox.go:76-148 | one publisher, any sequence of calls with any failures and rows arriving in between: repeats apart, the log has the rows in (occurred_at, event_id) order without a gap if and only if no row arrives behind one that is in the log already |
| Ordering.PartitionInOrder | internal/platform/outbox/outbox.go:111-117 | then so does every partition that takes the same rows at every write |
| Overtaking.EntriesOvertake | internal/platform/outbox/outbox.go:87-93 | from the empty system, two publishers and two entries of one user, nothing failing: the log ends up with the second before the first |
| Overtaking.OrderIsNotKept | internal/platform/outbox/outbox.go:87-93 | from any state where one publisher has selected a row and a service then enqueues the next, the other can select that one and write it first |
| Pipeline.OldestIsBatch | internal/platform/outbox/outbox.go:87-93 | a publisher that is alone selects exactly the batch of the single-publisher model |
| Pipeline.ServeIsFree | internal/platform/outbox/outbox.go:25-33 | the row order never keeps a service from committing |
| Pipeline.MoveKeeps | internal/platform/outbox/outbox.go:76-148 | every move of services, publishers, broker and consumers, crashes included, keeps the flow invariant |
| Pipeline.MovesAreAttempts | internal/platform/outbox/outbox.go:111-147 | what a publisher leaves in the rows, when it finishes, gives up or dies, is what a single call leaves there |
| Ranking.Hits | internal/recommendation/qdrant.go:114-123 | no recalled hit is unnamed |
| Ranking.HitOfPoint | internal/recommendation/qdrant.go:114-123 | a point stands for the offer its payload names, or else for its own id; without either it is skipped |
| Ranking.HitsJoin | internal/recommendation/qdrant.go:114-123 | the hits are those of the points one by one, in recall order |
| Ranking.Adjust | internal/recommendation/recommendation.go:318-358 | the adjustments one by one give the exact score, reasons and eligibility |
| Ranking.ScoreAdjusted | internal/recommendation/recommendation.go:331-355 | the score is the vector score plus 0.20 for the destination, 0.10 within budget, 0.05 for the last five, 0.10 for a preferred category and 0.05 times the learned weight |
| Ranking.ReasonsGiven | internal/recommendation/recommendation.go:322-359 | the reasons of a found offer, in order |
| Ranking.CandidateOf | internal/recommendation/recommendation.go:310-358 | what a candidate takes from its offer, and that it is eligible exactly if the user could take the offer; a stale one is neither |
| Ranking.BetterStandsFirst | internal/recommendation/recommendation.go:331-376 | of two offers with equal vector scores that could be taken, the one better in one of the five respects stands first, and the other is not chosen |
| Ranking.RankingIsByScore | internal/recommendation/recommendation.go:361-366 | highest score first, then smallest id |
| Ranking.StringsByRunes | internal/recommendation/recommendation.go:363 | ids compare by their first difference, a prefix first |
| Ranking.RejectedIffNotTakeable | internal/recommendation/recommendation.go:322-358 | the scan over reason strings finds a rejection if and only if the offer is closed, out of stock or too expensive; no signal is mistaken for one |
| Ranking.EvaluateHits | internal/recommendation/recommendation.go:307-360 | one evaluation per hit, in recall order, stale hits included |
| Ranking.MatchesPreferredCategory | internal/recommendation/recommendation.go:445-456 | true exactly for a non-empty category equal to a preferred one after trimming and lower-casing |
| Ranking.ScanRejection | internal/recommendation/recommendation.go:512-519 | true exactly if some reason is a rejection |
| Ranking.RejectingReasons | internal/recommendation/recommendation.go:512-519 | which reasons reject: two words, and any reason with a certain prefix |
| Ranking.RankIsOrdered | internal/recommendation/recommendation.go:361-366 | the result is ordered by score descending, then offer id ascending |
| Ranking.RankingIsTheOnlyOrder | internal/recommendation/recommendation.go:361-366 | any ordered permutation of the evaluations is the same list, so the sort algorithm does not matter |
| Ranking.RankingIsCanonical | internal/recommendation/recommendation.go:307-366 | the ranking does not depend on recall order, even with repeated offers |
| Ranking.ChosenIsTakeable | internal/recommendation/recommendation.go:367-376 | the chosen offer is a recalled, unredeemed one at the station that is open, in stock and affordable |
| Ranking.ChosenIsBest | internal/recommendation/recommendation.go:367-376 | every recalled offer the user could take is the chosen one or ranks behind it, so no choice means no such offer |
| System.RecommendKeeps | internal/recommendation/recommendation.go:194-443 | whatever the sources answer, the call keeps every invariant of the tables |
| Recommending.ChosenHeadsTheList | internal/recommendation/recommendation.go:403-422 | the recommended offer heads the returned list, with the generated copy |
| Recommending.EarlyAnswers | internal/recommendation/recommendation.go:196-221 | the answers given before the tables are read |
| Recommending.JourneyAnswers | internal/recommendation/recommendation.go:228-250 | user, journey and station errors exactly when the rows call for them, in that order |
| Recommending.NoneToTake | internal/recommendation/recommendation.go:367-376 | no eligible offer is answered exactly when the user could take none of the recalled ones |
| Recommending.RecommendedIsBest | internal/recommendation/recommendation.go:307-403 | the row holds the ranked recalled offers; its offer could be taken and none of those that could has a higher score |
| Recommending.RecommendedIsWorded | internal/recommendation/recommendation.go:378-402 | its wording is generated from the offer's and the station's own fields and the first three reasons |
| Recommending.OnlyTheCopyFails | internal/recommendation/recommendation.go:367-402 | once some recalled offer could be taken, a best one is worded, and the call fails on the copy exactly if no copy of it can be made |
| Recommending.StoreFits | internal/recommendation/recommendation.go:431-436 | when row and event can be stored |
| Recommending.RecommendChanges | internal/recommendation/recommendation.go:431-443 | a successful call leaves exactly the row and its event |
| Reading.ReadBack | internal/recommendation/recommendation.go:458-510 | however many operations later, the stored row is the recommended one, the one the readers find unless the journey got another at least as new, and the plain reader returns the same offers exactly when no listed candidate is untitled |
| Reading.DismissedStaysAway | internal/journey/service.go:223-245 | once a dismissal is claimed its row exists, and no later read of that recommendation offers the offer |
| Reading.RunsKeepNames | internal/recommendation/qdrant.go:114-123 | after any run every stored candidate has an offer id and every offer one title, which is what the readers rely on |
| ReadPaths.SelectNewest | internal/recommendation/recommendation.go:465-470 | the row read is a newest one of the journey, and there is none only if the journey has no row |
| ReadPaths.ReaderAgrees | internal/recommendation/recommendation.go:485-509 | with one limit both lists are equal if and only if none of the listed candidates is untitled |
| Untitled.UntitledIsDropped | internal/recommendation/recommendation.go:485-509 | legal tables on which the call returns a titled and an untitled offer and stores a row that lists only the titled one |
| ReadPaths.RebuildOffers | internal/recommendation/recommendation.go:485-509 | the loop returns the first `limit` eligible titled candidates, the primary one with its copy |
| ReadPaths.Scan | internal/journey/service.go:231-266 | the loop lists the first `limit` eligible, titled, undismissed candidates, reports all candidates up to there, dismissed ones as ineligible, and selects the first listed one that has an id, as all do in every run |
| ReadPaths.ReadAnswer | internal/journey/service.go:227-282 | the top-level offer, title, body and reasons are those of the first listed offer that has an id, or the nothing-left form when there is none |
| ReadPaths.AppendUniqueReason | internal/journey/service.go:310-317 | appends the reason only if it is not there |
| ReadPaths.HiddenNotListed | internal/journey/service.go:236-245 | no list contains a dismissed offer |
| ReadPaths.ShownFields | internal/journey/service.go:251-263 | the primary offer is shown with the stored copy, any other with its own title, description and reasons |
| ReadPaths.KeptExactly | internal/journey/service.go:231-247 | which candidates a list may show |
| ReadPaths.DismissedExactly | internal/journey/service.go:287-308 | which offers count as dismissed |
| ReadPaths.DimmedFields | internal/journey/service.go:236-239 | how a dismissed candidate is reported |
| RecommendationService.Service.Recommend | internal/recommendation/recommendation.go:194-443 | the statements in order are the atomic call: obstacle, no eligible offer, copy failure, rollback on a broken constraint or a score NUMERIC(8,4) cannot hold, or row and event together with the offer list |
| RecommendationService.Service.ListOffers | internal/recommendation/recommendation.go:403-422 | the loop lists the first eligible candidates up to the limit |
| RecommendationService.Service.Choose | internal/recommendation/recommendation.go:367-373 | index of the first eligible evaluation, or -1 |
| RecommendationService.Service.GetLatest | internal/recommendation/recommendation.go:458-510 | the first `limit` titled offers of a newest row of the journey, or that there is none |
| RecommendationService.Service.GetLatestRecommendation | internal/journey/service.go:184-285 | the undismissed offers of a newest row of the journey; its own offer, title, body and reasons are those of the first of them, or the nothing-left form |
| RecommendationService.Service.WithCandidateLimit | internal/recommendation/recommendation.go:99-107 | the limit stays between 1 and 50; a non-positive value is ignored |
| Copy.NumericTokens | internal/recommendation/copy.go:206-224 | the scan returns exactly the maximal digit runs |
| Copy.TokensJoin | internal/recommendation/copy.go:206-224 | the numbers of two strings around a digit-free separator are those of either string |
| Copy.TokensCut | internal/recommendation/copy.go:228-234 | a cut that does not split a number adds no number |
| Copy.ValidateCopyFacts | internal/recommendation/copy.go:98-108 | accepts exactly the facts within all length and count limits |
| Copy.ValidateCopyOutput | internal/recommendation/copy.go:110-125 | accepts exactly the copies within limits that show the fact tokens and the cost and no foreign number |
| Copy.OutputAccepted | internal/recommendation/copy.go:110-125 | the limits, tones, tokens and numbers a copy has to meet, one by one |
| Copy.TokenIsLead | internal/recommendation/copy.go:110-125 | what has to show up of a fact is its first 20 runes |
| Copy.BodyPieces | internal/recommendation/copy.go:47-60 | the wording, and where station, description and reasons are cut |
| Copy.TemplatePieces | internal/recommendation/copy.go:47-64 | the cuts of title and body, and the tone |
| Copy.LabelsJoined | internal/recommendation/copy.go:52 | how one to three reasons are joined |
| Copy.GeneratedIsTaken | internal/recommendation/copy.go:66-96 | a valid generated copy is taken exactly if a generator is configured and answers, and otherwise the template |
| Copy.NoTemplateNoCopy | internal/recommendation/copy.go:66-75 | without an acceptable template there is no copy |
| Copy.AllowedTokens | internal/recommendation/copy.go:118 | the allowed numbers are those of offer name and description, and the cost |
| Copy.BodyIsLeadAndTail | internal/recommendation/copy.go:51-57 | the 140-rune cut never reaches past the lead, which ends by rune 134, so it removes only reasons and time context |
| Copy.TemplateKeepsFacts | internal/recommendation/copy.go:47-64 | name token, cost and description token survive every cut |
| Copy.TemplateAccepted | internal/recommendation/copy.go:47-64 | the template passes its own validation if and only if the facts are valid and no shown piece has a number the facts lack |
| Copy.TemplateComplete | internal/recommendation/copy.go:47-64 | in particular when station, reasons and time context show no digit and neither cut splits a number |
| Copy.ForeignNumber | internal/recommendation/copy.go:47-64 | it fails for every station name that shows a number of its own, when name and description have none |
| Copy.TemplateCanFail | internal/recommendation/copy.go:47-64 | concrete valid facts for which it fails |
| Copy.CopySound | internal/recommendation/copy.go:66-96 | whatever any generator answers, the returned copy is within limits, shows the facts, has no foreign number, and is the template unless the generator's was taken |
| Text.DecimalRoundTrip | internal/mobility/resolver.go:189-210 | reading what is printed gives the number back |
| Text.NumeralRoundTrip | internal/mobility/resolver.go:189-210 | printing what is read gives a numeral without leading zero back |
| Resolver.FormatInt | internal/mobility/resolver.go:189-210 | the 20-byte buffer, filled from its end, is never overrun and holds the numeral |
| Resolver.FormatParses | internal/mobility/resolver.go:194-197 | printing is inverse to parsing for every 64-bit value except the least, whose negation wraps |
| Resolver.FormattedShape | internal/mobility/resolver.go:189-210 | digits without a leading zero, a sign exactly for negative values, no digit exactly for the least one |
| Resolver.KeyReadsBack | internal/mobility/resolver.go:185-187 | the parts of a cache key and their order |
| Resolver.KeyInjective | internal/mobility/resolver.go:185-187 | equal keys mean equal numbers and equal UUIDs up to trimming and case, even with colons in the UUID |
| Resolver.Normalize | internal/mobility/resolver.go:122-146 | a normalized context always has a station |
| Resolver.NormalizedFields | internal/mobility/resolver.go:122-146 | every field of a normalized context, from the mapping or from the response |
| Resolver.FallbackAnswers | internal/mobility/resolver.go:103-119 | fixture, else station fallback, else unavailable, with their sources and default confidences |
| Resolver.UsableAnswers | internal/mobility/resolver.go:83-102 | a usable response is the answer, and a cached one differs in its source alone |
| Resolver.Instance.Resolve | internal/mobility/resolver.go:78-120 | local cache, then Redis, then provider, then fixture or fallback, with exactly the cache writes that belong to each |
| Resolving.CallAlone | internal/mobility/resolver.go:78-120 | a call alone in the interleaved model runs to exactly the answer and the cache writes of the sequential one |
| Resolving.CachesAgree | internal/mobility/resolver.go:78-181 | in every interleaving over any number of instances each answer is, apart from the source, the uncached one, and only normalized provider answers are cached |
| Resolving.MoveKeepsInv | internal/mobility/resolver.go:148-181 | every step keeps the caches genuine and never drops or changes a cached value |
| Resolving.NoFallbackAfterStore | internal/mobility/resolver.go:83-97 | after a key is stored at an instance, a call arriving there never asks the provider or falls back |

## Left out

- RecommendationService.Service.GetLatest: the NUMERIC(8,4) rounding of the stored top-level score; the offer list
  uses the exact scores of the stored candidates.
- Resolving.CachesAgree: the provider, when it answers, is assumed to answer by the cache key.
- Histories.CreateReplay: the replayed row is the one current at the call, so its status may have advanced.
- NotificationWorker.Process: a push that was sent is not undone by a rollback; rows and events are unique, external
  sends are not.
- NotificationWorker.Worker.Run: other services' transactions between two messages; they only add claims
  (`Histories.RunPersists`).
- Pipeline.EndToEnd: says nothing about message order, which `Ordering` and `Overtaking` treat.
- Overtaking.EntriesOvertake: the two entries are of one user and reach one partition because the run says so; no
  function from key to partition is modelled.
- Settling.CanSettle: rest is always reachable, but not inevitable, since a writer or consumer may fail for ever.
- Linearizability.DeadlockFree: covers `Create` and `Verify` only; feedback calls take other row locks.
- Every journey getting a recommendation: the entry consumer passes over a failed one.
- `last_error`, spans, metrics, JSON and protobuf encodings, HTTP and gRPC wiring.
- Payload fields nothing reads downstream: surface, channel, provider name, failure code, experiment and variant.
- Integer overflow of balances, stock and counters; BIGINT matters only for the printed cost and the beacon numbers.
- The vector search beyond its point list, embeddings, the offer indexer, and the cap on the recall limit.
- The preference cache and its expiry, preference updates beyond leaving balances alone, and station fixtures.
- The notification window and its time zones: an opaque predicate of the delivery model.
- Migration seeds, dashboards, load tests and demo tooling.
