# Verified model of the control plane's durable protocols

This project models, in Dafny, the parts of the control plane whose promises quantify over whole runs, and proves
those promises. A *run* is any interleaving of a protocol's durable writes with everybody else's, with a process
dying at any await in between.

* **The auto-iteration loop** (`Identity`, `LoopProtocol`, `LoopInvariant`, `LoopRuns`, `LoopTermination`,
  `LoopService`). The ten-stage loop from execution to review request, routing, delivery, completion, verdict and
  the next actuation. Exactly-once creation per round, identities, terminal stages, caps and retry budgets.
* **The browser extension's delivery lease** (`LeaseProtocol`, `LeaseRuns`, `LeaseWorker`), its **completion
  watches** (`CompletionLease`, `CompletionWorker`), **document epochs** (`DocumentEpochs`) and **evidence outbox**
  (`EvidenceOutbox`): memory and stored image are separate, and the worker dies at any await.
* **The capability negotiator** (`Negotiation`, `NegotiationRuns`, `CapabilityTimeline`, `CapabilityNegotiator`):
  starts, clicks, reconnects and two deadlines race for one of two providers.
* **Record updates** (`RecordQueue`, `RecordStore`, `ReviewDelivery`, `ReviewResult`): the per-file promise queue,
  linearisation of read-modify-publish operations, and the two record types behind it.
* **The conversation correlation registry** (`Correlation`, `CorrelationRegistry`).
* **OAuth tokens and instance migration** (`Tokens`, `TokenStore`, `Migration`, `WorkspaceGrants`,
  `InstanceMigration`).

Each protocol has a state and a set of atomic actions with `Enabled` and `Effect`; `Legal` and `Run` extend them to
logs, and the main results are lemmas over every legal log. The class beside it has the source's control flow:
its methods change fields statement by statement, loops included, and a ghost log proves that every write they make
is one enabled action. At each await a method calls a loop that lets everybody else do anything the protocol allows,
so what is proved of all runs holds of this code. An operation that dies returns at once with nothing further
written.

Ids made by hashing are symbolic (`Identity.Id`): SHA-256 is taken to be one-to-one on its preimage, and
`NamesAreFaithful` proves that the preimage, built with NUL separators, is one-to-one in kind, loop id and iteration.

## What does not hold, and when it does

These are properties one would expect of the code that are false in general; for each there is a concrete run, and
the condition under which the property does hold.

* `completion_attempt_count` can exceed its limit of 5: the count is stored before the decision to stop, so each
  process that dies in between lets the next one count once more (`LoopTermination.TimeoutsAreUnbounded`). It never
  exceeds 5 plus the number of decisions lost so since it was last at zero (`TimeoutsWithinBudget`), and a run exceeds
  5 if and only if a handler dies between the fifth count and the decision and a later one counts again
  (`TimeoutsExceedExactlyWhen`).
* The verdict-recovery detour cannot be reached by a loop started by this version, since the requests it creates ask
  for the tool protocol (`LoopTermination.FreshLoopsNeverDetour`).
* A delivery acknowledgement with an empty error text is accepted and stored, and then refused by the validators of
  the next start, which block delivery recovery for good (`LeaseRuns.EmptyTextBlocks`, `BlockedIsForever`). The image
  loads if and only if the text is not empty (`QueuedImageLoads`); the page's own texts never are.
* The epoch accepted for one document of a tab can fall once the document has dropped out of the eight remembered
  ones (`DocumentEpochs.ForgottenExactlyWhen`, `ForgottenStartsAgain`), and when the worker falls back to its stored
  copy, by a restart or by dying before a write, while a rejected write is outstanding (`RefusedWriteFallsBack`). If
  memory is what is stored at every fall-back it never does (`EpochsNeverDecrease`); an epoch reached is kept exactly
  if the stored copy has it at every fall-back (`ReachedExactlyWhile`); and if the stored copy has the present document
  at a lower epoch, exactly the epochs from that one on are accepted again (`StaleStoreAcceptsAgain`).
* A user's click on "standalone" can be overridden (`NegotiationRuns.ClickedAndDesktopStarted` gives both ways).
  Unless "recheck" is clicked first, the decision after an accepted click is for Desktop if and only if
  `waitForDesktop` has already answered "ready" and `startOnce` has not yet gone on, or the preparation under way comes
  back ready; at every other moment, while polling, choosing or after a failure, it is for the standalone provider
  (`SelectionLosesToReadyDesktop`). A continuation accepts the click and ignores it (`ContinuationIgnoresClicks`).
* Observing before the registry has been restored puts restored, older correlations behind new ones, and a new one
  can be evicted for an old one (`Correlation.EarlyObservationLost`). An entry the file has a later observation of
  moves behind and is never lost. Any other, those whose file entry is no later included, survives exactly if it, the
  early entries behind it that do not move, and what the file adds fit together (`EarlyObservationsAreEvictedFirst`).
  Nor is what was restored written next to it (`RestoredIsNotSaved`): once the queued writes are made the file is the
  memory if and only if it was right after the restore or some observation since has changed memory
  (`RegistryIsRecentAndSaved`).
* A restart of the token store can be noticed when a later write fails: asked for a token that was dead at the
  restart, the store that kept running reports that it could not be saved, and the restarted one knows nothing of it
  (`Tokens.RestartShows`). The replies to a sequence of calls are the same if and only if no call with a failed write
  makes only one of the two stores write (`RestartIsInvisible`), that is, asks to drop a token that was dead at the
  restart (`RestartShowsOnlyTheDead`). All this is for a readable file: every file of a run is readable if and only if
  every token issued on it names its client, subject and resource; after another one the next start refuses all of
  them (`ReadableExactlyIfNamed`).
* A later run of the migration changes credentials exactly if some workspace's copy of an imported token outlives
  the instance's copy (`Migration.SecondRunChangesNothing`); an immediate second run never does.
* If some but not all of the derived workspace grants could be written, the missing ones are never derived again
  (`WorkspaceGrants.RefusedGrantIsRetried`, `ForgottenGrantStaysForgotten`). The comment in
  `src/auth/migration.ts:240` says that a failed write leaves the previous data intact; the clients file is replaced
  before the tokens file is written, and the model follows the code.

Several error branches of the source are proved to be unreachable and appear in the methods as assertions:
`DELIVERY_NOT_CONFIRMED`, `REVIEW_RESULT_IDENTITY_INVALID`, `REVIEW_RESULT_NOT_COMPLETED`,
`ITERATION_PAYLOAD_MISSING`, every `required(...)`, the "Multiple Review deliveries", "Multiple Review results" and
"Verdict recovery source is unavailable or inconsistent" errors, a conflicting or overflowing delivery or completion acknowledgement, malformed completion state, the repeated refusal of a continuation, and a standalone
click before the first await of a start.

## Model

| member | source | states |
|---|---|---|
| Identity.NamesAreFaithful | src/control-plane/auto-iteration.ts:220-226 | two derived names are equal exactly if kind, loop id and iteration are, for loop ids without NUL |
| Identity.WithoutSeparatorCollides | src/control-plane/auto-iteration.ts:220-226 | without the separator two different loops and iterations get one name: the NUL is what makes names faithful |
| LoopInvariant.StepKeepsInv | src/control-plane/auto-iteration.ts:118-157 | every action of the loop or of anybody else keeps the schema, the derived names, the records each stage needs, and the ownership of every record |
| LoopInvariant.JudgedNames | src/control-plane/auto-iteration.ts:1042-1103 | a judgement leaves the names of the round alone or derives or clears all of them together |
| LoopInvariant.RequestIsOurs | src/control-plane/auto-iteration.ts:1438-1445 | a request found under the checkpoint's id is the loop's own: the identity check cannot fail |
| LoopInvariant.RoutingIsOurs | src/control-plane/auto-iteration.ts:788-826 | at routing the request exists, and a routing found is the loop's own |
| LoopInvariant.DeliveryIsOurs | src/control-plane/auto-iteration.ts:1447-1460 | a delivery found for the round carries the loop's workspace, request, routing and conversation |
| LoopInvariant.OneDeliveryPerRouting | src/context/review-delivery-service.ts:267-302 | two stored deliveries of one routing are the same one, so the scan never finds several |
| LoopInvariant.OneResultPerRequest | src/context/review-result-service.ts:154-204 | two stored results of one request are the same one |
| LoopInvariant.DeliveryIsConfirmed | src/control-plane/auto-iteration.ts:935-968 | from completion on request, routing and a delivered delivery exist and match, and at the verdict the result does |
| LoopInvariant.ResultIsOurs | src/control-plane/auto-iteration.ts:947-968 | every result recorded for the loop's request carries the loop's identities and delivery |
| LoopInvariant.SameRequestSameRouting | src/control-plane/auto-iteration.ts:828-860 | two routings of the loop for one request are one routing |
| LoopInvariant.ActuationIsReady | src/control-plane/auto-iteration.ts:1110-1130 | at actuation the pending iteration and the actuation id the source requires are there |
| LoopInvariant.RecoverySourceIsOurs | src/control-plane/auto-iteration.ts:899-907 | what a verdict recovery asks about is always there: a completed result of the loop on a stored request that matches the loop |
| LoopRuns.RunKeepsInv | src/control-plane/auto-iteration.ts:306-320 | every checkpoint of every run, whatever dies, is well founded and keeps the loop's binding |
| LoopRuns.RunGrows | src/control-plane/auto-iteration.ts:748-1000 | records never disappear along a run; a delivered or ambiguous delivery, a completed result and an authorization never change |
| LoopRuns.CreationIsFirst | src/control-plane/auto-iteration.ts:748-870 | a record is created only in a round that has none of its kind, and the round then has one |
| LoopRuns.AtMostOneRecordPerRound | src/control-plane/auto-iteration.ts:748-870 | in one iteration and phase at most one request, one routing and one delivery are created, over every interleaving and every re-entry after a death |
| LoopRuns.AtMostOneAuthorization | src/control-plane/auto-iteration.ts:1110-1174 | two authorizations are of different iterations, and each is requested only while its actuation has none |
| LoopRuns.RoundRecordsBelong | src/control-plane/auto-iteration.ts:748-933 | a round's records carry the loop's workspace, owner and conversation and that round's execution, and only one delivery is on its routing |
| LoopRuns.TerminalIsAbsorbing | src/control-plane/auto-iteration.ts:613-677 | a terminal loop is never written again |
| LoopRuns.IterationMoves | src/control-plane/auto-iteration.ts:1074-1103 | the iteration moves exactly on an iterate verdict for the current request below the cap, and then by one |
| LoopRuns.CompletedMeansApproved | src/control-plane/auto-iteration.ts:1065-1068 | a completed loop was approved in a verdict for the request it still names, on that request's own completed result |
| LoopTermination.StepRank | src/control-plane/auto-iteration.ts:613-677 | every durable write of a handler lowers the rank, others do not raise it, an abandoned handler raises it by at most one |
| LoopTermination.WritesLowerRank | src/control-plane/auto-iteration.ts:613-677 | along every run writes made plus rank left never exceed the rank at the start plus the handlers abandoned |
| LoopTermination.WritesAreBounded | src/control-plane/auto-iteration.ts:613-677 | a run makes at most 150 writes for each iteration of its cap, plus one for each abandoned handler |
| LoopTermination.TimeoutsWithinBudget | src/control-plane/auto-iteration.ts:978-983 | the stored timeout count never exceeds its limit of 5 plus the decisions lost between count and decision since it was last zero, and with a loss is at least 4 plus their number |
| LoopTermination.TimeoutsExceedExactlyWhen | src/control-plane/auto-iteration.ts:978-983 | a run exceeds the limit if and only if on it a decision due at the limit is lost and, the counter untouched, another timeout is counted |
| LoopTermination.TimeoutsAreUnbounded | src/control-plane/auto-iteration.ts:978-983 | and it reaches any number, one for each death between the count and the decision to stop |
| LoopTermination.FreshLoopsNeverDetour | src/context/review-request-service.ts:43-55 | a loop whose requests this version creates never takes the verdict-recovery detour |
| LoopService.AutoIterationService.Start | src/control-plane/auto-iteration.ts:566-611 | a new loop is at execution or request with iteration one and satisfies the invariant |
| LoopService.AutoIterationService.Put | src/control-plane/auto-iteration.ts:306-320 | the atomic replace takes place or not, and tells which unless the process dies |
| LoopService.AutoIterationService.FindDelivery | src/context/review-delivery-service.ts:267-302 | finds a delivery of the routing exactly if one is stored |
| LoopService.AutoIterationService.FindResult | src/context/review-result-service.ts:154-204 | finds a result of the request exactly if one is stored |
| LoopService.AutoIterationService.AdvanceReviewRequest | src/control-plane/auto-iteration.ts:748-786 | leads to routing with the round's request, or hands the loop over; any death leaves a legal checkpoint |
| LoopService.AutoIterationService.AdvanceRouting | src/control-plane/auto-iteration.ts:788-826 | leads to delivery with the round's routing, or hands the loop over |
| LoopService.AutoIterationService.ObtainDelivery | src/control-plane/auto-iteration.ts:828-870 | ends with a delivery of the round's routing, its own or one found there, and changes nothing else of the loop |
| LoopService.AutoIterationService.DispatchDelivery | src/control-plane/auto-iteration.ts:874-896 | a delivered delivery is confirmed, an uncertain or non-retryable one handed over with its reason, anything else attempted or re-armed |
| LoopService.AutoIterationService.Deliver | src/router/browser-router.ts:46-102 | begins one attempt at most, none for one under way, and leaves a settled outcome |
| LoopService.AutoIterationService.ReadRecoverySource | src/control-plane/auto-iteration.ts:899-907 | reading the recovery's source disturbs nothing, and its consistency check never fails |
| LoopService.AutoIterationService.RetryDelivery | src/control-plane/auto-iteration.ts:721-731 | re-arms below ten attempts and hands over with the transport's own code from then on |
| LoopService.AutoIterationService.AdvanceDelivery | src/control-plane/auto-iteration.ts:828-933 | never ends at delivery without a retry armed, and owes no decision |
| LoopService.AutoIterationService.Collect | src/router/review-completion-router.ts:86-158 | records one reading of the review under the request's one result and never over a completed one |
| LoopService.AutoIterationService.RetryReview | src/control-plane/auto-iteration.ts:713-719 | re-arms below five timeouts and hands over from then on |
| LoopService.AutoIterationService.AfterResult | src/control-plane/auto-iteration.ts:955-997 | goes on to the verdict exactly on a completed result, re-arms only on a timeout, hands a failure over |
| LoopService.AutoIterationService.AdvanceReviewCompletion | src/control-plane/auto-iteration.ts:935-1000 | never ends at completion without a retry armed, and owes no decision |
| LoopService.AutoIterationService.AdvanceVerdict | src/control-plane/auto-iteration.ts:1002-1108 | leaves the verdict stage by exactly the judgement's rule, or hands over as unavailable |
| LoopService.AutoIterationService.ObtainAuthorization | src/control-plane/auto-iteration.ts:1110-1174 | ends with the actuation authorized, requested only if it was not |
| LoopService.AutoIterationService.Decide | src/control-plane/auto-iteration.ts:1174-1249 | launches only under an authorization that matches loop and configuration and a verified continuation |
| LoopService.AutoIterationService.AdvanceActuation | src/control-plane/auto-iteration.ts:1110-1249 | ends at the next execution or at a terminal stage |
| LoopService.AutoIterationService.AdvanceExecution | src/control-plane/auto-iteration.ts:733-746 | goes on to the request only when the execution passed, and otherwise ends at a terminal stage or waits for a running one |
| LoopService.AutoIterationService.AdvanceOnce | src/control-plane/auto-iteration.ts:613-677 | a stable end is a terminal loop, an armed retry or a running execution; a terminal loop is not touched |
| LoopService.AutoIterationService.Live | src/control-plane/auto-iteration.ts:613-731 | however often the loop is driven, its writes stay within 150 per iteration plus the abandonments, its timeouts within 5 plus the decisions lost, and its calls of the two adapters within 150 per iteration plus twice the abandonments, each being followed by a write or an abandonment of its own |
| LeaseRuns.StepKeepsInv | extension/background.js:262-272 | every action keeps one lease or acknowledgement at a time, memory equal to the stored image, and every lease accounted for |
| LeaseRuns.ClickedIsAccounted | extension/background.js:885-904 | every click comes after its lease was stored as submitting, and later the entry is still stored or its acknowledgement, never "not sent", is stored or was taken by the bridge |
| LeaseRuns.ArmedWasStored | extension/background.js:885-904 | a lease counts as armed only after an action that stored it as submitting |
| LeaseRuns.SubmittingLeavesAsAck | extension/background.js:786-800 | a stored submitting entry leaves the in-flight list only as a new acknowledgement of the same lease, delivery and page |
| LeaseRuns.PostedAcksAgree | extension/background.js:802-814 | all acknowledgements ever posted for one lease are the same, over any number of restarts and repeats |
| LeaseRuns.ClickedIsNeverNotSent | extension/content.js:132-198 | the lease of a click is never reported to the bridge as not sent, before or after |
| LeaseRuns.ClaimsArePostedAlone | extension/background.js:822-883 | a claim is posted only with nothing in flight or unacknowledged, and every lease armed until then has had its acknowledgement taken by the bridge |
| LeaseRuns.AcksStayUntilTaken | extension/background.js:802-814 | a stored acknowledgement is gone only after it was posted and the bridge then took it, over any number of restarts and lost answers |
| LeaseRuns.CapsNeverDrop | extension/background.js:262-272 | at most one lease or acknowledgement is ever stored, so the caps of 200 and 100 never drop one |
| LeaseRuns.QueuedImageLoads | extension/background.js:55-61 | queueing an acknowledgement stores an image the validators accept if and only if its text is not empty |
| LeaseRuns.RecoveryNeverBlocks | extension/background.js:174-203 | while every report carries a text the stored image always loads and recovery is never blocked |
| LeaseRuns.BlockedIsForever | extension/background.js:184-203 | once a start has found the image malformed no action ever changes it again |
| LeaseRuns.EmptyTextBlocks | extension/background.js:906-937 | a run in which an empty error text is accepted and the next start is blocked |
| LeaseRuns.RestartRebuilds | extension/background.js:142-233 | a restart of a working worker gives back exactly its memory if and only if the image loads |
| LeaseWorker.DeliveryWorker.Load | extension/background.js:142-233 | loading is idempotent and leaves the stored image, the clock's order and this page's poll alone |
| LeaseWorker.DeliveryWorker.CommitDeliveryState | extension/background.js:262-272 | storage and memory change together or not at all, or the worker dies with the image written |
| LeaseWorker.DeliveryWorker.QueueDeliveryAck | extension/background.js:786-800 | the entry becomes the one acknowledgement; no conflict and no full outbox can arise |
| LeaseWorker.DeliveryWorker.FlushDeliveryAcks | extension/background.js:802-820 | success means the outbox is empty and everything that was in it was taken by the bridge |
| LeaseWorker.DeliveryWorker.PrepareDeliveryClaim | extension/background.js:822-842 | a free answer means nothing is in flight or unacknowledged; a blocked one that a lease is still running |
| LeaseWorker.DeliveryWorker.ClaimDelivery | extension/background.js:844-883 | a command reaches the page only when it is stored as claimed, alone, under a lease of its own |
| LeaseWorker.DeliveryWorker.DeliverySubmitStarted | extension/background.js:885-904 | permission is given exactly for an unexpired lease of this page, which is then stored as submitting |
| LeaseWorker.DeliveryWorker.ReceiveDeliveryAck | extension/background.js:906-937 | an accepted report of an owned lease has been taken by the bridge and nothing is left in flight |
| LeaseWorker.DeliveryWorker.PollDelivery | extension/content.js:132-198 | one poll, whatever the worker, other pages and the DOM do, is a legal stretch of the protocol and ends idle |
| LeaseWorker.DeliveryWorker.Acknowledge | extension/content.js:154-163 | the page reports only texts that are not empty, and "not sent" exactly when it did not click |
| CompletionLease.StepKeepsInv | extension/background.js:274-284 | every action keeps the store loadable and equal to memory, one finding for each claim, and every finding stored until taken |
| CompletionLease.ImagesAlwaysLoad | extension/background.js:204-229 | whatever dies, every stored image passes the validators, a restart rebuilds the worker exactly, and the caps are never reached |
| CompletionLease.PostedFindingsAgree | extension/background.js:968-993 | all findings posted for one claim are the same, over any number of restarts and repeats |
| CompletionLease.FindingsStayUntilTaken | extension/background.js:981-992 | a stored finding stays stored until the bridge has taken it, which is another actor's step after the worker's post; the worker's drop alone cannot bring it about |
| CompletionLease.ContentIsValidByBytes | extension/background.js:89-100 | a content is accepted exactly if it is not empty, well-formed UTF-16 and at most 256 KiB of UTF-8; the limit on units decides nothing by itself |
| CompletionWorker.CompletionWorker.Load | extension/background.js:204-233 | loading gives back exactly the stored lists and never blocks recovery |
| CompletionWorker.CompletionWorker.FlushCompletionAcks | extension/background.js:981-999 | success means the outbox is empty, and then all that was in it was taken |
| CompletionWorker.CompletionWorker.PrepareCompletionClaim | extension/background.js:1001-1010 | ready means that nothing waits to be acknowledged |
| CompletionWorker.CompletionWorker.ClaimCompletion | extension/background.js:1024-1071 | a watch reaches the page only when it is stored, under a new lease and alone under its id |
| CompletionWorker.CompletionWorker.ReceiveCompletionAck | extension/background.js:1073-1119 | an accepted report is a valid one of an unexpired watch of this page, or a repeat of it, and the bridge has taken it |
| DocumentEpochs.PresentIsNotRetired | extension/background.js:324-349 | a tab's present document is never among its retired ones, whatever fails |
| DocumentEpochs.StoreAgrees | extension/background.js:253-260 | if no write is rejected, memory and store agree after every event, deaths included |
| DocumentEpochs.ForgottenExactlyWhen | extension/background.js:341 | a document is forgotten exactly when a ninth one is retired and it was the first of them |
| DocumentEpochs.EpochsNeverDecrease | extension/background.js:324-389 | accepted epochs of one document never decrease while the tab remembers it, over rejected writes, restarts and deaths, if memory is what is stored whenever the worker falls back |
| DocumentEpochs.ReachedExactlyWhile | extension/background.js:324-389 | a remembered document keeps an epoch it has reached if and only if the stored copy has it too at every fall-back |
| DocumentEpochs.StaleStoreAcceptsAgain | extension/background.js:335-347 | after a fall-back to a copy with the present document at a lower epoch, exactly the epochs from that one on are accepted again |
| DocumentEpochs.ForgottenStartsAgain | extension/background.js:340-341 | a forgotten document is accepted again exactly as a new one at epoch zero |
| DocumentEpochs.RefusedWriteFallsBack | extension/background.js:335-347 | a run with one rejected write in which an accepted epoch falls while the document is remembered |
| DocumentEpochs.TabDocuments.RegisterDocument | extension/background.js:324-349 | the four maps and the answer are those of the specified transition for every fate of the write |
| DocumentEpochs.TabDocuments.AuthorizeDocument | extension/background.js:351-389 | the same for an authorization, which is stored only if it changes something |
| EvidenceOutbox.EntriesStayUntilSettled | extension/background.js:575-632 | every stored image is readable, and an entry stays until the bridge has it durably or it expires |
| EvidenceOutbox.OrderStays | extension/background.js:575-632 | along every run two entries keep their order for as long as both are stored |
| EvidenceOutbox.EvidenceWorker.QueueEvidence | extension/background.js:582-600 | evidence is added once, at the end; a repeat is recognised, a contradiction refused, and the image stays readable |
| EvidenceOutbox.EvidenceWorker.FlushEvidenceOutbox | extension/background.js:610-632 | exactly what was taken durably is gone and order is kept; a conflict blocks nobody, so every current entry was posted or expired |
| NegotiationRuns.StepKeepsInv | src/control-plane/capability-negotiation.ts:431-628 | every move keeps the counts of starts, the refusal of clicks after the decision, the connected trace and both waiting budgets |
| NegotiationRuns.AtMostOneStartEach | src/control-plane/capability-negotiation.ts:365-380 | neither provider is started twice, and a continuation starts at most one of them |
| NegotiationRuns.BothOnlyAfterBootstrapFailure | src/control-plane/capability-negotiation.ts:503-516 | both providers get the work only after Desktop failed with one of the five bootstrap codes |
| NegotiationRuns.SettledIsFrozen | src/control-plane/capability-negotiation.ts:372-379 | once the start has settled, outcome, state, source, reason, buttons, error code and trace never change |
| NegotiationRuns.DecidedIsClosed | src/control-plane/capability-negotiation.ts:705-720 | from the decision for a provider on no click and no reconnect is accepted |
| NegotiationRuns.TraceIsPath | src/control-plane/capability-negotiation.ts:650-684 | an execution's events form a connected path from nothing to the state it shows |
| NegotiationRuns.WaitsAreBounded | src/control-plane/capability-negotiation.ts:521-586 | the waits asked for sum to at most both timeouts, once for each round a user asked for |
| NegotiationRuns.PausesAreBounded | src/control-plane/capability-negotiation.ts:521-586 | and there are at most both timeouts divided by the interval, plus two, in each round |
| NegotiationRuns.SelectionLosesToReadyDesktop | src/control-plane/capability-negotiation.ts:536-555 | the decision after any accepted standalone click, unless recheck comes first, is for Desktop if and only if Desktop had come back ready or the preparation under way does, and otherwise for the standalone provider |
| NegotiationRuns.ContinuationIgnoresClicks | src/control-plane/capability-negotiation.ts:436-471 | whatever is clicked, a continuation settles with the one provider it was started on |
| NegotiationRuns.ClickedAndDesktopStarted | src/control-plane/capability-negotiation.ts:536-555 | two runs in which a standalone click is accepted and Desktop is started: the click just before and just after its preparation comes back ready |
| CapabilityTimeline.OnlyTail | src/control-plane/capability-timeline.ts:45-53 | filtering a suffix of the log by execution gives a suffix of the filtered log |
| CapabilityTimeline.OnlyMatchesEvents | src/control-plane/capability-timeline.ts:45-53 | an execution's entries are its events, one for one and in order |
| CapabilityTimeline.CapabilityTimeline.Record | src/control-plane/capability-timeline.ts:38-43 | the buffer is always the last `maxEvents` of everything ever recorded |
| CapabilityTimeline.CapabilityTimeline.Recent | src/control-plane/capability-timeline.ts:45-53 | returns a suffix of everything ever recorded about the execution, as long as asked for unless the buffer holds fewer |
| CapabilityNegotiator.CapabilityNegotiator.SetState | src/control-plane/capability-negotiation.ts:650-684 | context and shared timeline get the event together, so the timeline is exactly the contexts' traces |
| CapabilityNegotiator.CapabilityNegotiator.RecheckDesktop | src/control-plane/capability-negotiation.ts:335-343 | honoured exactly while its button is shown; nothing else changes |
| CapabilityNegotiator.CapabilityNegotiator.UseStandalone | src/control-plane/capability-negotiation.ts:345-363 | honoured exactly while its button is shown; nothing else changes |
| CapabilityNegotiator.CapabilityNegotiator.ContextFor | src/control-plane/capability-negotiation.ts:695-703 | finds a context exactly if one and only one can be restored to the conversation |
| CapabilityNegotiator.CapabilityNegotiator.ReconcileDesktopCapability | src/control-plane/capability-negotiation.ts:299-328 | moves only the one context Desktop's conversation can be restored to, and only with a resolving pipe |
| CapabilityNegotiator.CapabilityNegotiator.WaitForDesktop | src/control-plane/capability-negotiation.ts:521-566 | terminates for every clock and answers as specified; a recheck costs a click, a recovered Desktop is ready |
| CapabilityNegotiator.CapabilityNegotiator.WaitForFallbackChoice | src/control-plane/capability-negotiation.ts:568-586 | terminates; Desktop is tried again only for a click or a Desktop that came back |
| CapabilityNegotiator.CapabilityNegotiator.StartStandalone | src/control-plane/capability-negotiation.ts:588-628 | every path ends with the start settled as its history tells |
| CapabilityNegotiator.CapabilityNegotiator.StartOnce | src/control-plane/capability-negotiation.ts:431-519 | from a new context every path, through any number of rechecks, terminates with the start settled |
| CapabilityNegotiator.CapabilityNegotiator.Start | src/control-plane/capability-negotiation.ts:365-380 | an execution is refused exactly if bound elsewhere, started only if new, and joined otherwise with the one outcome |
| CapabilityNegotiator.CapabilityNegotiator.CreateContext | src/control-plane/capability-negotiation.ts:394-429 | only an unknown execution gets a context, its binding and its place in flight together |
| RecordQueue.RunKeepsInv | src/context/record-store.ts:5-13 | every run of the queue keeps order, chaining, the map's tails and the linearised contents |
| RecordQueue.OneAtATime | src/context/record-store.ts:5-13 | of two operations on one file the later has not begun before the earlier settled, and what the running one read is still current |
| RecordQueue.UpdatesLinearise | src/context/record-store.ts:5-13 | no update is lost: a file is its published operations applied in submission order, and each caller got its own intermediate record |
| RecordQueue.ForgottenIsIdle | src/context/record-store.ts:11 | the map forgets a file only when nothing on it is outstanding |
| RecordQueue.SomeoneCanGoOn | src/context/record-store.ts:8-9 | as long as something is unsettled something can go on: a rejected operation stops nobody |
| RecordQueue.StepsWind | src/context/record-store.ts:5-13 | every step but a new submission brings the queue nearer to rest |
| RecordStore.RecordStore.SerializeRecord | src/context/record-store.ts:6-13 | an operation is chained to the file's last promise, or to none, and becomes the last |
| RecordStore.RecordStore.Publish | src/context/record-store.ts:15-22 | the record published is the operation applied to what the file held at that moment |
| RecordStore.RecordStore.CleanUp | src/context/record-store.ts:11 | deletes the file's entry only if it is still this promise's |
| RecordStore.RecordStore.Drain | src/context/record-store.ts:5-13 | the event loop comes to rest with everything settled, contents in submission order and an empty map |
| ReviewDelivery.AppliesExactlyWhen | src/context/review-delivery-service.ts:154-239 | exactly when each operation is carried out; the schema check on the new record never refuses it |
| ReviewDelivery.AttemptsAreCounted | src/context/review-delivery-service.ts:154-239 | the record stays valid and itself; attempts equal the begins carried out, and all but a running one have been marked |
| ReviewDelivery.TerminalIsAbsorbing | src/context/review-delivery-service.ts:161-163 | after delivered or ambiguous no later operation is carried out |
| ReviewDelivery.ConcurrentOperationsAreSafe | src/context/review-delivery-service.ts:154-239 | any run of concurrent operations leaves a valid record with the right identity and count |
| ReviewDelivery.TerminalForGood | src/context/review-delivery-service.ts:176-239 | a stored delivery that is delivered or ambiguous is the same at every later moment of the run |
| ReviewResult.StepKeepsInv | src/context/review-result-service.ts:63-128 | racing calls keep one result per request, founded results, and every look-up true until its write |
| ReviewResult.OneResultPerRequest | src/context/review-result-service.ts:63-128 | along every run a request has one result, of a delivered delivery of its request and task; its creation time never changes, and once completed nothing does |
| ReviewResult.ResultsEvolve | src/context/review-result-service.ts:98-113 | results are never removed, keep identity and creation time, and completed ones never change |
| ReviewResult.NeverSeveral | src/context/review-result-service.ts:199-200 | the error about several results of one request cannot arise |
| ReviewResult.ReviewResultService.GetReviewResultByRequest | src/context/review-result-service.ts:154-204 | the scan answers the one result, none, or a conflict, each exactly when it is the case |
| ReviewResult.ReviewResultService.CreateReviewResultOnce | src/context/review-result-service.ts:63-128 | what is returned is stored for the request; if there was none before it is the caller's, and a refusal stores nothing for it |
| Correlation.ObserveKeepsInv | src/control-plane/conversation-correlation.ts:60-102 | an observation keeps the map well formed and the freshest request its last one |
| Correlation.SkippedWriteLosesNothing | src/control-plane/conversation-correlation.ts:83-100 | an observation whose write is skipped left memory exactly as it was |
| Correlation.FirstBindingWins | src/control-plane/conversation-correlation.ts:67-69 | a retained request keeps the conversation, time and proof of its first observation |
| Correlation.BindingStays | src/control-plane/conversation-correlation.ts:67-169 | and so it does along every run, restores included, for as long as it is retained |
| Correlation.ObserveHoldsRecent | src/control-plane/conversation-correlation.ts:89-99 | the map is the `max` most recently observed requests in order of observation: eviction drops the least recent |
| Correlation.RegistryIsRecentAndSaved | src/control-plane/conversation-correlation.ts:60-102 | along every run, restores included, that stays so; once the queued writes are made the file equals memory if and only if it did at the start or right after the last restore or an observation since has changed memory |
| Correlation.RestoredIsNotSaved | src/control-plane/conversation-correlation.ts:134-175 | an instance in which the drained file lacks what was restored behind an early observation |
| Correlation.RestoreGivesBack | src/control-plane/conversation-correlation.ts:134-175 | restoring a file a registry wrote gives the same entries in the same order |
| Correlation.RestoreKeepsInv | src/control-plane/conversation-correlation.ts:146-169 | restoring any file, invalid and repeated entries included, leaves a well-formed registry |
| Correlation.EarlyObservationsAreEvictedFirst | src/control-plane/conversation-correlation.ts:146-170 | an entry observed before the restore moves to the end if the file has a later observation of it, and otherwise survives exactly if it, the ones behind it that stay and what the file adds fit |
| Correlation.RestoredBehindEarly | src/control-plane/conversation-correlation.ts:146-170 | the restored map is the early entries the file does not outdate and behind them the file's, known or outdated ones merged, cut to the bound |
| Correlation.EarlyObservationLost | src/control-plane/conversation-correlation.ts:146-183 | an instance in which the newer, early observation is evicted for the older one of the file |
| CorrelationRegistry.ConversationCorrelationRegistry.Observe | src/control-plane/conversation-correlation.ts:60-102 | map, freshest request, queued snapshots and answer are the specified ones, and a first observation wakes every waiter |
| CorrelationRegistry.ConversationCorrelationRegistry.Trim | src/control-plane/conversation-correlation.ts:177-183 | deletes from the front until the bound holds |
| CorrelationRegistry.ConversationCorrelationRegistry.RestoreOnce | src/control-plane/conversation-correlation.ts:134-175 | the loop over the stored entries computes the specified restored registry |
| Tokens.AlikeServesAlike | src/auth/token.ts:172-247 | stores that honour the same tokens stay so whatever becomes of the write, and give the same reply if and only if the write succeeds or both or neither have to make one that drops a token |
| Tokens.FileIsLive | src/auth/token.ts:282-292 | along every run, failed writes included, the file holds exactly what the live store still honours |
| Tokens.RestartIsInvisible | src/auth/token.ts:34-77 | a store restarted from its readable file at any moment answers a later sequence of calls, failed writes included, like the one that kept running if and only if no failed write was one only one of them had to make |
| Tokens.RestartShowsOnlyTheDead | src/auth/token.ts:34-77 | seen from the running store alone: the replies differ exactly if a failed call asks to drop a token that was dead at the restart |
| Tokens.RestartShows | src/auth/token.ts:211-228 | an instance: an expired token, a restart, and a failed write that only the running store has to make |
| Tokens.ReadableExactlyIfNamed | src/auth/token.ts:107-120 | every file of a run is readable if and only if every token issued on it names resource, client and subject; a start on an unreadable file has no tokens |
| Tokens.RotationConserves | src/auth/token.ts:230-247 | a rotation replaces exactly one refresh token by one of the same client, subject and resource, or changes nothing |
| Tokens.TokensAreConserved | src/auth/oauth.ts:530-583 | over every sequence of requests, failed writes and restarts from the file included, a code yields at most one pair, a refresh token rotates at most once, and refresh tokens never exceed pairs issued |
| TokenStore.OAuthTokenStore.constructor | src/auth/token.ts:135-151 | starts from the live part of a readable file and from nothing otherwise |
| TokenStore.OAuthTokenStore.Authenticate | src/auth/token.ts:211-228 | store, file and reply are the specified ones for every fate of the write |
| TokenStore.OAuthTokenStore.Rotate | src/auth/token.ts:230-247 | store, file and reply are the specified ones for every fate of the write |
| TokenStore.OAuthTokenStore.Delete | src/auth/token.ts:261-268 | store, file and reply are the specified ones for every fate of the write |
| TokenStore.OAuthService.ExchangeAuthorizationCode | src/auth/oauth.ts:530-563 | a pair is issued only for a code that was outstanding and verified, and the code is gone |
| Migration.FirstSourceWins | src/auth/migration.ts:182-197 | the merge has exactly the readable clients, each as its first source has it |
| Migration.ImportedTokensHaveClients | src/auth/migration.ts:199-219 | no token of the instance is lost, and every imported one is alive and has its client |
| Migration.SecondRunChangesNothing | src/auth/migration.ts:135-243 | after a successful run a later one changes nothing if and only if no workspace's copy of a token outlives the instance's |
| Migration.SecondRunAtOnce | src/auth/migration.ts:135-243 | an immediate second run never changes the credentials |
| WorkspaceGrants.DecidedForGood | src/auth/migration.ts:245-273 | once marker or grants file exists, no run of the migration changes a grant ever again |
| WorkspaceGrants.RevocationStays | src/auth/workspace-grants.ts:98-117 | a revoked access stays revoked until somebody grants it, over any sequence of runs, grants and revocations |
| WorkspaceGrants.RefusedGrantIsRetried | src/auth/migration.ts:247-272 | a derived grant whose write failed is derived again if and only if no other one was written |
| WorkspaceGrants.ForgottenGrantStaysForgotten | src/auth/migration.ts:247-272 | otherwise it is missing for good, until somebody grants it |
| WorkspaceGrants.FirstRunGrantsDerived | src/auth/migration.ts:220-272 | a first run whose writes succeed grants the owner exactly the derived workspaces and decides |
| InstanceMigration.AgreementIsComplete | src/auth/migration.ts:182-197 | the run is free of conflicts exactly if every workspace finds its own clients in the merge as they were |
| InstanceMigration.OAuthInstance.GrantAccess | src/auth/workspace-grants.ts:98-107 | refused on an unreadable file; afterwards the access is there exactly if it says so |
| InstanceMigration.OAuthInstance.Revoke | src/auth/workspace-grants.ts:109-117 | says true exactly if the access was there and is gone |
| InstanceMigration.OAuthInstance.Merge | src/auth/migration.ts:171-219 | the loops compute the specified merge, and no conflict or stray is reported exactly if all agree |
| InstanceMigration.OAuthInstance.WriteGrants | src/auth/migration.ts:251-262 | exactly the grants that were not refused are written, and completeness is told truly |
| InstanceMigration.OAuthInstance.MigrateOAuthStateToInstance | src/auth/migration.ts:135-281 | the files become the specified ones, and anything but reauthorization is reported only when everything was readable and agreed, and "not needed" only when no credential or grant changed |

## Left out

Other actors and the world outside:

- Execution statuses, adapter outcomes, verdict contents, actuation decisions, provider answers, bridge answers, DOM and navigation are nondeterministic.
- The clock and timers: a retry that is due, an elapsed wait and `Date.now()` are nondeterministic but monotone where the source needs it; the several readings of the clock between two awaits are taken as one.
- `createDelivery`'s check-then-create is one step, as `auto-iteration.ts` is its only caller for a loop's routing; creating several deliveries of a routing at once under different ids is not modelled.
- Execution failure notifications, review request statuses and goal or session records written beside the loop do not influence its stages and are not part of the model.
- JSON text, regular expressions, string lengths (except where a text being empty matters), file modes, temporary files and retries of renames on Windows.
- Tokens and codes are their own hashes; random ones are new.

Per protocol:

- LoopService.AutoIterationService.Live: one handler of a loop at a time in a process is how the handlers are driven here, as the source's `serial` and `flights` maps arrange it; the maps themselves are not modelled.
- LoopService.AutoIterationService.AdvanceOnce: the limit of 32 steps per call ends with nothing claimed to be stable, as in the source; that the limit is enough is not claimed.
- LoopService.AutoIterationService.AdvanceActuation: hands transient infrastructure errors over instead of retrying them, like the source; the contents of authorizations and sessions are reduced to whether they match.
- LeaseWorker.DeliveryWorker.PollDelivery: the DOM clicks at most once and says whether it did; recovery tabs and presence probes are not modelled.
- DocumentEpochs.EpochsNeverDecrease: one tab, since tabs share nothing but the write.
- EvidenceOutbox.EvidenceWorker.FlushEvidenceOutbox: a rejected storage write is a worker that dies; the checks of an evidence message's fields are not modelled.
- CapabilityNegotiator.CapabilityNegotiator.Start: status and timeline listeners do not call back into the negotiator; `wait` never rejects; the poll interval is at least one millisecond; users click "recheck" any finite number of times; starts in flight are keyed by the execution id, to which the context binds workspace and task id.
- CapabilityNegotiator.CapabilityNegotiator.CreateContext: timestamps and the deadlines shown in snapshots are not kept.
- RecordQueue.UpdatesLinearise: one process; two processes on one file are not serialised by the source either.
- ReviewDelivery.AppliesExactlyWhen: timestamps other than the delivery's are not kept.
- Correlation.RegistryIsRecentAndSaved: writes succeed; a failed one leaves the file behind until the next change.
- CorrelationRegistry.ConversationCorrelationRegistry.Observe: waiters are woken, but `awaitCorrelation` with its timeout is not modelled.
- Tokens.RestartIsInvisible: the file is readable at the restart; when it is, `ReadableExactlyIfNamed` says.
- Tokens.TokensAreConserved: client registration, redirect and challenge checks are answers given with each request.
- Migration.FirstSourceWins: a registry file has each client id and token hash once, as its writer guarantees; backups are not modelled.
- `SessionStore`, `ExecutionContextService`, the HTTP bridge, the command line, the Launcher and the diagnostic outboxes.
