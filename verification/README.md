# Verified model of the publishing, session and billing protocols

This project models the parts of a social-media agency platform in which several actors change the same
record at the same time, and proves what those protocols keep in every run. It is written in Dafny 4.11;
`dafny verify dfyconfig.toml` checks all of it.

The platform publishes a post by driving one database row (a publication target) through a write-ahead log of
phases: workers take jobs from a queue, record each phase with a compare-and-swap on `dispatchVersion`, and
only then make the one remote call that cannot be repeated. Around it are commands of the API, a scanning
dispatcher with stale recovery, and human reconciliation. Sessions live in Redis under atomic scripts, with a
security epoch in the database on top. Token refresh, webhooks and invoices, the discovery token, the rate
limiter and the founding tier are smaller protocols of the same kind.

## How it is modelled

| file | what it models |
|---|---|
| `ExecutionMetadata.dfy` | the strict metadata schema, the phase graph and the decision of a transition |
| `PublicationStatus.dfy` | the status table and the API commands as guarded updates |
| `PublishProtocol.dfy` | the row, its attempts, workers, recoveries and reconciliations; one step per await |
| `PublishInvariant.dfy` | the invariant of that state machine, one lemma per step |
| `PublishRuns.dfy` | runs, and the stretches of runs that the witnesses are built from |
| `PublishTheorems.dfy` | what every run of it guarantees |
| `PublishAnswers.dfy`, `PublishOutcomes.dfy` | what is recorded of an adapter's answer, a checkpoint, a job, a fence, a recovery and a decision, from the input to the row |
| `PublishExceptions.dfy` | where three of its promises stop, exactly, and runs that take them there |
| `PublishRepositories.dfy` | the two repositories as methods, with arbitrary steps of others, or a deletion, between read and write |
| `SessionStore.dfy`, `SessionManager.dfy` | the six session scripts as functions on a two-key store, and as methods with their loops |
| `AuthProtocol.dfy`, `AuthTheorems.dfy` | login, password change, revocation and the guard over the real scripts |
| `AuthRevocation.dfy` | exactly when a revoked session can still be accepted |
| `AuthLogins.dfy` | exactly when a login succeeds, and how sessions end |
| `AuthPasswordChanges.dfy` | exactly when a password change replaces the hash it verified |
| `InstagramCarousel.dfy` | the resumable child loop, the sort, the parent container and its finalization |
| `CarouselOutcomes.dfy` | what a run of it makes, remembers and answers, exactly |
| `TokenRefresh.dfy`, `TokenRefreshOutcomes.dfy` | the refresh lock and the compare-and-swap against disconnect and reconnect, and what each leaves in the row |
| `Gst.dfy`, `Invoices.dfy`, `Webhooks.dfy` | the tax split, the numbered invoice table, webhook deliveries as transactions |
| `WebhookCharges.dfy` | the invoices are the applied charges, one for one |
| `OAuthDiscovery.dfy` | the single-use discovery token |
| `RateLimiter.dfy` | the fixed-window counter |
| `FoundingSeats.dfy` | the founding tier's cap |

Every concurrent part is a state machine whose events are the atomic steps of the original: a read and the
conditional write that follows it are different events, and anything may happen between two events, including a
crash of the actor. Runs are arbitrary finite sequences of events, so a theorem about `Run` is a theorem about
every interleaving. An event that is not enabled leaves the state as it is. The job queue is adversarial: any job
may be delivered to any worker at any time, any number of times. What the outside world answers (providers,
Redis failures, argon2, fresh identifiers, clocks) is an argument of the event.

Some fields record what has happened: `h: History` in `PublishProtocol.State`, `past` in `AuthProtocol.State`,
`log` and `rows` in `TokenRefresh.State`, `applied` in `Webhooks.State`, `lag` in `OAuthDiscovery.State` and
`revivals` in `FoundingSeats.State`. The steps consult them for one purpose: session identifiers, salted hashes and
ciphertexts are fresh, which `AuthProtocol` reads from `past` and `TokenRefresh` from `log` (and the guard notes a
session's origin from `past`). Nothing else branches on them.

## What turned out to be conditional

- **At most one final mutation** holds exactly for adapters that do not combine a finalizing poll with
  answering "still processing" after the final checkpoint (`AtMostOnceExactly`: the undisciplined run is built).
  The registered adapters do not (`RegisteredAdaptersPublishAtMostOnce`).
- **The schema is closed** under every step except one: a stale recovery that carries a COMPLETED value and finds
  the publication PUBLISHING again, since recovery is guarded by the status and not by the phase. The final id it
  leaves is refused by the strict schema. `SchemaBreaksExactly` is the exact step, `ParsesUntilRecovered` the run
  without it, `SchemaCanBreak` a run with it.
- **One operation per publication.** `startOperation` demands that the metadata is null, although its comment
  also allows a terminal operation, and nothing ever clears it. So a retried or re-queued publication that
  already ran is claimed but never gets a second publish permit (`OneOperationForLife`,
  `FinishedPublicationGrantsNoPermit`).
- **An answer of the adapter** is recorded exactly if the row still has the worker's version, is in the phase the
  worker believes in, and the phase graph allows the step (`AnswerIsRecorded`). The graph has no edge from
  PUBLISH_REQUESTED to FAILED, so a plain failure reported after the final checkpoint changes nothing and leaves the
  attempt open; and a continued job believes in PROCESSING_REMOTE whatever the phase is, so that from another phase
  even a success that passed no checkpoint ends UNKNOWN.
- **A queued publication that already carries an operation** is claimed, left PUBLISHING, and owned by nobody: no
  attempt is made (`JobIsHandled`).
- **Two reconciliations** that are both waiting can both commit. `ReopensExactly` names the steps after which a
  waiting reconciliation may commit although it could not before: a guarded stale recovery, or a worker's or a
  delete job's unguarded UNKNOWN, each exactly if it leaves one attempt that failed with an unknown result; the
  condition is read off the state before the step. `SecondReconcileNeedsReopening` carries this to runs, and in
  `BothCanCommit` a retry and a stale recovery suffice, without any unguarded status write after the first commit.
- **Fencing by the version.** A re-queue or any other version bump by somebody else puts every worker behind except
  of one kind: a worker that has claimed and not yet read the row again, as long as no operation exists, because
  `startOperation` takes no expected version and compares with its own reading (`OvertakenExactly`). Such a worker
  starts, gets the permit and publishes while the publication is QUEUED (`OvertakenClaimPublishes`). A worker that
  is behind never starts, commits or gets a permit (`FencedForever`), and at-most-once holds either way.
- **Revoked sessions.** The epoch refuses a session only as long as nothing stamps it anew. A password change that
  the guard let in before a revocation still commits after it, since the update of the row is not fenced, and its
  clean-up stamps the session it keeps whatever stamp that carries (`RevokedSessionCanReturn`). A revoked session
  can still be accepted exactly when the guard has already validated it with the present epoch, or it is alive and
  a request of its own that the guard let in, up to the clean-up of the change that made the present epoch, is still
  under way (`RevokedSessionsStayRefused`, and `AcceptableExactly` for any session).
- **Password changes** are not fenced by the hash they verified. A change replaces the very hash it verified exactly
  when no other change of that password committed since it read the row (`VerifiedPresentHashExactly`); in
  `ChangeCanBeLost` two changes both verify the same password and the second overwrites the first.
- **The refresh compare-and-swap** guards the refresh token, not the access token. A commit replaces an access
  token written after its refresher's read exactly when every write since was a reconnect without a refresh
  token or a refresh that did not rotate (`CommitReplacesNewerAccessExactly`, `CommitCanReplaceNewerAccess`).
- **Revoke-others keeps the index sound** exactly when the kept session, if alive, belongs to that user
  (`DestroyOthersRefines`).
- **The discovery token** can outlive 900 s from creation by the fraction of a second that the floor drops plus
  the delay of the write, and by nothing else (`RestoreProlongsExactly`); in `RestoreCanProlong` it does.
- **The discovery token is lost** if its claimant dies between the claim and the end of the selection
  (`CrashLosesTheToken`); a database failure gives it back exactly if it is younger than 900 s
  (`FailureRestoresExactly`).
- **The rate limiter** admits at most `2 * limit - 1` hits in an interval as long as its window, and a schedule
  that reaches this number is given (`RateIsBounded`, `BoundIsTight`).
- **The founding cap** holds exactly as long as no webhook returns a HALTED or EXPIRED founding subscription to
  a counted status while no seat is free (`CapBreaksExactly`, `CapCanBreak`).

## Model

| member | source | states |
|---|---|---|
| PublishTheorems.AtMostOncePublish | apps/worker/src/publishing/publishing.processor.ts:588-771 | in every run, whatever workers, crashes, duplicate jobs and recoveries do, a disciplined adapter issues at most one final mutation, and it belongs to the operation the row carries |
| PublishTheorems.AtMostOnceExactly | packages/providers/meta/meta.provider.ts:1634-1641 | at-most-once in all runs holds if and only if the adapter never combines a finalizing poll with an asynchronous answer after the final checkpoint |
| PublishTheorems.RegisteredAdaptersPublishAtMostOnce | packages/providers/core/provider-registry.ts:59-63 | each registered adapter issues at most one final mutation in every run: Instagram finalizes by poll and is final after the mutation, YouTube stays processing and has no finalization, Facebook and LinkedIn do neither |
| PublishTheorems.SplitStepRefinement | packages/database/src/repositories/ExecutionMetadataRepository.ts:122-252 | a transition whose compare-and-swap succeeds equals reading, checking and writing in one atomic step at commit time |
| PublishTheorems.StartIsAtomic | packages/database/src/repositories/ExecutionMetadataRepository.ts:57-92 | the row on which a start commits still carries no metadata |
| PublishTheorems.OperationEvolves | packages/database/src/repositories/ExecutionMetadataRepository.ts:133-236 | between any two moments the version grows, the operation and provider never change, a terminal phase stays terminal, and equal versions mean equal metadata or both terminal |
| PublishTheorems.FencedForever | apps/worker/src/publishing/publishing.processor.ts:589-634 | a worker that is behind, at whatever stage from accepting a job to its final write, never again starts an operation, commits a transition or receives a publish permit until it accepts a new job |
| PublishTheorems.OvertakenWorkerIsBehind | apps/worker/src/publishing/publishing.dispatcher.ts:295-310 | the version held by a worker that holds the operation never exceeds the row's, and any version bump by another actor puts such a worker behind |
| PublishTheorems.OvertakenExactly | packages/database/src/repositories/ExecutionMetadataRepository.ts:53-92 | a version bump by another actor puts a worker behind if and only if it is not one that has claimed and not yet read the row again while no operation exists |
| PublishExceptions.OvertakenClaimPublishes | apps/worker/src/publishing/publishing.processor.ts:352-386 | for every adapter there is a run in which a worker that claimed is overtaken by an early fence and a retry, is not behind, starts, is granted the permit and publishes while the status is QUEUED |
| PublishTheorems.OneOperationForLife | packages/database/src/repositories/ExecutionMetadataRepository.ts:64-69 | the first commit of a publication is a start and no later one is |
| PublishTheorems.FinishedPublicationGrantsNoPermit | apps/api/src/modules/publishing/services/publishing-application.service.ts:466-500 | from a terminal phase on no permit is ever granted again, however often the publication is retried |
| PublishTheorems.NoBlindFailure | apps/worker/src/publishing/publishing.processor.ts:898-957 | after a publish request the phase FAILED is only recorded once the provider was polled or by a human |
| PublishTheorems.PhasePathIsLegal | packages/database/src/repositories/ExecutionMetadataRepository.ts:31-41 | every committed transition follows an edge of the phase graph from the phase committed before it, and none leaves a terminal phase |
| PublishTheorems.VersionAccounting | packages/database/src/repositories/PublishingRepository.ts:43-70 | the version equals the entries into QUEUED plus the starts, transitions and metadata-rewriting recoveries |
| PublishTheorems.VersionStep | apps/worker/src/publishing/publishing.dispatcher.ts:73-85 | step by step: the version rises by one exactly on an entry into QUEUED or a commit other than a reconciliation, and metadata changes only with a commit |
| PublishTheorems.ClaimedOnce | apps/worker/src/publishing/publishing.processor.ts:352-369 | no dispatch version is claimed twice |
| PublishTheorems.StaleJobNeverClaims | apps/worker/src/publishing/publishing.processor.ts:352-386 | every later claim is for the current version or a newer one, so a job from before a cancel and re-queue never claims |
| PublishTheorems.SchemaClosure | packages/shared/src/publishing/execution-metadata.ts:26-61 | every reachable metadata value polls inside the window, and parses as long as no recovery rewrote a COMPLETED value |
| PublishExceptions.SchemaBreaksExactly | apps/worker/src/publishing/publishing.dispatcher.ts:282-310 | until then a step leaves metadata that does not parse if and only if it is a stale recovery that carries a COMPLETED value and finds the status PUBLISHING |
| PublishExceptions.FlaggedExactly | apps/worker/src/publishing/publishing.dispatcher.ts:295-310 | a run counts as having recovered a COMPLETED value if and only if one of its steps was such a recovery |
| PublishExceptions.ParsesUntilRecovered | packages/shared/src/publishing/execution-metadata.ts:39-61 | a run none of whose steps is such a recovery leaves metadata that parses |
| PublishExceptions.SchemaCanBreak | apps/worker/src/publishing/publishing.dispatcher.ts:295-310 | for every adapter some run, in which every job is one that was enqueued, leaves metadata that does not parse: a completed publication is fenced by a worker that had loaded it earlier, retried, claimed, and the recovery of a stalled attempt meets it |
| PublishTheorems.CompletionAgreement | apps/worker/src/publishing/publishing.processor.ts:992-1024 | phase COMPLETED means a non-empty final remote id equal to the external post id |
| PublishTheorems.TerminalCommitAgrees | apps/worker/src/publishing/publishing.processor.ts:980-1170 | in every run a worker's commit of a terminal result leaves status, phase, external id and its own attempt agreeing with the result it reports, its failure category included, and no other attempt touched; a commit that lost its fence changes nothing |
| PublishAnswers.AnswerIsRecorded | apps/worker/src/publishing/publishing.processor.ts:795-957 | in every run, whatever others do between the adapter's answer, the check and the write, the row and the attempt are what the answer demands: a published id ends COMPLETED with it, PROCESSING polls after its delay and keeps remote id and state, a failure ends FAILED with its category, doubt ends AMBIGUOUS or changes nothing when the job is rethrown; each exactly if the row is still the worker's and the graph allows it, else UNKNOWN or nothing as the answer's handler has it |
| PublishAnswers.CheckpointIsRecorded | apps/worker/src/publishing/publishing.processor.ts:589-634 | in every run, whatever others do meanwhile, a checkpoint is recorded with its data exactly if the row still has the worker's version and its phase allows it; the final one gives the permit for one mutation of this operation, and a refused one leaves no trace |
| PublishOutcomes.JobIsHandled | apps/worker/src/publishing/publishing.processor.ts:173-537 | a job that nothing disturbs: a stale one does nothing, one for a queued publication starts the operation or leaves it unowned if there is one, one for a PUBLISHING publication continues it, a publish request it finds ends AMBIGUOUS, revoked credentials end FAILED, and nothing is mutated before the adapter runs |
| PublishOutcomes.FenceIsRecorded | apps/worker/src/publishing/publishing.processor.ts:211-339 | an early fence fails the publication, adds a failed attempt with its category and leaves version and metadata alone, whatever became of the row meanwhile |
| PublishOutcomes.RecoveryIsRecorded | apps/worker/src/publishing/publishing.dispatcher.ts:251-322 | in every run, whatever happens between scan and write: a recovery acts exactly if it scanned an attempt in progress of a publication that the provider is not processing and finds it PUBLISHING, and then writes back the scanned metadata as AMBIGUOUS and fails that attempt only |
| PublishOutcomes.DecisionIsRecorded | apps/api/src/modules/publishing/services/publishing-application.service.ts:646-747 | in every run, whatever happens between reading and write: a decision is written exactly if it was read in UNKNOWN and AMBIGUOUS with an id that is not blank, and finds UNKNOWN and one eligible attempt; row and attempt are then given in full |
| PublishOutcomes.CommandsTakeBack | packages/database/src/repositories/PublishingRepository.ts:76-116 | scheduling, queueing and retrying are taken back by their opposites, except for the version that queueing bumps, and a deletion changes nothing but the status |
| PublishTheorems.ReconcileAgrees | apps/api/src/modules/publishing/services/publishing-application.service.ts:667-747 | a reconciliation that commits leaves status, phase, external id and attempt agreeing and no eligible attempt; one that aborts changes nothing |
| PublishTheorems.ReconcileExclusive | apps/api/src/modules/publishing/services/publishing-application.service.ts:700-733 | once one of two waiting reconciliations has committed, the other can no longer commit on the state it leaves |
| PublishTheorems.ReconciledOncePerUncertainty | apps/api/src/modules/publishing/services/publishing-application.service.ts:700-733 | over any run, a second reconciliation commits only after the status went back to UNKNOWN and an attempt failed anew with an unknown result |
| PublishExceptions.ReopensExactly | apps/api/src/modules/publishing/services/publishing-application.service.ts:700-733 | a waiting reconciliation that cannot commit becomes able to by a step if and only if the step is a guarded stale recovery or an unguarded UNKNOWN of a worker or delete job, and the attempts before it leave exactly one failed with an unknown result: its own if it marks one, else the one that is there |
| PublishExceptions.SecondReconcileNeedsReopening | apps/api/src/modules/publishing/services/publishing-application.service.ts:700-733 | in every run, after one reconciliation committed another that keeps waiting can commit only once such a step happened |
| PublishExceptions.BothCanCommit | apps/worker/src/publishing/publishing.dispatcher.ts:295-322 | for every adapter there is a run, in which every job is one that was enqueued, with both committing: a retry and a stale recovery come in between and no unguarded status write |
| PublishTheorems.GuardedStatusIsLegal | packages/database/src/publishing/state-machine.ts:10-30 | commands, promotion, claim, recovery and reconciliation move the status only along the table |
| PublishInvariant.StepInv | apps/worker/src/publishing/publishing.processor.ts:346-957 | every step of every actor keeps the invariant and moves the row only in ways an earlier reader tolerates |
| ExecutionMetadata.PlanIsLegal | packages/database/src/repositories/ExecutionMetadataRepository.ts:133-228 | a value a transition writes parses, keeps operation and provider, follows the phase graph and polls 15 s to 24 h later |
| ExecutionMetadata.PlanSucceedsExactly | packages/database/src/repositories/ExecutionMetadataRepository.ts:133-215 | a transition is planned if and only if version, operation and phase are the caller's, the metadata parses, the graph has the edge and the phase's data is supplied |
| ExecutionMetadata.PlanRefusesExactly | packages/database/src/repositories/ExecutionMetadataRepository.ts:133-215 | each refusal is given if and only if its condition is the first one to fail |
| ExecutionMetadata.PlanWrites | packages/database/src/repositories/ExecutionMetadataRepository.ts:179-228 | every field of the written value: the caller's data and the time where the phase takes them, and what was there otherwise; terminal phases clear both check times |
| ExecutionMetadata.PhaseGraph | packages/database/src/repositories/ExecutionMetadataRepository.ts:31-41 | which phases can fail, be doubted, complete, request publication, be processed remotely and get a container |
| ExecutionMetadata.PlanSurvives | packages/database/src/repositories/ExecutionMetadataRepository.ts:230-243 | a plan made from an earlier reading is the plan of the current row whenever the version still matches |
| ExecutionMetadata.RecoveryWellFormed | apps/worker/src/publishing/publishing.dispatcher.ts:296-303 | rewriting a well-formed value to AMBIGUOUS parses if and only if it was not COMPLETED |
| PublicationStatus.CommandsAreLegal | packages/database/src/repositories/PublishingRepository.ts:76-116 | no command trips the assertion over its own expected states |
| PublicationStatus.CommandsReachExactly | packages/database/src/repositories/PublishingRepository.ts:76-116 | in any order and number, commands reach exactly: the three editable statuses from each other and from FAILED, and DELETING from PUBLISHED, FAILED and UNKNOWN |
| PublishRepositories.ExecutionMetadataRepository.StartOperation | packages/database/src/repositories/ExecutionMetadataRepository.ts:53-102 | with any steps of others, or the row's deletion, between read and write: a missing or foreign row, an existing operation and a lost version change nothing, and success writes a fresh operation on a row that still has none |
| PublishRepositories.ExecutionMetadataRepository.BuildMetadata | packages/database/src/repositories/ExecutionMetadataRepository.ts:179-228 | the field-by-field construction computes the planned value or its refusal |
| PublishRepositories.ExecutionMetadataRepository.CheckAndBuild | packages/database/src/repositories/ExecutionMetadataRepository.ts:133-228 | the checks in their order, and then the new value, are the planned outcome |
| PublishRepositories.ExecutionMetadataRepository.TransitionOperation | packages/database/src/repositories/ExecutionMetadataRepository.ts:107-259 | a missing or foreign row, each refusal, and a version lost or a row deleted after the read leave the row alone, and success writes what the plan yields for the row as it is at the write |
| PublishRepositories.PublishingRepository.TransitionVariantState | packages/database/src/repositories/PublishingRepository.ts:43-70 | it throws exactly when some expected state may not legally move, writes exactly when the workspace's row is there and its state is expected, and bumps the version exactly on QUEUED |
| SessionStore.StoreRefinesSimpleMap | packages/session/src/SessionManager.ts:29-182 | any run of scripts and clock ticks on the two-key store acts on the live sessions as the same run on a plain map, and keeps every live session in its owner's index with the index outliving it |
| SessionStore.ListingIsExact | packages/session/src/SessionManager.ts:167-182 | after any run, cleaned listing returns exactly the user's live sessions and loses none |
| SessionStore.CreateRefines | packages/session/src/SessionManager.ts:29-49 | creation adds exactly one live session and keeps the index sound |
| SessionStore.ValidateRefines | packages/session/src/SessionManager.ts:51-87 | validation extends exactly the session it is asked for, repairs its index entry, and never resurrects a dead one |
| SessionStore.DestroyRefines | packages/session/src/SessionManager.ts:89-105 | destruction removes exactly that session |
| SessionStore.DestroyAllRefines | packages/session/src/SessionManager.ts:107-117 | revoke-all removes exactly the user's live sessions and nobody else's |
| SessionStore.DestroyOthersRefines | packages/session/src/SessionManager.ts:119-165 | revoke-others leaves at most the kept session of that user, stamped with the new epoch; the index stays sound if and only if a live kept session belongs to that user |
| SessionStore.GetAndCleanRefines | packages/session/src/SessionManager.ts:167-182 | cleaning the index changes no live session |
| SessionManagement.SessionManager.CreateSession | packages/session/src/SessionManager.ts:197-226 | the command sequence leaves the specified store and exactly one more live session |
| SessionManagement.SessionManager.ValidateSession | packages/session/src/SessionManager.ts:235-264 | it answers exactly for live sessions, with the full lifetime, and changes nothing otherwise |
| SessionManagement.SessionManager.DestroySession | packages/session/src/SessionManager.ts:271-285 | exactly that session is gone |
| SessionManagement.SessionManager.DestroyAllUserSessions | packages/session/src/SessionManager.ts:326-345 | the loop over the index removes exactly the user's live sessions |
| SessionManagement.SessionManager.DestroyOtherUserSessions | packages/session/src/SessionManager.ts:295-318 | the loop and the stamp leave the specified store and return the number of other indexed sessions |
| SessionManagement.SessionManager.GetUserSessionIds | packages/session/src/SessionManager.ts:167-182 | the loop returns exactly the live sessions and drops only dead entries |
| AuthTheorems.AuthenticationProvenance | apps/api/src/modules/auth/guards/auth.guard.ts:37-58 | an accepted session with an epoch comes from a login verified against the user's present hash or is the session kept by the change that produced the present epoch; one without is accepted only at epoch 1 |
| AuthRevocation.RevokedSessionsStayRefused | apps/api/src/modules/auth/auth.service.ts:342-435 | in every run, even if every Redis clean-up fails: a session whose stamp is not the present epoch is accepted in some continuation if and only if the guard already validated it with the present epoch, or it is alive and one of its own requests that was let in is still under way |
| AuthRevocation.AcceptableExactly | apps/api/src/modules/auth/guards/auth.guard.ts:37-58 | any session, whatever its stamp, can still be accepted if and only if it was validated with the present epoch, or is alive and carries that epoch or may be stamped with one by a request under way |
| AuthRevocation.AcceptedStampIsPresent | apps/api/src/modules/auth/guards/auth.guard.ts:37-58 | a stamp that is accepted is never below an epoch its user had reached at any earlier moment |
| AuthRevocation.RevokedSessionCanReturn | packages/session/src/SessionManager.ts:145-160 | a run from an empty system after which a revoked session, its stamp below the epoch and the revocation over, can still be accepted because its own password change stamps it anew |
| AuthLogins.LoginSucceedsExactly | apps/api/src/modules/auth/auth.service.ts:279-331 | in every run a login is answered with success if and only if the row can be read again and no change or revocation of that user committed since it read it; then the password was right, the row holds the hash that was checked and the session carries the present epoch; otherwise the session is refused, and gone once Redis answers |
| AuthLogins.VerifiedExactly | apps/api/src/modules/auth/auth.service.ts:289-292 | a hash counts as verified if and only if a login of the run was given the right password for it |
| AuthLogins.FreshLoginIsLetIn | apps/api/src/modules/auth/guards/auth.guard.ts:37-58 | from any reachable state an undisturbed login with the right password yields a session that the guard lets in |
| AuthLogins.EndedSessionsStayEnded | apps/api/src/modules/auth/auth.service.ts:333-360 | in every run a session that a logout, a refusal, a revocation's clean-up or that of another session's change has ended is gone, and is accepted later if and only if a guard validated it before with the present epoch |
| AuthLogins.CleanupTriesThrice | apps/api/src/modules/auth/auth.service.ts:344-361 | a clean-up that Redis does not confirm is tried three times, and not again after a confirmation |
| AuthPasswordChanges.VerifiedPresentHashExactly | packages/database/src/repositories/UserRepository.ts:51-62 | in every run a password change that is about to commit was given the current password, and replaces the very hash it was checked against if and only if no other change of that user's password committed since it read the row |
| AuthPasswordChanges.ChangeCanBeLost | apps/api/src/modules/auth/auth.service.ts:379-403 | a run from an empty system in which two changes verify the same password and the second replaces the hash the first one set, which it never saw |
| AuthTheorems.StepInv | apps/api/src/modules/auth/auth.service.ts:279-331 | every step of login, guard, logout, change and revocation keeps the provenance of every stored session and task |
| AuthTheorems.StepEpochs | packages/database/src/repositories/UserRepository.ts:51-71 | no step lowers a user's epoch |
| InstagramCarousel.CarouselIsInMediaOrder | packages/providers/meta/meta.provider.ts:685-790 | over any sequence of interrupted and resumed runs the persisted indices partition 0..n-1 and every parent ever posted lists one container per media item, in media order |
| InstagramCarousel.PublishedCarouselIsComplete | packages/providers/meta/meta.provider.ts:1533-1641 | what finalization publishes for a carousel is a parent posted with every child in order, and it gets that far exactly from PARENT_PROCESSING |
| InstagramCarousel.PrepareGood | packages/providers/meta/meta.provider.ts:702-790 | one run creates children only for pending indices, each at most once and in order, and answers PROCESSING only when all exist |
| InstagramCarousel.SortedIsMediaOrder | packages/providers/meta/meta.provider.ts:1222-1223 | the sorted child list has n entries and position i is the container made for media item i |
| InstagramCarousel.ContinueGood | packages/providers/meta/meta.provider.ts:1165-1280 | continuing keeps the persisted state good, posts at most one ordered parent and is never refused for incomplete children |
| CarouselOutcomes.PrepareSucceedsExactly | packages/providers/meta/meta.provider.ts:645-806 | a run answers PROCESSING if and only if the request is acceptable and the children were made before, or all pending ones are made now and every save goes through |
| CarouselOutcomes.PrepareRefusesExactly | packages/providers/meta/meta.provider.ts:645-700 | each early refusal is given if and only if its condition is the first to fail, and leaves everything as it was |
| CarouselOutcomes.ChildrenAreRemembered | packages/providers/meta/meta.provider.ts:702-790 | a run that stops anywhere loses at most the last child it made, and that one if and only if its save did not take effect |
| CarouselOutcomes.ContinueSucceedsExactly | packages/providers/meta/meta.provider.ts:1165-1280 | the parent is posted if and only if all children are made and the provider creates it, and a recorded one is never posted again |
| CarouselOutcomes.ContinueRefusesExactly | packages/providers/meta/meta.provider.ts:1165-1280 | each other answer is given if and only if its condition holds |
| CarouselOutcomes.CarouselCompletes | packages/providers/meta/meta.provider.ts:1533-1641 | an undisturbed carousel ends with one parent that lists exactly the created children in media order, and it is what finalization publishes |
| InstagramCarousel.CheckChildren | packages/providers/meta/meta.provider.ts:1399-1470 | ready if and only if every child finished, processing if and only if all are healthy and one is in progress, else the first unhealthy child decides |
| InstagramCarousel.VerdictsAreExact | packages/providers/meta/meta.provider.ts:1410-1459 | which polls are final failures, which are unknown and which are errors of the caller |
| InstagramCarousel.CarouselPublisher.PublishInstagramCarousel | packages/providers/meta/meta.provider.ts:645-806 | the loop with its hook ends in the state the specification gives, for every failure point, and keeps the partition |
| TokenRefresh.CommitExactlyWhenUnchanged | apps/worker/src/publishing/token.service.ts:337-346 | the compare-and-swap matches if and only if the refresh column was not written since the refresher read it |
| TokenRefresh.RotationsFormOneChain | apps/worker/src/publishing/token.service.ts:328-346 | each rotation replaces the token stored just before it and no stored token is rotated twice |
| TokenRefresh.OvertakenNeverWrites | apps/worker/src/publishing/token.service.ts:258-366 | once overtaken a refresher never writes again, not after its lock expired and not after a reconnect |
| TokenRefresh.ColumnWriteOvertakes | packages/database/src/repositories/SocialAccountRepository.ts:206-232 | a disconnect, a reconnect with a token or another's rotation overtakes every refresher that has read the row |
| TokenRefresh.WipedUntilReconnect | packages/database/src/repositories/SocialAccountRepository.ts:206-232 | wiped credentials stay wiped in every run without a reconnect |
| TokenRefresh.CredentialsAreWhole | packages/database/src/repositories/SocialAccountRepository.ts:68-108 | the row holds the refresh token written last, and has no access token if and only if it is wiped |
| TokenRefresh.CommitReplacesNewerAccessExactly | apps/worker/src/publishing/token.service.ts:308-344 | a commit replaces an access token written after its refresher's read if and only if the row was written since and no write since touched the refresh column |
| TokenRefresh.CommitCanReplaceNewerAccess | packages/database/src/repositories/SocialAccountRepository.ts:72-83 | a run in which a refresh that does not rotate replaces the access token of a reconnect that returned no refresh token |
| TokenRefresh.AccessIsWrittenLast | packages/database/src/repositories/SocialAccountRepository.ts:72-108 | the stored access token is the one written last, and none after a disconnect |
| TokenRefreshOutcomes.CommitIsRecorded | apps/worker/src/publishing/token.service.ts:308-346 | in every run a commit writes the provider's answer, keeping the refresh token and the expiry it left out, if and only if the refresh column was not written since the read |
| TokenRefreshOutcomes.RefreshIsHandled | apps/worker/src/publishing/token.service.ts:111-346 | an undisturbed refresher waits while the lock is taken, asks the provider if and only if the token is within five minutes of its expiry and can be refreshed, stores the answer and frees the lock |
| TokenRefreshOutcomes.FailureIsHandled | apps/worker/src/publishing/token.service.ts:258-306 | in every run a refresher whose provider fails writes nothing and frees its own lock and nobody else's |
| TokenRefreshOutcomes.ReconnectKeeps | packages/database/src/repositories/SocialAccountRepository.ts:68-108 | a reconnect stores the new access token and keeps what the provider left out; after a disconnect nothing is left to keep |
| TokenRefresh.LockIsExclusive | apps/worker/src/publishing/token.service.ts:120-161 | within its expiry the lock admits one refresher and nobody else's release frees it |
| Webhooks.EffectsAtMostOnce | apps/api/src/modules/billing/billing.service.ts:587-639 | each event's effects commit at most once and the processed flag says exactly whether they did |
| Webhooks.OneInvoicePerPayment | apps/api/src/modules/billing/billing.service.ts:536-547 | a payment id has at most one invoice, and has one as soon as an event charging it was applied |
| Webhooks.NumbersAreGapFree | apps/api/src/modules/billing/billing.service.ts:549-575 | each year's invoices carry exactly 1..lastSequence in order, all printed numbers differ, and each carries the split of its amount |
| WebhookCharges.InvoicesAreTheCharges | apps/api/src/modules/billing/billing.service.ts:528-582 | in every run the invoices are the applied charges in order: each has an applied event of its own with exactly its payment id and amount, and an applied event has one if and only if it charges an amount and has no payment id or is the first with it |
| WebhookCharges.AppliedWasDelivered | apps/api/src/modules/billing/billing.service.ts:587-639 | what is applied was delivered with the very same payload |
| WebhookCharges.TransactionRecords | apps/api/src/modules/billing/billing.service.ts:690-701 | an undisturbed transaction does to the invoice book exactly what recording its charge does, and fails on a negative amount |
| WebhookCharges.CrashUndoes | apps/api/src/modules/billing/billing.service.ts:618-639 | a crash leaves events, invoices and applied effects as they were and frees the rows |
| Webhooks.RedeliveryCompletes | apps/api/src/modules/billing/billing.service.ts:593-639 | after any crash one undisturbed redelivery leaves the event processed |
| Invoices.InvoiceNumberIsInjective | apps/api/src/modules/billing/billing.service.ts:555 | a printed number determines its year and sequence, also beyond five digits |
| Invoices.InvoiceTable.RecordChargedInvoice | apps/api/src/modules/billing/billing.service.ts:528-582 | a known payment id returns its invoice unchanged, otherwise exactly the next number of the year is appended with the split amount |
| Gst.BaseIsNearest | apps/api/src/modules/billing/gst.util.ts:41-43 | the base is the only integer within half a paisa of total / 1.18 and the rounding is never a tie |
| Gst.FloatingPointIsExact | apps/api/src/modules/billing/gst.util.ts:42 | for every amount of the 32-bit column the floating-point computation, with its two roundings, yields the exact base |
| Gst.SplitConserves | apps/api/src/modules/billing/pdf-invoice.service.ts:91-93 | base, CGST and SGST add up to the total, none is negative, the halves differ by at most one, and the tax is within 0.58 paise of 18% of the base |
| Gst.SplitIsMonotone | apps/api/src/modules/billing/gst.util.ts:41-43 | a larger total has neither a smaller base nor a smaller tax |
| OAuthDiscovery.TokenIsConserved | apps/api/src/modules/oauth/oauth.service.ts:114-164 | the key, the open claims and the successful selections together never exceed one |
| OAuthDiscovery.OneUse | apps/api/src/modules/oauth/oauth.service.ts:227-271 | nothing follows a successful selection, a claimant is alone and its restore is never stopped by NX |
| OAuthDiscovery.OnlyTheOwnerSelects | apps/api/src/modules/oauth/oauth.service.ts:155-157 | in every run a task that found, claims, restores or selects the session was its owner's, and the successes are the tasks that selected |
| OAuthDiscovery.ForeignersGetNothing | apps/api/src/modules/oauth/oauth.service.ts:155-157 | a run whose reads are all by others never claims, restores or selects |
| OAuthDiscovery.SelectionSucceedsExactly | apps/api/src/modules/oauth/oauth.service.ts:128-164 | from any state an undisturbed selection succeeds, and consumes the key, if and only if the key is there and the user owns it |
| OAuthDiscovery.FailureRestoresExactly | apps/api/src/modules/oauth/oauth.service.ts:263-271 | in every run an undisturbed database failure gives the token back if and only if it is younger than 900 s, and an invalid selection never does |
| OAuthDiscovery.CrashLosesTheToken | apps/api/src/modules/oauth/oauth.service.ts:159-271 | in every run a claimant that dies takes the token with it: nobody ever selects |
| OAuthDiscovery.LifeIsBounded | apps/api/src/modules/oauth/oauth.service.ts:263-269 | however often it is restored the key ends no earlier than 900 s from creation, and less than a second plus the write's delay later |
| OAuthDiscovery.RestoreProlongsExactly | apps/api/src/modules/oauth/oauth.service.ts:263-269 | a restore passes 900 s from creation if and only if the age had a fraction of a second or the write was late, and by exactly that much |
| OAuthDiscovery.RestoreCanProlong | apps/api/src/modules/oauth/oauth.service.ts:263-269 | a run in which a restored key ends a millisecond after the promised 900 s, with no delay of any write |
| RateLimiter.RateIsBounded | apps/api/src/modules/core/redis-throttler.storage.ts:27-50 | any half-open interval as long as the window admits fewer than twice the limit |
| RateLimiter.WindowIsBounded | apps/api/src/modules/core/redis-throttler.storage.ts:27-50 | a window admits at most the limit, whatever was counted before |
| RateLimiter.BoundIsTight | apps/api/src/modules/core/redis-throttler.storage.ts:27-50 | for every limit some schedule admits exactly 2 * limit - 1 |
| RateLimiter.ThrottlerKey.Hit | apps/api/src/modules/core/redis-throttler.storage.ts:18-58 | a hit inside a window never moves its end, and the reported wait is the least number of seconds after which it is over |
| FoundingSeats.FoundingCap | apps/api/src/modules/billing/billing.service.ts:305-390 | in every run the seats taken, and the one being written, exceed 50 by no more than the founding subscriptions that webhooks brought back |
| FoundingSeats.CapBreaksExactly | apps/api/src/modules/billing/billing.service.ts:645-785 | from within the cap a step leaves it if and only if a webhook revives a HALTED or EXPIRED founding subscription while no seat is free |
| FoundingSeats.CapCanBreak | apps/api/src/modules/billing/billing.service.ts:305-332 | a concrete run takes 51 seats |
| FoundingSeats.UndisturbedClaim | apps/api/src/modules/billing/billing.service.ts:201-399 | a claim by a new workspace that nothing disturbs takes a seat whenever fewer than 50 are taken |
| FoundingSeats.ClaimIsDecided | apps/api/src/modules/billing/billing.service.ts:201-399 | whatever happens between its reading, its count and its write: a claim is grandfathered by what it read, sold out by the seats at the count, aborted if and only if the subscription appeared or vanished, and otherwise seated on trial |
| FoundingSeats.RevivesExactly | apps/api/src/modules/billing/billing.service.ts:645-785 | the webhooks that bring a founding subscription back to a seat, given as an if and only if on event, status and the status the handler saw |
| FoundingSeats.FoundsOnlyByGrant | apps/api/src/modules/billing/billing.service.ts:305-390 | in every run a workspace becomes a founding one only by a grant of its own claim, so a lost founding price stays lost until it claims again |
| FoundingSeats.FoundingIsLost | apps/api/src/modules/billing/billing.service.ts:513-522 | a cancel, a plan switch, a cancellation webhook and a deletion take the founding price away; a trial's expiry does not |
| FoundingSeats.WebhookWrites | apps/api/src/modules/billing/billing.service.ts:645-785 | each webhook's effect on status and founding flag of its own subscription, and none elsewhere |
| FoundingSeats.AbortReleases | apps/api/src/modules/billing/billing.service.ts:305-399 | an aborted claim takes no seat and releases the Plan row |

## Left out

- Provider calls, storage, e-mail, PDF drawing, audit rows, heartbeats, logging, HTTP wiring and the web client: input and output, modelled as event arguments or not at all.
- Encryption, password hashing and random identifiers: fresh values and an opaque match.
- `process` of the publishing worker and the scan loops of the dispatcher as single methods: other actors act at each of their awaits, so they are steps of the state machine; the order of a scan over several rows and its batch size are not modelled.
- More than one publication row: rows do not interact; the state machine's row is never deleted, the repositories' may be.
- Job identifiers, delays and payload contents of the queue: covered by letting any job arrive at any time.
- Whole-run legality of the status: false for workers, whose early fences and result handlers write it unguarded; it is stated for the guarded steps only.
- UNKNOWN status implying phase AMBIGUOUS: false, because exceptions outside a checkpoint set the status without the metadata.
- Progress of retries and of recovery: safety only, except that a webhook redelivery completes.
- A fractional or non-finite `delayMs`, the `trim` of a reconciled id beyond space, tab and line breaks, and ISO date strings: integers, four blank characters and integer times.
- The carousel through the worker: its hook passes no container id, which the repository demands, so the carousel is proved at provider level against an abstract persistence hook.
- The other answers of the carousel's remote calls (rate limits, error codes): they all end the run, so one refusal stands for them; a media item without a MIME type or key is not modelled.
- The status poll of a single container and of the parent container: branch by branch, no state.
- SessionManagement.SessionManager.ValidateSession: does not model a session key that holds corrupt JSON, because only these scripts write session keys and they write encoded tables.
- SessionManagement.SessionManager.DestroySession: does not model the branch that skips the index for corrupt JSON, for the same reason.
- SessionManagement.SessionManager.DestroyOtherUserSessions: does not model the branch that leaves a corrupt kept session unstamped, for the same reason.
- TokenRefresh.LockIsExclusive: does not model the get-then-delete release, which is taken only for a Redis client without `eval`, and the client library always has it.
- `createdAt` of a session and the CSRF check: not modelled; Redis TTLs are exact integer ticks, not rounded to seconds.
- A salted password hash drawn twice: a commit whose hash its user had before is no step.
- Argument checks of signup and e-mail verification: a user appears with a hash at epoch 1.
- Account status and `getExecutionCredentials`: after a lost compare-and-swap to a disconnect the refresher still sets the account ACTIVE, so the refresh theorems speak of credential columns only.
- The waiting loop of a refresher that does not get the lock: it only reads, so it is a worker that waits or gives up.
- A database transaction whose commit succeeds while its answer is lost: a failed transaction is taken to have changed nothing (the discovery restore and the webhook abort rely on it).
- Subscription fields other than the founding flag and status, and creating the Plan row: they do not affect the cap; a status that a handler read before its write is an arbitrary event argument, which allows more runs than the original.
- Subscription status changes inside `Webhooks`: they are the webhook events of `FoundingSeats`; in `Webhooks` an event either charges or not.
- A fractional payment amount: amounts are integers, and a negative one fails the transaction as in the original.
- Floating-point amounts above the 32-bit column: the exactness of `Math.round(total / 1.18)` is proved up to it.
- The limiter's other keys and the Lua encoding: keys are independent.
- Media upload and recovery, permissions, redirect and URL checks, capability tables and pagination: local branches without shared state.
