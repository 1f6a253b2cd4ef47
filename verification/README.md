# Quantalithos bus: committed truth, verified

This project models the write side of a message bus that keeps committed records of what happened to each
message, and proves what the bus promises about them.

**The store.** A transactional in-memory store (`Store.dfy`) begins, stages, commits and rolls back over
publications, deliveries, feedback, retry plans, dead letters, replay preparations, failure materials,
idempotency anchors, projections, conflicts and an append-only audit log, with four derived indexes.
Uniqueness and versions are checked while staging; a commit lays the staged set over the committed state
without checking again. `StoreModel.dfy` is the same store on values. `Interleaving.dfy` proves
serializability of conflict-free interleavings and shows by a general example why the condition is needed;
`Indexes.dfy` proves that each index lookup is a full scan; `StagingLaws.dfy` what each staging call is told, read off
the tables, and that no stale save commits; `Projections.dfy` that versions count upserts.

**The services.** Deliveries, attempts, retry plans, replay preparations and acceptances are classes updated in
place (`DeliveryRecords.dfy`, `RecoveryRules.dfy`, `PublicationRules.dfy`) and proved against rules on their
values. The services (`RecoveryServices.dfy`, `DeliveryServices.dfy`, `FeedbackServices.dfy`,
`PublicationServices.dfy`) run on one shared store through a unit of work and an audit repository with armable
failures (`Adapters.dfy`); each call is proved to do exactly what its step (`RecoverySteps.dfy` and its
neighbours) says on every path: nothing, the whole staged set, an abandoned transaction, or one access entry.
Clock readings, generated identifiers, backend answers and injected failures are arguments of a call, so every
theorem holds for all of them.

**What each call commits.** For every entry point one theorem says exactly when it commits, from the stored records
and the request's own fields, and what it then leaves and answers: `PublicationOutcomes.dfy`, `ReportOutcomes.dfy`
(feedback, backend signals, timeouts), `DispatchOutcomes.dfy` (first dispatches and runs of due plans),
`RecoveryOutcomes.dfy` (retry requests, dead letters, replays) and `KeyReuse.dfy` (reused keys). `RecordGuards.dfy`
says what the operations on one delivery accept on any record.

**Whole runs.** `Invariants.dfy`, `ServiceEffects.dfy`, `Paths.dfy` and `Runs.dfy` prove one invariant of every
reachable state (`Seeding.dfy` starts it). On top of it stand conservation and termination of retries, histories
as traces, attempts in order, intact recovery chains, terminal stability (`RunTheorems.dfy`), idempotent replay (`IdempotentReplay.dfy`), the account the
audit log gives of every change (`Accounts.dfy`), and what batch jobs achieve (`RetrySweep.dfy`,
`BatchEffects.dfy`, `BatchPages.dfy`).

**The edges.** The outbox source and its relay (`OutboxSource.dfy`, `OutboxPaging.dfy`, `OutboxRelay.dfy`,
`RelayTheorems.dfy`, `RelaySafety.dfy`), the publisher sink (`Publisher.dfy`), the audit pages (`AuditPages.dfy`) and the FNV-1a
request digest (`Digest.dfy`; section 2 of the Internet-Draft draft-eastlake-fnv).

Strings are compared in lexicographic order, as sorted maps and cursors do. Versions and counters are natural
numbers; the digest and the projection versions keep their 64-bit arithmetic explicit. `hide` statements keep
definitions a proof does not need away from the solver.

Where the code and what one might expect of it differ, the model follows the code: a failing commit leaves its
transaction staged for ever, an exhausted identifier generator leaves some calls without a rollback, the number
reported for a staged audit entry is not reserved, and nothing stops a plan save from moving a scheduled plan to
another delivery (the exact condition is `Indexes.PlanWriteKeepsIndexIff`). A backend signal settles its delivery by
the normalized answer and records the status the signal itself carries, so the two may differ
(`ReportOutcomes.SignalDecided`); a retry request does not check that its material belongs to its delivery
(`RecoveryOutcomes.RequestDecided`). And the relay acknowledges a fact whose acceptance failed on a version, uniqueness
or sequence conflict of the audit log, because such a failure reads as a conflict of the fact itself: the fact is then
lost (`RelaySafety.MistakenFactIsLost`; everything else it acknowledges is decided,
`RelaySafety.AcknowledgedOnlyIfDecided`).

## Model

| member | source | states |
|---|---|---|
| Interleaving.InterleavingIsSerial | crates/infra/src/store.rs:90-249 | After any interleaving of begin, stage, commit, rollback and access entries in which no commit writes a record or index key another open transaction has staged, every table, version, index, audit and conflict equals that of the committed transactions run one at a time in commit order, and every staging call got the answer it gets in that serial run. |
| Interleaving.OverlapIsNotSerial | crates/infra/src/store.rs:364-414 | Why the condition is needed: from any state, two overlapping transactions that schedule plans for the same delivery both succeed and commit, although in either serial order the second would be refused. |
| Interleaving.AuditsAppendOnly | crates/infra/src/store.rs:230-234 | Under every interleaving, conflicts or not, the log only grows at its end and the counter is its length. |
| Interleaving.LogGrows | crates/infra/src/store.rs:720-734 | A sequence number read at one moment of an interleaving denotes the same entry at every later one. |
| Indexes.PlanWriteKeepsIndexIff | crates/infra/src/store.rs:178-191 | Writing a plan keeps the active-plan index equal to a scan if and only if no other plan is active for its delivery and the plan does not move to another delivery; the second half is checked nowhere. |
| Indexes.CommitKeepsIndexes | crates/infra/src/store.rs:178-218 | A commit of soundly staged records leaves all four indexes exactly the inverse of their tables, whatever the order of rows. |
| Indexes.StagingKeepsSound | crates/infra/src/store.rs:364-414 | Every staging call keeps the staged set sound with respect to the committed tables. |
| Indexes.SerialRunsKeepIndexes | crates/infra/src/store.rs:178-218 | In every serial run of transactions that save plans for their own deliveries each index lookup equals a full scan. |
| Indexes.InterleavingsKeepIndexes | crates/infra/src/store.rs:178-218 | So does every conflict-free interleaving. |
| Runs.RunKeeps | crates/application/src/services/recovery.rs:336-545 | Every run of service calls, with any answers, identifiers, clocks and injected failures, keeps the invariant (attempts sound, versions and indexes exact, dead letters, materials and replays chained, anchors bound to replayable records), and every earlier record evolves lawfully into the later one. |
| RunTheorems.AttemptsConserved | crates/application/src/services/recovery.rs:400-514 | Over every run a delivery gains one attempt for each unit of budget its plans spent plus one for its first dispatch, which commits at most once. |
| RunTheorems.AttemptsBounded | crates/application/src/services/delivery.rs:105-289 | A delivery never dispatched and without spent plans never exceeds one attempt plus the whole budget of its plans. |
| RunTheorems.RetriesEnd | crates/domain/src/recovery.rs:76-116 | The committed runs of a plan plus the runs it has left never exceed the runs it had: at most its remaining attempts and one exhausting run. |
| RunTheorems.HistoriesAreTraces | crates/domain/src/delivery.rs:141-153 | The committed history stays a chained trace of lifecycle edges from Scheduled to the current status with one dispatch per attempt and at most four entries per attempt. |
| RunTheorems.AttemptsStayInOrder | crates/domain/src/delivery.rs:104-216 | In every state of every run attempts are numbered from one under distinct identifiers, each finished not before it started, all finished but the last of a dispatching delivery; the last one is referenced, a delivered or completed delivery ends in success, and a scheduled one has none. |
| RunTheorems.RecoveryChainsIntact | crates/domain/src/recovery.rs:169-207 | In every state of every run a dead letter's delivery is dead-lettered with the referenced failure just before, linked material points back to an entry of its delivery, and a ready replay carries its dead letter's chain, which still resolves. |
| RunTheorems.LookupsStayScans | crates/infra/src/store.rs:178-218 | In every state of every run each of the four index lookups equals a full scan of its table. |
| RunTheorems.TerminalForever | crates/domain/src/delivery.rs:227-306 | A completed or dead-lettered delivery is never changed by any later call: status, attempts, history and version. |
| RunTheorems.DecisionsAppearWhole | crates/application/src/services/publication.rs:278-371 | A publication appears only together with its material, a terminal decision, the audit entry of that very decision and a new anchor bound to it. |
| Accounts.ChangesAreAccounted | crates/application/src/services/recovery.rs:230-296 | After any call every plan, dead letter, replay, feedback and delivery that differs is accounted for by the entries the call appended, under the right subject with the action that matches the change. |
| Accounts.CommitAccounted | crates/infra/src/store.rs:112-239 | A lawful transaction's own audit entries account for every record its commit changes. |
| IdempotentReplay.PublicationReplays | crates/application/src/services/publication.rs:390-420 | Once a publication command is decided, re-submitting it after any run leaves the bus untouched and returns the first outcome, identifiers and audit reference included. |
| IdempotentReplay.FactReplays | crates/application/src/services/publication.rs:496-526 | Once an outbox fact is decided, consuming it again after any run changes nothing and returns the first outcome, as a duplicate when it was accepted. |
| IdempotentReplay.FeedbackReplays | crates/application/src/services/feedback.rs:420-433 | A repeated feedback command returns the first receipt with the status the feedback implied, even when the delivery has moved on. |
| IdempotentReplay.SignalReplays | crates/application/src/services/feedback.rs:617-634 | A repeated backend signal is answered as a duplicate with the first outcome's identifiers and changes nothing. |
| IdempotentReplay.TimeoutReplays | crates/application/src/services/feedback.rs:865-877 | A repeated timeout is answered as a duplicate with the first outcome's identifiers and changes nothing. |
| IdempotentReplay.ReplaysNeverCorrupted | crates/application/src/services/feedback.rs:142-237 | In every reachable state whatever an anchor is bound to can be replayed; no lookup ends in a corrupted-record error. |
| Seeding.ReachableSound | crates/infra/src/store.rs:333-362 | Every state reachable by service calls from an empty store seeded with well-formed records satisfies the invariant. |
| Seeding.SownSound | crates/infra/src/store.rs:839-855 | Seeding well-formed deliveries, plans and unlinked materials in any order yields a state the invariant holds of. |
| RetrySweep.RunLeaves | crates/application/src/services/recovery.rs:336-545 | A retried plan loses exactly one attempt, an exhausted one had none left and is marked so, a failed run leaves it unchanged; no other plan is touched. |
| RetrySweep.CycleEffect | crates/application/src/services/recovery.rs:788-826 | A retry cycle is a run of service calls and leaves every plan of its page as counted and no other plan touched. |
| RetrySweep.DueScan | crates/infra/src/store.rs:427-446 | The due scan finds exactly the scheduled plans due at the given time past the cursor, in identifier order. |
| RetrySweep.SweepFollowsDue | crates/application/src/services/recovery.rs:794-806 | Following the cursors at a fixed time runs the plans due at the start in identifier order as far as the page sizes reach, whatever each run comes to. |
| RetrySweep.SweepVisitsOnce | crates/application/src/services/recovery.rs:794-826 | A sweep from the origin with large enough pages runs each plan due past it exactly once. |
| RetrySweep.CreatedPastOrigin | crates/domain/src/recovery.rs:36-73 | Every plan the service creates is due past the origin cursor from its creation time on, so a sweep from there reaches it. |
| BatchEffects.BatchEffect | crates/application/src/services/delivery.rs:300-350 | A progression batch is a run of service calls, leaves every delivery of its page as counted and touches no other. |
| BatchEffects.SchedulableScan | crates/infra/src/store.rs:897-914 | The scan returns scheduled deliveries only, each once in identifier order, and unless it wraps only those past the cursor. |
| BatchEffects.BatchCountsArrivals | crates/application/src/services/delivery.rs:313-349 | The dispatched counter equals the number of the page's deliveries that are Delivered when the batch ends. |
| RelayTheorems.NeverSkips | crates/application/src/services/outbox.rs:56-113 | If every fact the input cursor has left behind is acknowledged, so is every fact behind the returned cursor, for any mix of accept errors, rejections and acknowledgement failures; accepted plus rejected equals the facts newly acknowledged. |
| RelayTheorems.RunsNeverSkip | crates/application/src/services/outbox.rs:56-113 | The same over any number of relay runs. |
| RelayTheorems.FailureFreeDrains | crates/infra/src/source.rs:113-156 | A run in which nothing fails lowers the number of unacknowledged facts by the smaller of the page size and that number. |
| RelayTheorems.RunsDrain | crates/application/src/services/outbox.rs:56-113 | Failure-free runs drain the source by the sum of their page sizes, down to none. |
| RelayTheorems.AcceptedFactsBound | crates/application/src/services/outbox.rs:70-104 | After any relay run the bus's invariant holds and every fact counted as accepted is bound under its own digest, so handing it over again is a duplicate. |
| OutboxPaging.PagesAreOneScan | crates/infra/src/source.rs:113-156 | Following the cursor returns, in order and once each, exactly the facts unacknowledged at the start between where it began and where it stands, with facts seeded and returned facts acknowledged in between. |
| OutboxPaging.ShortPageEndsScan | crates/infra/src/source.rs:139-153 | Once a poll comes back short everything pending after the start has been returned. |
| Publisher.RetriedBatchPublishedOnce | crates/infra/src/outbox/publisher_memory.rs:184-195 | Retrying a batch until it succeeds, with failures injected anywhere, leaves the old sink followed by the batch without repeats by event id, record reference and schema version, in order of first occurrence. |
| Publisher.OccurrencesMeaning | crates/infra/src/outbox/publisher_memory.rs:144-154 | The first occurrences carry each key not yet known exactly once, at the first event of the batch that has it. |
| Publisher.AttemptsCorrespond | crates/infra/src/outbox/publisher_memory.rs:138-182 | Published events, receipts and confirming evidence stay in one-to-one correspondence over any attempts. |
| AuditPages.PagesJoin | crates/infra/src/repositories.rs:198-241 | Pages fetched by following tokens, with commits in between, join to a prefix of the final filtered log, and to all of it when the last page has no token. |
| AuditPages.PagesOrdered | crates/infra/src/repositories.rs:224-235 | Across pages the sequence numbers strictly increase and each denotes the same matching entry in every later log. |
| AuditPages.FilteredComplete | crates/infra/src/repositories.rs:210-223 | Every entry that matches the filter is listed under its own sequence number. |
| AuditPages.PageContinues | crates/infra/src/repositories.rs:203-239 | A page continues exactly where its token points, and its own token is present only when the page is full and more remains. |
| Projections.VersionsCountUpserts | crates/infra/src/store.rs:157-177 | In every serial run the k-th committed upsert of a view, summary or health projection is stored under the prefix followed by k in decimal. |
| Projections.InterleavedVersionsCount | crates/infra/src/store.rs:917-991 | The same in every conflict-free interleaving. |
| Projections.UnitCounts | crates/infra/src/store.rs:1025-1041 | The version a transaction is told while staging is the one its commit stores. |
| Projections.NextIsNumbered | crates/contracts/src/metadata.rs:427-435 | The version after the k-th is the one numbered k + 1, because parsing undoes decimal printing below the 64-bit limit. |
| Digest.OneByteChangeIsSeen | crates/domain/src/idempotency.rs:165-176 | Two payloads of equal length that differ in exactly one byte have different digest strings, by injectivity of xor-then-multiply modulo 2^64 in hash and byte and of the 16-digit hexadecimal form. |
| Digest.FromCanonicalPayload | crates/domain/src/idempotency.rs:165-176 | The byte loop computes the FNV-1a fold of the payload in its printed form. |
| Digest.XorInjective | crates/domain/src/idempotency.rs:165-176 | Xor is injective in each argument. |
| Digest.WrappingMulInjective | crates/domain/src/idempotency.rs:165-176 | Multiplying by the odd prime modulo 2^64 is injective. |
| Digest.FoldInjective | crates/domain/src/idempotency.rs:165-176 | Different hashes stay different under every common tail. |
| Numerals.ParseDecimal | crates/contracts/src/metadata.rs:427-435 | Parsing undoes printing for every 64-bit value. |
| Numerals.HexInjective | crates/domain/src/idempotency.rs:165-176 | Fixed-width hexadecimal text is injective. |
| PublicationOutcomes.CommandDecided | crates/application/src/services/publication.rs:390-480 | A command adds a publication if and only if it has an unused key, its required fields, a publication not stored yet and nothing fails. It is then stored as accepted if and only if its core event reference is not blank and its trimmed payload reference is a reference; the reject reason is the missing core event if and only if that reference is blank, and the payload boundary in the remaining case; material, decision entry and anchor appear with it, and the caller gets Ok if and only if it is accepted. |
| PublicationOutcomes.FactDecided | crates/application/src/services/publication.rs:496-593 | The same for a committed outbox fact, from the fact's own fields. |
| PublicationOutcomes.GuardMeaning | crates/domain/src/publication.rs:384-405 | The payload guard rejects exactly what is no reference: without its outer blanks the text must not be empty, open a JSON value, span lines, or quote a secret or payload field. |
| ReportOutcomes.SignalDecided | crates/application/src/services/feedback.rs:610-845 | A backend signal on a stored delivery is recorded if and only if it is new, filled in, about the delivery's open attempt, answered by the backend, and nothing fails. The delivery is then Delivered if the normalized answer says so and Failed otherwise, by exactly one history entry from Dispatching, with the open attempt closed by that answer's status and reference at the clock's time; the stored feedback carries the status the signal itself reports; otherwise no delivery and no feedback changes. |
| ReportOutcomes.TimeoutDecided | crates/application/src/services/feedback.rs:858-1082 | A timeout is recorded if and only if it is new, filled in, about the last attempt of a delivery that is Delivered or has been open since before it, and nothing fails. The delivery then fails by one history entry, a dispatching one with its open attempt closed as failed, a delivered one with its attempts untouched. |
| ReportOutcomes.FeedbackDecided | crates/application/src/services/feedback.rs:415-595 | A feedback command is recorded if and only if it is keyed, new, filled in, about the last attempt of a Delivered delivery, and nothing fails. It then completes the delivery when it acknowledges and fails it otherwise, by one history entry and without touching an attempt, and answers with that status. |
| ReportOutcomes.UnknownSignalIgnored | crates/application/src/services/feedback.rs:667-702 | A signal about a delivery the bus does not know is logged once as ignored and answered without a feedback, or, when something fails, leaves no trace. |
| ReportOutcomes.UnknownTimeoutIgnored | crates/application/src/services/feedback.rs:897-926 | The same for a timeout. |
| DispatchOutcomes.RunDecided | crates/application/src/services/recovery.rs:336-545 | Running a stored plan commits if and only if the plan is scheduled, its delivery stored, nothing fails and, with attempts left, the delivery is Scheduled or Failed with a capability and the backend's answer is an error or a success: an Ok answer that reports a failure commits nothing. The plan then loses one attempt and the delivery gains one: Delivered with the answer's reference if and only if the backend accepted, else Failed without one, told by its history entries in order. Without attempts left the plan is exhausted and the answer has no effect. |
| DispatchOutcomes.ProgressDecided | crates/application/src/services/delivery.rs:105-289 | A first dispatch commits if and only if the delivery is stored, Scheduled, has a capability, the clock does not run backwards, the answer is an error or a success, and nothing fails; status, attempt, history, both audit entries and the retry flags of the answer then follow the backend's answer. |
| RecoveryOutcomes.RequestDecided | crates/application/src/services/recovery.rs:558-638 | A retry request commits if and only if it is filled in with at least one attempt, its delivery is stored and Failed with no scheduled plan in the table, its material is stored with a reason, the plan's identifier is new and nothing fails; it then adds exactly the plan asked for and one entry. |
| RecoveryOutcomes.MoveDecided | crates/application/src/services/recovery.rs:651-775 | A move to dead letter commits if and only if it is filled in, its delivery is stored and Failed as its last history entry says, its material is stored, versioned, audited and the delivery's own, the entry is new and nothing fails; it then closes the delivery by one history entry, stores the entry that names the failure before it, and links the material. |
| RecoveryOutcomes.PrepareDecided | crates/application/src/services/recovery.rs:949-1066 | A replay preparation commits if and only if it is filled in, its caller has a role, its dead letter is stored, not closed and carries the chain asked for, some audit entry belongs to that chain, no preparation is stored under its identifier or approval, and nothing fails; a caller without roles leaves one access entry and nothing else. |
| StagingLaws.RepliesMeanScans | crates/infra/src/store.rs:364-414 | Every staging call is refused for its version if and only if the version it names is not the committed one (or its material was never stored), refused for uniqueness if and only if a scan of the committed and staged tables finds what it would store taken, and is otherwise told the version after the committed one. |
| StagingLaws.StaleSaveRefused | crates/infra/src/store.rs:857-884 | No update is lost: in every conflict-free interleaving, once a transaction's save of a delivery or plan has committed, saving it under a version read before that commit is refused with a version conflict, whatever happened in between and in whichever transaction. |
| StagingLaws.CommitVersions | crates/infra/src/store.rs:122-191 | A commit raises the version of each delivery and plan it saved by exactly one and no other's. |
| RelaySafety.AcknowledgedOnlyIfDecided | crates/application/src/services/outbox.rs:70-104 | For every page, ports and failures: a fact becomes acknowledged only if after the run its request is bound on the bus, or a required field is blank, or its key was reused and the conflict is committed, or its publication is already stored; the one exception is a fact whose handling used up an armed append failure that looks like a conflict. |
| RelaySafety.MistakenOnce | crates/application/src/services/outbox.rs:70-104 | At most one fact of a page is such an exception, and none unless that failure was armed when the run began. |
| RelaySafety.ObstructedFactsComeAgain | crates/application/src/services/outbox.rs:90-113 | A new and valid fact met by a missing identifier, a lasting append failure or a commit failure fails its item, leaves the bus as it was, stays unacknowledged, and the returned cursor is the input cursor. |
| RelaySafety.NewFactFate | crates/application/src/errors.rs:233-239 | Consuming a new and valid fact is settled if and only if both identifiers are drawn and either no failure is armed or the armed append failure is a version, uniqueness or sequence conflict; in the first case the fact is bound, in the second it is not. |
| RelaySafety.MistakenFactIsLost | crates/application/src/errors.rs:493-516 | Where acknowledging only decided facts fails: a version, uniqueness or sequence conflict of the audit log is reported as a conflict of the fact, so any new and valid fact that meets it is acknowledged although nothing about it was committed. |
| RelaySafety.SequenceConflictLosesFact | crates/application/src/errors.rs:493-516 | A concrete instance: one pending fact, an empty bus and an armed sequence conflict end with the fact acknowledged, the cursor past it and the bus unchanged. |
| RelaySafety.RunsAcknowledgeDecided | crates/application/src/services/outbox.rs:56-113 | Without an armed append failure of that kind, every fact acknowledged by any number of runs, failing in any other way, is decided. |
| RelaySafety.ItemExactly | crates/application/src/services/outbox.rs:70-104 | For every fact: its item fails if and only if the bus cannot answer it (a missing identifier or a failure that lasts stands in the way of deciding, or of recording a reused key) or its acknowledgement fails; it counts as accepted only if its key is then bound to an accepted publication. |
| RelaySafety.CleanRunMovesOn | crates/application/src/services/outbox.rs:105-113 | A run in which nothing fails moves the cursor past its whole page: to the end of the facts, or a full page further. |
| KeyReuse.CommandReuseRefused | crates/application/src/services/publication.rs:400-428 | A publication key bound to a request with another digest is refused without touching any record: one conflict with both digests and one entry, which the error names; or nothing at all when no identifier is drawn or something fails. |
| KeyReuse.FactReuseRefused | crates/application/src/services/publication.rs:506-536 | The same for outbox facts. |
| KeyReuse.FeedbackReuseRefused | crates/application/src/services/feedback.rs:424-446 | The same for feedback commands. |
| KeyReuse.SignalReuseRefused | crates/application/src/services/feedback.rs:617-646 | The same for backend signals. |
| KeyReuse.TimeoutReuseRefused | crates/application/src/services/feedback.rs:865-890 | The same for timeouts. |
| BatchPages.PageScan | crates/infra/src/store.rs:897-914 | A progression page is the first stored, scheduled deliveries past the cursor in identifier order, as many as its limit allows, and complete when shorter; the scan starts over exactly when no stored identifier is past the cursor. |
| BatchPages.NextPageFollows | crates/application/src/services/delivery.rs:306-316 | The page after a page lies past it, whatever happened to the deliveries in between, unless no stored identifier is left past it. |
| BatchPages.ItemMeaning | crates/application/src/services/delivery.rs:318-346 | An item is counted dispatched if and only if its dispatch commits and the backend accepts, skipped if and only if the delivery is gone, is no longer schedulable, or the audit log reports a conflict, and failed otherwise. |
| RecordGuards.FinishGuard | crates/domain/src/delivery.rs:120-138 | On any record: an attempt is closed if and only if it is the referenced one, the first stored under its identifier, open and not started later; it alone changes, in its end only. |
| RecordGuards.DeliverGuard | crates/domain/src/delivery.rs:189-216 | On any record: a delivery is delivered if and only if it is dispatching and the attempt is its own referenced, stored one, finished with success. |
| RecordGuards.CompleteGuard | crates/domain/src/delivery.rs:284-327 | On any record: a delivery is completed if and only if it is delivered and its own acknowledged feedback is on its referenced, stored attempt, finished with success; only its status changes. |
| RecordGuards.EdgeGuards | crates/domain/src/delivery.rs:419-431 | A history entry is appended if and only if it is the delivery's own and along one of the eight edges of the lifecycle. |
| Publisher.PublishedIsAnswered | crates/infra/src/outbox/publisher_memory.rs:138-182 | Once published, an event is answered ever after with its first receipt marked as a duplicate, whatever was attempted in between and whatever failure is armed, which stays armed. |
| DeliveryRules.DispatchEffect | crates/application/src/services/delivery.rs:129-238 | A dispatch of a sound delivery requires Scheduled, appends exactly one attempt numbered and named after its count, ends Delivered or Failed as the backend answered, and appends exactly the two matching history entries. |
| DeliveryRules.RetryKeeps | crates/application/src/services/recovery.rs:406-510 | A retry starts from Scheduled or Failed, keeps the delivery well formed, extends its history by a trace and adds one attempt. |
| DeliveryRules.AckKeeps | crates/application/src/services/feedback.rs:485-499 | Acknowledged feedback completes a delivered delivery, keeps it well formed and touches no attempt. |
| DeliveryRules.FailKeeps | crates/application/src/services/feedback.rs:500-515 | Failed feedback fails the delivery, keeps it well formed and touches no attempt. |
| DeliveryRules.FinishThenArrive | crates/application/src/services/feedback.rs:714-756 | A delivering signal closes the open attempt and delivers, keeping the delivery well formed. |
| DeliveryRules.FinishThenFail | crates/application/src/services/feedback.rs:940-1016 | A failing signal or a timeout closes the open attempt and fails the delivery, keeping it well formed. |
| DeliveryRules.DeadLetterKeeps | crates/domain/src/delivery.rs:261-282 | Dead-lettering keeps a failed delivery well formed and appends the one closing entry. |
| DeliveryRules.FindsOwn | crates/domain/src/delivery.rs:104-138 | Looking an attempt up by its own identifier finds exactly that attempt. |
| DeliveryRules.AttemptIdsDistinct | crates/domain/src/delivery.rs:355-373 | Attempt identifiers of one delivery are distinct, because decimal numbers are. |
| DeliveryRules.TerminalIsFinal | crates/domain/src/delivery.rs:419-431 | No lawful evolution leaves a terminal status. |
| DeliveryRules.TracedEvolves | crates/domain/src/delivery.rs:419-431 | A traced delivery stays traced, with at most four history entries per attempt. |
| ServiceEffects.RunPlanLawful | crates/application/src/services/recovery.rs:336-545 | What a retry run commits is lawful: attempts paid for, both records at their next versions, all indexes exact, one entry logged. |
| ServiceEffects.RequestLawful | crates/application/src/services/recovery.rs:558-638 | What a retry request commits is lawful: a new plan with its whole budget on a delivery without an active one. |
| ServiceEffects.MoveLawful | crates/application/src/services/recovery.rs:651-775 | What dead-lettering commits is lawful: the entry names the failure just before it, the material points back, the delivery is terminal. |
| ServiceEffects.PrepareLawful | crates/application/src/services/recovery.rs:949-1066 | What preparing a replay commits is lawful: the chain it carries is its dead letter's and resolves. |
| ServiceEffects.ProgressLawful | crates/application/src/services/delivery.rs:105-289 | What a dispatch commits is lawful and is the delivery's first attempt. |
| ServiceEffects.RecordLawful | crates/application/src/services/feedback.rs:447-595 | What recording feedback commits is lawful: feedback, delivery, entry and anchor together. |
| ServiceEffects.SignalLawful | crates/application/src/services/feedback.rs:610-845 | What a backend signal commits is lawful, for known and unknown deliveries. |
| ServiceEffects.TimeoutLawful | crates/application/src/services/feedback.rs:858-1082 | What a timeout commits is lawful, for known and unknown deliveries. |
| ServiceEffects.DecideLawful | crates/application/src/services/publication.rs:278-371 | What a publication decision commits is lawful: material, terminal decision, its own audit entry and its anchor. |
| Invariants.LawfulCommit | crates/infra/src/store.rs:112-239 | A lawful transaction committed on a sound state leaves a sound state. |
| Invariants.LawfulFollows | crates/infra/src/store.rs:112-239 | After a lawful commit every record is the earlier one or a lawful successor of it. |
| Budgets.SpentWithinBudget | crates/domain/src/recovery.rs:86-103 | What a delivery's plans have spent is within their budget. |
| Store.SharedMemoryStore.BeginTransaction | crates/infra/src/store.rs:90-109 | Issues an unused handle with nothing staged and leaves the other transactions alone. |
| Store.SharedMemoryStore.CommitTransaction | crates/infra/src/store.rs:112-239 | Removes the transaction and lays its whole staged set over the committed state; an unknown handle changes nothing. |
| Store.SharedMemoryStore.Apply | crates/infra/src/store.rs:122-234 | The commit's loops together are one overlay of all tables, versions, indexes and logs. |
| Store.SharedMemoryStore.CommitPlans | crates/infra/src/store.rs:178-191 | Inserting staged plans in key order maintains rows, versions and the active index together. |
| Store.SharedMemoryStore.CommitDeadLetters | crates/infra/src/store.rs:192-206 | The same for dead letters. |
| Store.SharedMemoryStore.CommitReplays | crates/infra/src/store.rs:207-218 | The same for replay preparations and the ready index. |
| Store.CountRows | crates/infra/src/store.rs:141-153 | Each staged row is inserted and its own commit counter moves by one. |
| Store.VersionRows | crates/infra/src/store.rs:160-177 | Each staged projection is inserted and its own version text moves to the next. |
| Store.SharedMemoryStore.RollbackTransaction | crates/infra/src/store.rs:242-249 | Removes the transaction alone, or reports an unknown handle. |
| Store.SharedMemoryStore.StageDeliverySave | crates/infra/src/store.rs:857-884 | Refuses with a version conflict if and only if the delivery's committed version is missing or not the expected one, and otherwise stages the record at the next version and reports it. |
| Store.SharedMemoryStore.StagePlanSave | crates/infra/src/store.rs:364-414 | Refuses with a version conflict if and only if a version is expected and is not the committed one; checks absence and the single active plan against committed and staged plans, and otherwise reports the version after the committed one. |
| Store.SharedMemoryStore.StageDeadLetterSave | crates/infra/src/store.rs:515-561 | Stages the entry and its linked material, or refuses a second active entry. |
| Store.SharedMemoryStore.StageReplaySave | crates/infra/src/store.rs:574-626 | Stages a preparation unless it, or one with the same approval, exists. |
| Store.SharedMemoryStore.StageFeedback | crates/infra/src/store.rs:759-800 | Stages feedback unless its identifier or its source is taken. |
| Store.SharedMemoryStore.StageAnchor | crates/infra/src/store.rs:642-661 | Stages an anchor unless its scope and key are taken. |
| Store.SharedMemoryStore.StageAuditEntry | crates/infra/src/store.rs:704-717 | Appends to the staged log and reports the next committed number, which is not reserved. |
| Store.SharedMemoryStore.AppendAccessAuditEntry | crates/infra/src/store.rs:720-726 | Appends straight to the committed log and returns the entry's place. |
| Store.SharedMemoryStore.SeedRetryPlan | crates/infra/src/store.rs:333-362 | Seeds a plan at version one and indexes it when scheduled, or refuses a second active plan. |
| Adapters.InMemoryUnitOfWork.Commit | crates/infra/src/uow.rs:46-57 | An armed failure is used up and leaves the transaction staged and unapplied; otherwise the store commits. |
| Adapters.InMemoryAuditTrailRepository.Append | crates/infra/src/repositories.rs:178-188 | An armed failure is used up and stages nothing; otherwise the entry is staged. |
| Adapters.Runtime.RollbackWith | crates/application/src/services/recovery.rs:155-168 | Rolls back and hands the error on; a lost handle replaces it. |
| Adapters.PerformedUndisturbed | crates/infra/src/store.rs:242-249 | No call touches a transaction another call has left open. |
| DeliveryRecords.DeliveryRecord.StartAttempt | crates/domain/src/delivery.rs:156-186 | In place: checks, then counts, names and appends the attempt and dispatches; on error nothing changes. |
| DeliveryRecords.DeliveryRecord.FinishAttempt | crates/domain/src/delivery.rs:120-138 | In place: closes the referenced last attempt only. |
| DeliveryRecords.DeliveryRecord.MarkDelivered | crates/domain/src/delivery.rs:189-216 | In place: only a dispatching delivery with its own finished, successful last attempt. |
| DeliveryRecords.DeliveryRecord.MarkFailed | crates/domain/src/delivery.rs:219-242 | In place: refuses blank reasons, terminal statuses and edges outside the lifecycle. |
| DeliveryRecords.DeliveryRecord.MarkCompleted | crates/domain/src/delivery.rs:284-327 | In place: only acknowledged feedback on the current, successful attempt of a delivered delivery. |
| DeliveryRecords.DeliveryAttempt.Finish | crates/domain/src/delivery.rs:376-393 | In place: once, and not before its start. |
| DeliveryFlows.Dispatch | crates/application/src/services/delivery.rs:127-238 | Starting, recording and settling an attempt step by step on the record does what the flow does to its value. |
| DeliveryFlows.Retry | crates/application/src/services/recovery.rs:406-510 | Rescheduling, starting, asking the backend and settling step by step on the record does what the retry does to its value; what that value is for each answer is `DispatchOutcomes.RetryOutcome`. |
| RecoveryRules.RetryPlanRecord.Attempted | crates/domain/src/recovery.rs:86-103 | In place: spends one attempt of a scheduled plan, or changes nothing. |
| RecoveryRules.RetryPlanRecord.Exhausted | crates/domain/src/recovery.rs:106-116 | In place: exhausts a scheduled plan with no attempts left, or changes nothing. |
| RecoveryRules.ReplayRecord.Ready | crates/domain/src/recovery.rs:298-319 | In place: approves a draft that carries a chain, or changes nothing. |
| PublicationRules.AcceptanceRecord.Accept | crates/domain/src/publication.rs:310-333 | In place: only from pending. |
| PublicationRules.AcceptanceRecord.Reject | crates/domain/src/publication.rs:336-359 | In place: only from pending. |
| RecoveryServices.RecoveryOrchestrationService.RunRetryPlan | crates/application/src/services/recovery.rs:336-545 | On every path, early exits and failing commits included, the committed state is unchanged or overlaid with the call's whole staged set, the transaction ends as specified and no other open transaction changes; when it commits and what then holds is `DispatchOutcomes.RunDecided`. |
| RecoveryServices.RecoveryOrchestrationService.RunRetryCycle | crates/application/src/services/recovery.rs:788-826 | The loop runs the page in order, counts every outcome and returns the last scanned identifier. |
| RecoveryServices.RecoveryOrchestrationService.Request | crates/application/src/services/recovery.rs:558-638 | As for a retry run: whole staged set or nothing, same errors in the same order; see `RecoveryOutcomes.RequestDecided`. |
| RecoveryServices.RecoveryOrchestrationService.Move | crates/application/src/services/recovery.rs:651-775 | As above, for dead-lettering; see `RecoveryOutcomes.MoveDecided`. |
| RecoveryServices.ReplayPreparationService.Prepare | crates/application/src/services/recovery.rs:949-1066 | As above, for replay preparation, with a caller without roles refused and logged outside any transaction; see `RecoveryOutcomes.PrepareDecided`. |
| DeliveryServices.DeliveryProgressionService.ProgressDelivery | crates/application/src/services/delivery.rs:105-289 | As above, for one dispatch with its two audit entries; see `DispatchOutcomes.ProgressDecided`. |
| DeliveryServices.DeliveryProgressionService.ProgressBatch | crates/application/src/services/delivery.rs:300-350 | The loop dispatches the page in order and counts arrivals, skips and failures. |
| FeedbackServices.FeedbackRecordingService.Record | crates/application/src/services/feedback.rs:415-595 | As above, for feedback commands, replays and reused keys; see `ReportOutcomes.FeedbackDecided`. |
| FeedbackServices.FeedbackRecordingService.RecordBackendSignal | crates/application/src/services/feedback.rs:610-845 | As above, for backend signals, unknown deliveries included; the status each answer leads to is `ReportOutcomes.SignalDecided`. |
| FeedbackServices.FeedbackRecordingService.RecordDeliveryTimeout | crates/application/src/services/feedback.rs:858-1082 | As above, for timeouts, unknown deliveries included; see `ReportOutcomes.TimeoutDecided`. |
| IdempotencyServices.BeginConflict | crates/application/src/services/feedback.rs:239-303 | A reused key commits one conflict record and one entry, then refuses. |
| PublicationServices.PublicationAcceptanceService.AcceptCommand | crates/application/src/services/publication.rs:390-480 | As above, for publication commands; a rejection is committed and then reported as an error naming its entry. Which commands are accepted is `PublicationOutcomes.CommandDecided`. |
| PublicationServices.PublicationAcceptanceService.AcceptFromOutboxFact | crates/application/src/services/publication.rs:496-593 | As above, for committed outbox facts; which are accepted is `PublicationOutcomes.FactDecided`. |
| OutboxRelay.OutboxRelayService.Run | crates/application/src/services/outbox.rs:49-113 | The loop accepts and acknowledges the page in order, counts what became of each fact and keeps the cursor when any failed; which facts it acknowledges is `RelaySafety.AcknowledgedOnlyIfDecided` and `RelaySafety.ItemExactly`. |
| OutboxSource.SharedOutboxSource.PollCommitted | crates/infra/src/source.rs:113-156 | The loop returns the pending facts after the cursor up to the limit and a cursor past everything it looked at. |
| OutboxSource.SharedOutboxSource.AckConsumed | crates/infra/src/source.rs:158-180 | Marks the referenced fact alone, or uses up an armed failure. |
| OutboxSource.SharedOutboxSource.SeedCommitted | crates/infra/src/source.rs:43-69 | Appends an unacknowledged fact under its own cursor, or refuses a reference already present. |
| OutboxSource.PositionAfter | crates/infra/src/source.rs:128-137 | A fact's cursor leaves exactly the facts up to it behind. |
| OutboxSource.PositionStable | crates/infra/src/source.rs:128-137 | Seeding and acknowledging do not move a cursor. |
| Publisher.InMemoryOutboxPublisherAdapter.PublishEvent | crates/infra/src/outbox/publisher_memory.rs:138-182 | A known key returns its receipt as a duplicate; else an armed failure is used up and recorded; else event, receipt and evidence appear together. |
| Publisher.InMemoryOutboxPublisherAdapter.PublishAll | crates/infra/src/outbox/publisher_memory.rs:184-195 | The loop publishes in order and stops at the first failure. |
| Jobs.JobSummary.Failed | crates/contracts/src/jobs.rs:74-76 | The subtraction never underflows and yields exactly the failed items. |
| Jobs.CountsAddUp | crates/contracts/src/jobs.rs:52-66 | Every scanned item is counted once. |

## Left out

- Interleaving.InterleavingIsSerial: assumes that no commit overlaps what another open transaction has staged; commits do not repeat the staging checks, so overlapping interleavings are covered only by the counterexample `OverlapIsNotSerial` and by `AuditsAppendOnly`.
- Projections.VersionsCountUpserts: stated below the 64-bit limit, where the source's increment would overflow.
- AuditPages.PagesJoin: assumes logs shorter than 2^64 entries, which a 64-bit index cannot exceed.
- Jobs.JobSummary.Failed: counters are natural numbers; the source's 32-bit counters would overflow past four thousand million items.
- BatchEffects.SchedulableScan: does not claim that following cursors revisits every scheduled delivery; the wrap test looks at all deliveries, not only scheduled ones.
- Idempotency scopes and canonical request bytes: the JSON text behind a digest is an input of the model, so equal requests are requests with equal bytes.
- Contents of abandoned transactions: a call that leaves its transaction open is specified to leave it under its handle, not what it had staged.
- Domain operations no service calls: plan cancellation, dead-letter review and closing, replay rejection and superseding, failure material from feedback or dead letters.
- Seeding of dead letters and of projections, and the read-only lookups that return a stored record as it is.
- Read services, authorization, access audits of reads, and the ordering of feedback pages by observation time.
- Outbound event validation and the tap output derived from the published sink.
- The backend adapter's own availability and failure tables: its answers are inputs of a dispatch or a signal.
- Actor, trace and transport details carry no behaviour and are opaque values; the relay's dry-run flag is ignored by the code.
- Concurrency inside one store operation: each locked method is one atomic step.
