# Verification of the committee platform's durable protocols

This project models five parts of the system and proves what they guarantee over every run.

**The durable anchor protocol** (`Anchor*`, `Outbox`, `VerusJobs`, `Repositories`). Workers claim outbox events under
leases and drive a persisted job from `pending` to `verified`. `AnchorProtocol` is a state machine whose moves interleave any
number of workers, one transaction, node reply or local decision at a time, with clock ticks, enqueues and crashes.
`AnchorInvariant` and `AnchorPreservation` give and keep its invariant, `AnchorEffects` and `AnchorEvents` list what a move
can do to a job and to an event, and `AnchorTheorems`, `AnchorSubmissions`, `AnchorTargets`, `AnchorProgress`,
`AnchorOutcomes` and `AnchorStranded` draw the consequences. `Repositories` holds the two repositories as classes that update
the tables in place, and `AnchorWorker` the worker program itself, proved to be one of the machine's workers. A ghost account (`Tally`) sorts every `updateIdentity` call of a job into exactly one class.

**Canonical content and readback** (`Texts`, `Json*`, `Canonical*`, `PayloadPolicies`, `Encodings`, `ReadbackTheorems`,
`Confirmation`). Strings are sequences of UTF-16 code units; the printer and the parser cover the JSON grammar with escapes,
white space, number tokens and repeated keys, and `JsonGrammar` states that grammar by itself; UTF-8 and base 16 are written
out. NFC normalization, number printing, SHA-256 and the list of private field names are parameters (`Primitives`). What is
assumed of them (`Sound`): normalization is idempotent; a finite number prints as a JSON number that reads back as a finite
number with the same print. `Confirmation` checks a transaction against a node whose chain may be reorganized between any two
calls.

**The attestation registry** (`Registry*`, `AttestationStatus`). One committee's requests, attestations, statuses,
revocations, idempotency records, audit log and outbox under six kinds of command, with the unique indexes of the schema.

**The wallet link** (`ResultStore`, `StoreHistory`, `Relay*`, `WalletLink*`). The hosted relay's store and routes, the local
repository, and poll requests that run between them.

**Rate limits and sessions** (`RateLimits`, `Sessions`).

Transactions are atomic steps, as the repositories run all of them serializably
(packages/db/src/repository-types.ts:54-74). Classes carry the imperative form; each of their methods is proved equal to a
specification function, and the theorems are about those functions and the runs built from them.

## Where the code and its documentation differ

- Resubmission. docs/ARCHITECTURE.md:439-443 promises that ambiguous submissions are never resubmitted automatically.
  `UnblockedExactly` gives the guard of the moves that allow it, in terms of the state before the move: a live claim is
  about to commit a retryable failure that is not itself ambiguous. `BlockedThroughoutExactly` is the same for whole runs.
  `ClearedAmbiguityResubmits`, `CrashResubmits` and `StaleWorkerResubmits` are runs for the three terms of the bound.
- Round trip. Keys are sorted before they are normalized, so a canonical text need not be canonical.
  `RoundTripExactly` gives the exact condition, `ReorderedKeysBreakTheRoundTrip` an instance.
- Status. The SQL function joins only an active successor, unlike packages/domain/src/attestation.ts:61-80.
  `SqlDiffersExactly` gives the exact condition, `RevivedAttestation` an instance.
- Attested again. docs/PRD.md:147 describes a participant who renews and recovers, and docs/PRD.md:347 requires support
  for recovery after compromise and for correction. The unique index on participant and version, together with the rule
  that a renewal's predecessor is active, excludes some participants for ever. `ExcludedExactly` gives the exact condition
  on their rows and the time; `ExcludedByRevocation`, `ExcludedByMissedActivation` and `ExcludedByMissedRenewal` reach it
  in three ways.
- Repetitions. Commands carry idempotency keys, but a failed call leaves no record, so that its repetition is a new attempt
  (`FailedCallsRunAgain`). `ChangesExactly` says which repetitions change something.
- Dead letters. docs/runbooks/verus-worker.md:52-54 says that an ambiguous job without evidence is eventually
  dead-lettered. A crash between the event's dead letter and the job's leaves the job `retryable_failed` for ever:
  `CrashStrandsJob` is such a run, and `DeadLetterRepairedExactly` gives the exact condition under which the job can still
  be closed. Dead-lettering also moves `reorg_pending` to `terminal_failed`, a transition that
  packages/domain/src/verus-job.ts does not name (`GuardsNeverFire`; `ReorganizedDeadLetter` is a run with that step).

## Model

| member | source | states |
|---|---|---|
| `AnchorSubmissions.SubmissionBound` | apps/worker/src/verus-worker.ts:304-354 | over every schedule of workers, crashes, clock and node replies, the `updateIdentity` calls of a job are accounted for one by one and number at most 1 + lost + plainly rejected + cleared; at most 1 + lost + cleared were accepted by the node |
| `AnchorSubmissions.NoResubmission` | docs/ARCHITECTURE.md:439-443 | the promise that known or ambiguous submissions are not resubmitted, for every run in which no move commits an unflagged retryable failure over an ambiguous submission (`Unblocks`): no later claim can call, and every further call comes from a superseded worker and is counted as lost |
| `AnchorSubmissions.UnblockedExactly` | packages/db/src/verus-job-repository.ts:448-448 | a move makes a blocked ambiguous job submittable if and only if, before the move, a worker under a live claim stands before committing a retryable failure that is not ambiguous, and the job is in a working state; exactly these moves are counted as clears |
| `AnchorSubmissions.BlockedThroughoutExactly` | apps/worker/src/verus-worker.ts:335-362 | over any run a known or ambiguous submission stays blocked at every point if and only if the run has no such move |
| `AnchorExamples.ClearedAmbiguityResubmits` | apps/worker/src/verus-worker.ts:335-362 | concrete run: timeout (ambiguous), then an unsynced node, then a second accepted call, with nothing lost and nothing rejected |
| `AnchorExamples.CrashResubmits` | apps/worker/src/verus-worker.ts:322-331 | concrete run: a crash between the node's acceptance and `recordSubmission` leads to a second accepted call with no flag ever cleared |
| `AnchorExamples.StaleWorkerResubmits` | apps/worker/src/verus-worker.ts:254-332 | concrete run: a worker that stalls before its call submits although another worker has already recorded the transaction id |
| `AnchorTheorems.JointStates` | apps/worker/src/verus-worker.ts:162-243 | in every reachable state, crashes at any await included, the joint table of outbox state and job state holds |
| `AnchorTheorems.EvidenceComplete` | packages/db/src/verus-job-repository.ts:413-503 | a verified job has transaction id, block height, block hash and a readback digest equal to its manifest digest; the anchor row repeats the job's evidence, and its state outside `claimed` and `preflight` |
| `AnchorTheorems.TransactionIdStable` | packages/db/src/verus-job-repository.ts:427-460 | once written, a transaction id is never changed by any later run, reorganizations and retries included |
| `AnchorTheorems.LedgerConserved` | packages/db/src/outbox-repository.ts:354-371 | an event with n claims has exactly one attempt row for each of 1..n (1..n-1 while claimed), and a succeeded row exactly when it succeeded, and then only one |
| `AnchorTheorems.ClaimsBounded` | packages/db/src/outbox-repository.ts:100-139 | claims of an event never exceed the retry budget plus its expired leases |
| `AnchorTheorems.OnlyLatestClaimWrites` | packages/db/src/verus-job-repository.ts:505-518 | every committed completion, failure, heartbeat or job transition belongs to the latest claim of its event, under a live lease or as the owner of its dead letter |
| `AnchorTheorems.Inert` | packages/db/src/outbox-repository.ts:327-352 | a worker without live lease or dead letter changes no row of the event |
| `AnchorTheorems.AlwaysSingleWriter` | packages/db/src/outbox-repository.ts:84-105 | at every instant of every run at most one event per type and aggregate holds a live lease |
| `AnchorTargets.OneWriterPerIdentity` | packages/db/src/verus-job-repository.ts:158-162 | at every instant of every run, two events under live leases have jobs for different target identities |
| `AnchorTargets.AlwaysFiled` | packages/db/src/verus-job-repository.ts:144-219 | in every reachable state each event has the anchor type and is filed under the identity that its job writes |
| `AnchorTargets.EnqueueExactly` | packages/db/src/verus-job-repository.ts:123-219 | a new key inserts a pending event under its job's identity, due at once, with empty ledger, and the job's and anchor's first rows; a known key changes nothing and is answered exactly for the same digest, identity and key |
| `AnchorEvents.ClaimedExactly` | packages/db/src/outbox-repository.ts:71-166 | in every reachable state, the attempt count grows exactly by the claims of an idle worker on an event that is due and whose identity is free; the claimer gets a lease of the configured length, and an expired attempt is logged for its owner |
| `AnchorEvents.ActOnEvent` | packages/db/src/outbox-repository.ts:185-325 | a worker changes an event and its ledger only under its live lease, and then exactly as its stage says: heartbeat, success, retry, dead letter or terminal failure, with times, error and attempt row |
| `AnchorEvents.LeaseProtects` | packages/db/src/outbox-repository.ts:327-352 | after a claim or a heartbeat the worker owns the event for the configured time, whatever all others do |
| `AnchorEvents.RetryNotBeforeBackoff` | packages/db/src/outbox-repository.ts:261-283 | over every run, a failed attempt is not claimed again before the backoff of its number is over |
| `AnchorEvents.AlwaysChronicled` | packages/db/src/outbox-repository.ts:354-371 | in every reachable state attempts do not overlap in time, carry an error unless they succeeded, and a final event repeats the end and the error of its last attempt |
| `AnchorOutcomes.VerifiedWhenUndisturbed` | apps/worker/src/verus-worker.ts:142-333 | from every reachable state: an unfinished event that is due is verified by the moves of one undisturbed worker whose questions are answered well, under the transaction id it already has, or else the new one |
| `AnchorOutcomes.ErrorOutcome` | apps/worker/src/verus-worker.ts:335-385 | from every reachable state: each answer that is an error leads an undisturbed worker to a retry after its backoff, to a dead letter of event and job, or to terminal failure of both, with the error's class and ambiguity flag |
| `AnchorOutcomes.ReorganizationOutcome` | apps/worker/src/verus-worker.ts:196-200 | a reorganization leads to `reorg_pending` and a retry, or to the dead letter of event and job |
| `AnchorTheorems.NothingStuck` | packages/db/src/outbox-repository.ts:84-105 | once time has passed every stored deadline, an event can be claimed if and only if it is not final |
| `AnchorTheorems.GuardsNeverFire` | packages/db/prisma/migrations/20260808030000_issue_18_verus_worker/migration.sql:57-75 | no step commits a job transition that the schema's trigger rejects; all are transitions of the domain, except dead-lettering a reorganized job |
| `AnchorStranded.ReorganizedDeadLetter` | packages/db/src/verus-job-repository.ts:348-396 | concrete run in which that exception happens: submitted, confirming, reorganized, then dead-lettered |
| `AnchorTheorems.AnchorGuardNeverFires` | packages/db/prisma/migrations/20260808030000_issue_18_verus_worker/migration.sql:77-93 | no step writes an anchor row in a way that the schema's trigger on its state rejects |
| `AnchorPreservation.RunKeeps` | apps/worker/src/verus-worker.ts:142-394 | the joint invariant of outbox, ledger, jobs, anchors, workers and call accounts is kept by every run |
| `AnchorEffects.NextEffect` | apps/worker/src/verus-worker.ts:162-385 | every move changes every job row and its call account in one of seven listed ways |
| `AnchorProgress.LiveClaimServed` | packages/db/src/verus-job-repository.ts:413-472 | under a live claim, in every reachable state, a repository call conflicts exactly when its evidence is malformed: no re-run after a crash ends in a forbidden transition |
| `AnchorProgress.DeadLetterServed` | packages/db/src/verus-job-repository.ts:348-396 | the worker that exhausted the budget can always record the job's dead letter, however late |
| `AnchorProgress.DeadLetterOwnerExactly` | packages/db/src/verus-job-repository.ts:348-375 | a dead letter belongs to exactly one worker, the one whose attempt is the last in the ledger |
| `AnchorStranded.DeadLetterStranded` | apps/worker/src/verus-worker.ts:369-385 | a dead-lettered event with no worker before its job's dead letter keeps all four rows as they are over every later run |
| `AnchorStranded.DeadLetterRepairedExactly` | apps/worker/src/verus-worker.ts:369-385 | the unfinished job of a dead-lettered event is closed by some later run if and only if a worker stands before recording just that |
| `AnchorStranded.CrashStrandsJob` | apps/worker/src/verus-worker.ts:369-385 | concrete run of ten moves: the worker crashes between the two transactions, and over every later run the job stays `retryable_failed` |
| `Outbox.DelayBoundedAndMonotone` | packages/db/src/outbox-repository.ts:261-267 | backoff delays lie between base and maximum and never shrink |
| `Outbox.TotalDelayClosedForm` | packages/db/src/outbox-repository.ts:261-267 | the delays of n failures add up to a geometric sum below the cap and a multiple of the cap above it |
| `Repositories.OutboxRepository.ClaimNext` | packages/db/src/outbox-repository.ts:71-166 | claims the first unlocked claimable event in queue order, closes an expired attempt first, and leaves exactly the specified tables; nothing claimable means nothing changed |
| `Repositories.OutboxRepository.Heartbeat` | packages/db/src/outbox-repository.ts:185-211 | extends the lease of the live owner, or conflicts without a change |
| `Repositories.OutboxRepository.Succeed` | packages/db/src/outbox-repository.ts:213-240 | one succeeded attempt row and a released, succeeded event, or a conflict without a change |
| `Repositories.OutboxRepository.FailRetryable` | packages/db/src/outbox-repository.ts:242-284 | failed attempt, backoff or dead letter exactly as specified |
| `Repositories.OutboxRepository.FailTerminal` | packages/db/src/outbox-repository.ts:286-325 | failed attempt and terminal event exactly as specified |
| `Repositories.VerusJobRepository.Transition` | packages/db/src/verus-job-repository.ts:413-472 | lease, state and evidence checks, COALESCE updates of job and anchor, or a conflict without a change |
| `Repositories.VerusJobRepository.MarkDeadLetter` | packages/db/src/verus-job-repository.ts:348-396 | only for the attempt that exhausted the event, from the two failed states, on job and anchor together |
| `Repositories.VerusJobRepository.EnqueueAnchor` | packages/db/src/verus-job-repository.ts:123-219 | replays an idempotency key for the same work, conflicts for other work, and otherwise inserts event, job and anchor |
| `AnchorWorker.VerusAnchorWorker.ProcessNext` | apps/worker/src/verus-worker.ts:142-243 | the program, interleaved with arbitrary moves of others and with crashes, only ever extends a run of the state machine; its first own move is a crash, or the claim of the first claimable event that nobody has locked, and it answers `idle` exactly if there is none; an exception means a crash of its own, which reliable workers do not have, or a refused step of its own; every other result names the state in which event and job are left |
| `AnchorWorker.VerusAnchorWorker.PreflightAndSubmit` | apps/worker/src/verus-worker.ts:245-333 | heartbeat, local guards, node preflight, readback search or call, and the recorded submission, as moves of the machine; it is cut short only by a crash or a refused step |
| `AnchorWorker.VerusAnchorWorker.HandleFailure` | apps/worker/src/verus-worker.ts:335-362 | job and event fail together, retryably or for good, as moves of the machine, unless the worker crashes or a step is refused |
| `JsonRoundTrip.ParsePrint` | packages/verus/src/canonical-content.ts:117-138 | JSON.parse inverts the printer on syntax trees of any depth (RFC 8259) |
| `JsonRoundTrip.ParsePrintParse` | packages/verus/src/reconciliation.ts:127-130 | for every text that parses, with white space, long escapes or repeated keys: the tree is printable, and its print parses to the same tree |
| `JsonLanguage.ParsesExactly` | packages/verus/src/reconciliation.ts:127-130 | the parser accepts exactly the texts of the grammar of RFC 8259 (white space, numbers, escapes, nesting) and returns the tree that the grammar assigns |
| `JsonRoundTrip.CharsRoundTrip` | packages/verus/src/canonical-content.ts:130-135 | reading an escaped string gives the string back, lone surrogates included (section 7 of RFC 8259) |
| `CanonicalTexts.LessExactly` | packages/verus/src/canonical-content.ts:132-134 | strings are ordered by their first differing UTF-16 code unit, a proper prefix first |
| `CanonicalTexts.ObjectText` | packages/verus/src/canonical-content.ts:132-137 | the canonical text of every object lists exactly its keys, in strictly ascending order of the source keys, each in normal form before the canonical text of its value |
| `CanonicalTexts.ValueText` | packages/verus/src/canonical-content.ts:117-131 | the canonical text of every other kind of value, with the words and brackets of RFC 8259 |
| `CanonicalTexts.UnitText` | packages/verus/src/canonical-content.ts:130-130 | how each code unit is written inside a string (section 7 of RFC 8259, lone surrogates escaped) |
| `CanonicalTexts.StringText` | packages/verus/src/canonical-content.ts:130-130 | strings are quoted and written unit by unit, surrogate pairs as they are |
| `CanonicalTexts.LastValueWins` | packages/verus/src/reconciliation.ts:129-129 | a parsed object has each key of its text once, with its last value |
| `CanonicalTheorems.SameTextExactly` | packages/verus/src/canonical-content.ts:117-138 | two values with normal keys have equal canonical texts if and only if they are equal up to key order and normal form |
| `CanonicalTheorems.EquivalentSameText` | packages/verus/src/canonical-content.ts:117-138 | values equal up to key order and normal form always have the same canonical text, whatever their keys |
| `CanonicalRoundTrip.RoundTripExactly` | packages/verus/src/canonical-content.ts:132-137 | for every value, the canonical text parses, and canonicalizing the result gives the same text if and only if normalization keeps the order of the keys in every object |
| `CanonicalRoundTrip.RoundTripOfNfcKeys` | packages/verus/src/reconciliation.ts:122-135 | with keys already in normal form the round trip always holds |
| `CanonicalRoundTrip.ReorderedKeysBreakTheRoundTrip` | packages/verus/src/canonical-content.ts:132-137 | the keys U+0100 and U+212B: a canonical text that is not its own canonical text |
| `CanonicalRoundTrip.CanonicalParses` | packages/verus/src/reconciliation.ts:122-135 | a canonical text always parses, to a value without infinite numbers |
| `Encodings.DecodeEncode` | packages/verus/src/reconciliation.ts:127-128 | UTF-8 decoding inverts encoding on texts without lone surrogates |
| `Encodings.EncodeDecode` | packages/verus/src/reconciliation.ts:127-128 | accepted bytes are determined by their text: a fatal decoder accepts only shortest forms |
| `Encodings.HexRoundTrip` | packages/verus/src/canonical-content.ts:105-105 | base 16 of section 8 of RFC 4648: decoding inverts encoding |
| `PayloadPolicies.Utf8Samples` | packages/verus/src/canonical-content.ts:75-75 | the examples of section 7 of RFC 3629, and U+FFFD for a lone surrogate |
| `PayloadPolicies.HexSample` | packages/verus/src/canonical-content.ts:105-105 | the example of section 10 of RFC 4648, in lower case |
| `PayloadPolicies.PreparedExactly` | packages/verus/src/canonical-content.ts:50-89 | a payload is prepared exactly if its limit is valid, its top-level keys obey the policy, no key at any depth is forbidden, at most 32 levels are nested, its numbers are finite, and its bytes fit; each rejection has its exact reason |
| `PayloadPolicies.EnqueueAcceptsExactly` | packages/db/src/verus-job-repository.ts:636-679 | the checks at enqueue in the same terms, with the limit of one mebibyte |
| `PayloadPolicies.VdxfKeyExactly` | packages/verus/src/canonical-content.ts:96-102 | accepted keys are an `i` and 20 to 63 base-58 characters |
| `ReadbackTheorems.WrittenIsVerifiedExactly` | packages/verus/src/canonical-content.ts:91-115 | what `prepareIdentityContentUpdate` writes is reported verified for its digest if and only if normalization keeps the order of the payload's keys; other keys' entries are untouched |
| `ReadbackTheorems.AcceptedBytesExactly` | packages/verus/src/reconciliation.ts:122-135 | readback accepts exactly the encodings of canonical texts, with or without a byte order mark |
| `ReadbackTheorems.PreparationIgnoresOrder` | packages/verus/src/canonical-content.ts:50-89 | any reordering of members, at any depth, gives the same payload or the same rejection |
| `ReadbackTheorems.WorkerAcceptsExactly` | apps/worker/src/verus-worker.ts:266-281 | a manifest accepted at enqueue passes the worker's check, in whatever order the database returns it, if and only if the stored text is the manifest's canonical text |
| `ReadbackTheorems.PreparedManifestAccepted` | packages/db/src/verus-job-repository.ts:636-679 | a job whose text was prepared from a value with stable keys never fails the worker's check |
| `ReadbackTheorems.PrintWellFormed` | packages/verus/src/canonical-content.ts:130-135 | canonical texts have no lone surrogate, so their bytes lose nothing |
| `Confirmation.ConfirmedIsCanonical` | packages/verus/src/reconciliation.ts:30-70 | even if the chain is reorganized between the three calls, a confirmed transaction is in the reported block, which had the required depth when read and is on the active chain at its height at the last call |
| `Confirmation.StableChainExactly` | packages/verus/src/reconciliation.ts:30-70 | on an unchanging chain the result is confirmed if and only if the active chain includes the transaction at the required depth, and a reorganization only if the node reports a negative count |
| `RegistryTheorems.OneActive` | packages/db/src/attestation-repository.ts:309-358 | in every reachable registry a participant, hence a renewal chain, has at most one active attestation |
| `RegistryTheorems.SupersededExactly` | packages/db/src/attestation-repository.ts:326-358 | an attestation is superseded exactly when a renewal of it has been activated, and it has at most one renewal |
| `RegistryTheorems.VersionIsDepth` | packages/db/src/attestation-repository.ts:130-155 | the version is the depth in the renewal chain |
| `RegistryTheorems.AlwaysLockstep` | packages/db/src/attestation-repository.ts:386-409 | attestation, status and request rows carry the same state, and no request has two attestations |
| `RegistryPreservation.IssueIsFresh` | packages/db/prisma/migrations/20260807050000_issue_16_domain_core_complete/migration.sql:704-716 | one attestation per request follows from the unique indexes on versions and on superseded attestations |
| `RegistryTheorems.VersionCountsChanges` | packages/db/src/verification-repository.ts:313-349 | a request's version is 1 plus the number of its state changes, its attestation's included |
| `RegistryTheorems.AuditReplaysAttestation` | packages/db/src/audit.ts:20-57 | folding an attestation's audit events, each prior state checked against the previous new one, gives its stored state, and its request's; the status version counts the changes |
| `RegistryTheorems.AuditReplaysRequest` | packages/db/src/audit.ts:20-57 | the same for a request without attestation |
| `RegistryTheorems.IssuedRequestsWereApproved` | packages/domain/src/verification.ts:35-101 | every attestation's request was scheduled, checked in, reviewed, approved and sent to issuance, in that order, right before it was issued |
| `RegistryCommands.RequestStateExactly` | packages/domain/src/verification.ts:35-133 | in every reachable registry, for each of the fourteen states of a request without attestation: it is in that state if and only if the last event of its history is one of the state's own commands, from the state that the command starts from |
| `RegistryCommands.AttestationStateExactly` | packages/db/src/attestation-repository.ts:216-384 | the same for the five states of an attestation, with its status |
| `RegistryCommands.FirstAnswer` | packages/db/src/verification-repository.ts:286-359 | the first successful answer has the state and version of the stored row, and its command is the one new event of the row's history and the last published event |
| `RegistryCommands.AlwaysMirrored` | packages/db/src/verification-repository.ts:330-349 | the outbox repeats kind, reference and new state of every audit event, in the same order |
| `RegistryOutcomes.OutcomeExactly` | packages/db/src/attestation-repository.ts:93-384 | in every reachable registry, when each of the six commands succeeds under a new key, and with which error it is refused otherwise, in terms of single rows, states, times and expected versions |
| `RegistryOutcomes.NoLostUpdate` | packages/db/src/verification-repository.ts:305-320 | over every run, of two executed commands on one request or attestation the later one expected a later version |
| `RegistryExclusion.ExcludedExactly` | packages/db/src/attestation-repository.ts:130-181 | in every state and at every time from its last command on: no later run, of commands that observe no earlier time, ever gives a known participant an attestation with status active if and only if the participant has attestations and each one is ended, or issued with its window passed or its predecessor no longer active, or active past its expiry with its only renewal used up |
| `RegistryExclusion.ExcludedForEver` | packages/db/src/attestation-repository.ts:140-181 | an excluded participant stays excluded over every such run: no attestation is added, none becomes active, and rows change only by an active one's expiry or revocation |
| `RegistryExclusion.LapsedForEver` | packages/db/src/attestation-repository.ts:140-181 | with all attestations ended, or issued behind an ended predecessor, the same for runs with any observation times: every row stays as it is |
| `RegistryExclusion.ExcludedByRevocation` | packages/db/src/attestation-repository.ts:216-273 | concrete run: one attestation, revoked; excluded at every time |
| `RegistryExclusion.ExcludedByMissedActivation` | packages/db/src/attestation-repository.ts:309-358 | concrete run: one attestation issued for [0, 100) and not activated; excluded at exactly the times from 100 on |
| `RegistryExclusion.ExcludedByMissedRenewal` | packages/db/src/attestation-repository.ts:140-181 | concrete run: an active attestation over [0, 100) with a renewal for [10, 110) that is not activated; excluded at exactly the times from 110 on, although the row still says active |
| `RegistryPreservation.RunKeeps` | packages/db/src/attestation-repository.ts:93-409 | lockstep, histories and renewal chains are kept by every sequence of commands |
| `RegistryPreservation.ActivationIsRenewal` | packages/db/src/attestation-repository.ts:326-358 | activation with a predecessor, statement by statement, is the joint move of both attestations |
| `RegistryIdempotency.ReplayRepeatsFirstResult` | packages/db/src/attestation-repository.ts:481-576 | a repeated successful command changes no table and returns the first reference, state and version, whatever ran in between |
| `RegistryIdempotency.RecordedExactly` | packages/db/src/attestation-repository.ts:481-542 | over every run, an idempotency key is on record if and only if a call under it has succeeded (or it was there at the start) |
| `RegistryIdempotency.ChangesExactly` | packages/db/src/attestation-repository.ts:481-542 | after every run, a call changes the tables, audit log and outbox, if and only if no call under its key has succeeded and its command applies to the tables as they now are: exactly the repetitions that run again |
| `RegistryIdempotency.RepetitionsChangeNothing` | packages/db/src/verification-repository.ts:286-359 | leaving out any calls whose key has succeeded before gives the same tables, audit log and outbox |
| `RegistryIdempotency.FailedCallsRunAgain` | packages/db/src/verification-repository.ts:399-461 | a failed call leaves no record: concrete run in which its repetition succeeds |
| `AttestationStatus.StatusAgrees` | packages/domain/src/attestation.ts:61-80 | from the last command on, the status computed from times is the stored state, issued read as unavailable and active past expiry as expired |
| `AttestationStatus.OneActiveStatus` | packages/domain/src/attestation.ts:61-80 | from the last command on, at most one attestation of a participant has the status active |
| `AttestationStatus.ActiveInterval` | packages/domain/src/attestation.ts:20-80 | an attestation's active times form one interval of less than 45 days inside its validity window |
| `AttestationStatus.SqlDiffersExactly` | packages/db/prisma/migrations/20260807050000_issue_16_domain_core_complete/migration.sql:1204-1217 | the SQL status differs exactly for a superseded attestation whose renewal is no longer active, which it reports as active again until its expiry |
| `RegistryExamples.RevivedAttestation` | packages/db/prisma/migrations/20260807050000_issue_16_domain_core_complete/migration.sql:1204-1217 | a concrete history in which that happens |
| `RegistryRepositories.VerificationRepository.CreateRequest` | packages/db/src/verification-repository.ts:92-151 | the transaction leaves exactly the specified tables and result |
| `RegistryRepositories.VerificationRepository.TransitionRequest` | packages/db/src/verification-repository.ts:286-359 | the transaction leaves exactly the specified tables and result |
| `RegistryRepositories.AttestationRepository.IssueAttestation` | packages/db/src/attestation-repository.ts:93-206 | the transaction leaves exactly the specified tables and result |
| `RegistryRepositories.AttestationRepository.ActivateAttestation` | packages/db/src/attestation-repository.ts:290-384 | the transaction leaves exactly the specified tables and result, and rolls back when the predecessor is not active |
| `RegistryRepositories.AttestationRepository.ExpireAttestation` | packages/db/src/attestation-repository.ts:290-384 | the transaction leaves exactly the specified tables and result |
| `RegistryRepositories.AttestationRepository.RevokeAttestation` | packages/db/src/attestation-repository.ts:216-273 | the transaction leaves exactly the specified tables and result |
| `RegistryRepositories.AttestationRepository.UpdateAttestationAndRequest` | packages/db/src/attestation-repository.ts:386-409 | three row updates move attestation, status and request together |
| `RegistryRepositories.Pool.BeginIdempotency` | packages/db/src/attestation-repository.ts:481-542 | a new key is new; a known one is answered by its record, or refused for another digest, command or reference |
| `ResultStore.SweepingIsInvisible` | services/verusid/src/store.js:19-68 | on a clock that does not run backwards, sweeping before each operation gives the same replies for ever as a map that only checks deadlines |
| `StoreHistory.RepliesExactly` | services/verusid/src/store.js:19-55 | each operation succeeds exactly under its condition on live entries, answers accordingly, and changes nothing else |
| `StoreHistory.FoundUntilExpired` | services/verusid/src/store.js:26-45 | over every sequence of operations, a challenge is found again until it expires unless its result is acknowledged, and so is a result |
| `ResultStore.MemoryStore.Cleanup` | services/verusid/src/store.js:57-68 | three deleting loops leave exactly the entries whose deadline has not passed |
| `ResultStore.MemoryStore.Create` | services/verusid/src/store.js:19-24 | one operation of the swept store |
| `ResultStore.MemoryStore.FindChallenge` | services/verusid/src/store.js:26-29 | one operation of the swept store: the live challenge, if any |
| `ResultStore.MemoryStore.Put` | services/verusid/src/store.js:31-40 | one operation of the swept store |
| `ResultStore.MemoryStore.FindResult` | services/verusid/src/store.js:42-45 | one operation of the swept store: the live result, if any |
| `ResultStore.MemoryStore.Ack` | services/verusid/src/store.js:47-55 | one operation of the swept store |
| `RelayProtocol.ResultsAreBacked` | services/verusid/src/app.js:172-207 | with tokens minted by the callback route, every live result has a live challenge that expires no earlier, however the routes interleave |
| `RelayOutcomes.OpenExactly` | services/verusid/src/app.js:78-124 | a challenge is stored exactly if it was issued within a minute of its validation, runs no longer than the configured lifetime, and its identifier is free |
| `RelayOutcomes.DeliverExactly` | services/verusid/src/app.js:126-210 | a result is stored exactly for a challenge that its callback has read, that is still live and not acknowledged, with a whole second left; it runs out after the token lifetime or with the challenge |
| `RelayOutcomes.AcknowledgeExactly` | services/verusid/src/app.js:232-245 | an acknowledgement counts exactly with the live result's digest, removes challenge and result, and leaves a tombstone for ten minutes |
| `RelayProtocol.ResultsAreStable` | services/verusid/src/store.js:31-55 | a stored result stays as it is until it is acknowledged with its digest, or expires |
| `RelayProtocol.NoResultAfterAcknowledgement` | services/verusid/src/app.js:241-241 | after an acknowledgement no result for that identifier is stored until the tombstone ends, even by callbacks that read the challenge before |
| `RelayProtocol.MintedTokensVerify` | packages/verus-linking/src/hosted-auth-client.ts:312-334 | every token minted for an accepted challenge passes all time checks of a client at most 60 s behind, at any time before it expires (sections 4.1.4 and 4.1.6 of RFC 7519) |
| `RelayProtocol.RejectedExactly` | packages/verus-linking/src/hosted-auth-client.ts:312-334 | an unexpired minted token is rejected if and only if the client is more than 60 whole seconds behind |
| `RelayProtocol.AcceptedTokensInsideWindow` | packages/verus-linking/src/hosted-auth-client.ts:312-334 | every accepted token lies inside the challenge window widened by 60 s, to the whole second |
| `WalletLinkProtocol.AcknowledgedOnlyAfterConsumption` | packages/verus-linking/src/service.ts:276-316 | for every interleaving of polls, cancels, expiries and crashes, an acknowledgement is sent only for a challenge durably consumed with that digest; a result the relay has dropped has its link stored |
| `WalletLinkProtocol.EachChallengeOnce` | packages/db/src/verus-link-repository.ts:191-347 | each challenge activates a link at most once, and exactly the consumed challenges have |
| `WalletLinkProtocol.OnlyAFreshChallengeActivates` | packages/db/src/verus-link-repository.ts:241-330 | a link becomes active only in the step that consumes a presented challenge of the same account for that identity |
| `WalletLinkProtocol.UnlinkedUntilFreshProof` | packages/db/src/verus-link-repository.ts:456-494 | an unlinked identity stays so over every run unless a challenge is newly consumed for it |
| `WalletLinkEffects.UnlinkTakesEffect` | packages/db/src/verus-link-repository.ts:456-494 | unlinking ends exactly a link that is not unlinked yet, which keeps its proof under a new version; nothing else changes, a second unlink is refused, and over every later run the link is active only by a challenge not consumed by then |
| `WalletLinkEffects.RevalidationTakesEffect` | packages/db/src/verus-link-repository.ts:496-527 | after it no link of the identity is active, exactly its active links have moved, and over every later run each is active only by a challenge not consumed by then |
| `WalletLinkEffects.CompletionTakesEffect` | packages/db/src/verus-link-repository.ts:191-347 | before its deadline a presented challenge is consumed and its link becomes active with the digest as proof; from the deadline on it expires and no link changes |
| `WalletLinkEffects.PollCompletes` | packages/verus-linking/src/service.ts:223-303 | from every state with a presented challenge and a live result, an undisturbed poll activates the link of the result's identity, consumes the challenge and has the relay drop the result |
| `WalletLinkEffects.CancelExactly` | packages/db/src/verus-link-repository.ts:404-454 | which cancellations are accepted, and what they leave |
| `WalletLinkEffects.CreateExactly` | packages/db/src/verus-link-repository.ts:119-174 | a challenge is created presented and without proof, once per identifier, with a deadline after its issue |
| `WalletLinkEffects.PollExactly` | packages/db/src/verus-link-repository.ts:349-402 | a poll answers the account's own challenge only, expired if it is due |
| `WalletLinkEffects.AlwaysProved` | packages/db/src/verus-link-repository.ts:241-330 | in every reachable state each link's proof is the digest of a challenge consumed for its account and identity |
| `WalletLinkEffects.EndedForEver` | packages/db/src/verus-link-repository.ts:191-454 | consumed, expired and cancelled challenges never change again |
| `WalletLinkProtocol.ReplayedCompletionsChangeNothing` | packages/db/src/verus-link-repository.ts:208-228 | after the first completion no completion of the challenge ever changes a row: a replay if digest and identity match, a conflict otherwise |
| `WalletLinks.VerusLinkRepository.Complete` | packages/db/src/verus-link-repository.ts:191-347 | the transaction leaves exactly the specified rows and outcome |
| `WalletLinks.VerusLinkRepository.Create` | packages/db/src/verus-link-repository.ts:119-174 | the transaction leaves exactly the specified rows, or refuses without a change |
| `WalletLinks.VerusLinkRepository.Poll` | packages/db/src/verus-link-repository.ts:349-402 | expires a due challenge and answers its state, and leaves exactly the specified rows |
| `WalletLinks.VerusLinkRepository.Cancel` | packages/db/src/verus-link-repository.ts:404-454 | the transaction leaves exactly the specified rows, or refuses without a change |
| `WalletLinks.VerusLinkRepository.UnlinkIdentity` | packages/db/src/verus-link-repository.ts:456-494 | an existing link that is not unlinked becomes so under a new version; otherwise a conflict without a change |
| `WalletLinks.VerusLinkRepository.Revalidate` | packages/db/src/verus-link-repository.ts:496-527 | the loop puts exactly the identity's active links into revalidation, and counts them |
| `WalletLinkService.WalletLinkService.Poll` | packages/verus-linking/src/service.ts:223-303 | the program, interleaved with arbitrary moves of others and with crashes, only ever extends a run of the protocol, by at most three acknowledgements of its own; it fails only by a crash, for a challenge that is not the account's, for want of an answer that the client accepts, or by a refused completion; it answers `presented` only while the relay has no result, and any other state only if it is stored |
| `WalletLinkService.WalletLinkService.AcknowledgeHostedResult` | packages/verus-linking/src/service.ts:305-316 | adds at most three acknowledgements to the run, and the challenge stays consumed with its digest through all of them and whatever happens in between |
| `RateLimits.WindowLimit` | packages/auth/src/rate-limit.ts:32-44 | in each window exactly the first `limit` attempts of a subject are accepted, whatever the order of times |
| `RateLimits.IntervalLimit` | packages/auth/src/rate-limit.ts:32-44 | in any interval of window length at most twice the limit is accepted |
| `RateLimits.IntervalLimitReached` | packages/auth/src/rate-limit.ts:32-44 | the factor two is reached for every limit |
| `RateLimits.RateLimiter.RequireWithinLimit` | packages/auth/src/rate-limit.ts:19-44 | every attempt is counted and accepted exactly when its count is within the limit |
| `Sessions.AcceptedExactly` | packages/auth/src/session.ts:68-112 | after any events, on any clock, a token is accepted if and only if its session has been issued and not ended, was last used less than the idle timeout ago, and was issued less than the absolute timeout ago |
| `Sessions.UseProlongs` | packages/auth/src/session.ts:107-112 | an accepted use keeps the session open for another idle timeout, within its absolute lifetime |
| `Sessions.AcceptedAuthentications` | packages/auth/src/session.ts:68-112 | a session's accepted authentications fall before issue plus the absolute timeout, with gaps below the idle timeout, the first from issue on |
| `Sessions.NothingAfterRevocation` | packages/auth/src/session.ts:89-105 | after revocation, by logout, rotation or expiry, nothing is accepted |
| `Sessions.LateUseRevokes` | packages/auth/src/session.ts:102-105 | presenting an expired session revokes it for good, even if a later clock reading is earlier |
| `Sessions.SessionService.IssueToken` | packages/auth/src/session.ts:52-87 | revokes the prior session and creates one that is accepted at once exactly if both timeouts are positive |
| `Sessions.SessionService.AuthenticateToken` | packages/auth/src/session.ts:89-112 | accepts exactly unrevoked, unexpired sessions and extends the idle expiry up to the absolute one |

## Left out

- Assumptions of the anchor protocol: worker references are distinct, each worker has one `processNext` in flight, and observation times never decrease. A node that has accepted a call does not answer it with a plain retryable rejection, and a transaction id is returned only for an accepted call.
- `SKIP LOCKED` is a set of rows that a claim may pass over; the machine lets a worker claim any claimable event, which includes every such choice.
- Queue metrics, audit texts of the outbox and job repositories, software versions and correlation ids: they are written beside the modelled rows and read by nothing modelled. `refreshQueueMetrics` and `VerusWorkerLoop` only call what is modelled.
- The manifest is no part of the machine's job rows: its check is the machine's `guard` parameter, and `WorkerAcceptsExactly` says when it passes.
- `runVerusWritePreflight` and RPC parsing: oracles that answer success, or a retryable or terminal error with its ambiguity flag. To the worker machine `inspectTransactionConfirmation` is an oracle too; `Confirmation` says when it answers what.
- Fields of a job that no transition reads (timestamps, committee reference) and the format checks of references and identifiers in `enqueueAnchor` other than those of the manifest.
- ValidConfig, Sound, Sane: assumptions of theorems on configured values and platform functions; the deployed challenge lifetime of five minutes satisfies `Sane`.
- Field names: the two lists of private field names (canonical-content.ts:12-34, verus-job-repository.ts:709-734) hold the same names once folded and are one predicate, `forbidden`.
- PostgreSQL's own limits on jsonb (no U+0000, numeric normalization) beyond the loss of member order.
- Several committees: every query of the registry is confined to one committee, so one tenant is modelled; review decisions, participants' accounts and reviewer authorization are not.
- The started form of an idempotency record, which no other transaction can see.
- The hash chain of the audit log: SHA-256 links beside the modelled prior and new states.
- RelayProtocol.ResultsAreStable: stated for a digest that is never acknowledged; an acknowledgement with another digest is refused and covered.
- The Redis store: it compares whole results where the memory store compares digests, and expires keys by itself; only the memory store is modelled.
- Signatures, HTTP, cookies and token formats of the wallet link: the relay's answer is accepted or refused by the client, as an oracle; the time checks are exact.
- `begin`, scopes, display names, trust domains and observed block data of a link: they are copied, not compared.
- Tokens of sessions and digests of rate-limit keys are taken as injective, and each store operation with the check before it as one step; stores that delete expired rate-limit rows are not modelled.
- Sessions.SessionService.IssueToken: requires a fresh token, where the source draws one at random; the passkey requirement of the committee domain is not modelled.
- HTTP routes, configuration, logging, front ends and the remaining domain lifecycles: finite tables or plumbing that would only add easy members.
