# Verified model of the document-signing back end

A customer drafts a document, uploads its file and sends a one-time signing link; the contractor signs by a code
(PEP); the customer completes with a qualified signature (UKEP). Every step is written to a hash-chained audit log,
and with PostgreSQL behind it also to an outbox that a publisher drains into Kafka. This project models that code in
Dafny and proves what it keeps over every run.

`dafny verify dfyconfig.toml` checks everything.

## How the model is laid out

| file | what it models |
|---|---|
| `Domain.dfy`, `Ident.dfy`, `Phone.dfy`, `Billing.dfy` | entities, identifiers, phone normalisation, plans |
| `AuditChain.dfy` | what an audit event hashes, decoding it, verified chains |
| `Service.dfy`, `ServiceInvariant.dfy`, `CallHistory.dfy`, `ServiceRuns.dfy`, `SigningHistory.dfy`, `Evidence.dfy` | the service without persistence as a state machine, its invariant, its state and replies told from the calls alone, what holds after every run, and what signatures fix |
| `App.dfy`, `Store.dfy` | the same service and its object store as classes updated in place, each method proved equal to its function |
| `Tables.dfy`, `Records.dfy`, `Repository.dfy` | the database as values, runs of transactions, and the repository class that executes them statement by statement, with faults |
| `Cluster.dfy`, `SignatureFirst.dfy`, `LinkUse.dfy`, `Durability.dfy` | any number of service instances over one database, cut at their database calls |
| `Outbox.dfy`, `OutboxOrder.dfy` | the outbox publisher, and in which order it delivers |
| `LastWord.dfy`, `LastStatus.dfy`, `Delivery.dfy` | what the consumer of the log hears last about a document, for the publisher alone and with the database |
| `Sample.dfy` | the document of the concrete runs that show where a property fails |
| `Otp.dfy`, `OtpHistory.dfy`, `Allowance.dfy`, `Cleanup.dfy`, `TokenHistory.dfy` | code validation, the metered allowance and cleanup under concurrency, and what codes, sessions and links give, told from the calls alone |
| `RateLimit.dfy`, `RateHistory.dfy` | the fixed-window rate limiter, and its decisions told from the earlier ones |

Conventions:

- SHA-256 (FIPS 180-4) and the rendering of instants are arbitrary functions, an `Env`, with outputs of the right
  shape: 64 hexadecimal characters, and a four-digit year followed by a dash. No hash is assumed injective: a theorem that
  needs it takes the hypothesis that the finitely many inputs at hand do not collide.
- Instants are natural numbers of nanoseconds. A call reads the clock once. Theorems that need it assume the
  clock does not go backward; the others hold for any readings.
- Random identifiers and tokens are inputs. Where a theorem needs it, a new document identifier or token is one not yet in use.
- Strings and byte slices are both sequences of characters, one for each byte.
- A database transaction is one step of the concurrent models, placed where it commits; `Repository` shows that
  the statements of each transaction, with a failure at any of them, amount to that step or to nothing. A commit may
  land without the caller learning of it.
- A crash settles the call in flight at once: it has landed or it never will, and the rows it had locked are free. In
  PostgreSQL a session can outlive its client for a while. Until it ends, a publisher's next pass skips the rows it has
  locked; and a commit of its own that lands after the restarted service has loaded the document leaves the cached copy
  behind the row, as another replica would (`BackwardIffStale`).
- Documents are stored with `createdAt` cut to microseconds, what `timestamptz` keeps. The other instants handed to the
  database are taken as it keeps them.
- `Tables` and `Records` keep the outbox in commit order. The publisher reads it in `created_at` order, and there
  `Outbox`, `OutboxOrder` and `Delivery` let a row commit at any place. The rows `Repository` publishes are in `created_at` order.
- Users are identified with their phone, and rows keyed by a hash of a token or subject with what is hashed.

## Where the code does less than it seems to

- The audit log is one chain for all documents, but `VerifyAudit` follows one document's events. It therefore accepts
  a document exactly when its events open the log, and rejects every untampered document created after something else was
  logged (`AuditAcceptance`, `LaterDocumentsNeverVerify`, `CreatedLaterIsRejected`).
- Five wrong codes end a challenge only when each has been counted. With R callers at once, 4 + R wrong codes can be compared
  before it dies, and that is exact (`Otp.AttemptBound`, `Otp.BoundAttained`).
- Over several replicas a recorded status can move backward, because cached documents are never refreshed; it does so exactly when
  a status write from a stale copy lands (`BackwardIffStale`, `TwoInstancesCanRegress`), and never while each document is written
  by an instance that no other has written past (`FallsOnlyIfOvertaken`, `InTurnMovesForward`).
- `outbox_events.created_at` is the start of the inserting transaction, not its commit, so a row can commit behind
  rows already published or in the batch in flight. De-duplicated delivery is exactly-once all the same (`ExactlyOnce`).
  It is and stays a prefix of the outbox exactly when every row commits behind what has been delivered and behind the
  batch in flight (`LateRowBreaksPrefix`, `PrefixIffInOrder`); a run where one does not is `LateRowCanBreak`.
- For the same reason the drained log can end with a status that is not the current one: of two transactions about a
  document on two replicas, the one that began first commits last (`LateStatusMisleads`). It states the current status, however the
  publisher goes on, exactly when everything that can still be heard last about the document does (`TruthIsExact`). It is enough
  that the last transaction about the document committed when every row about it created later had been delivered
  (`DrainedStatesTheTruth`), and exactly then its message comes last (`InTimeIsExact`).
- The evidence of a PEP joins its fields without separators. It fixes content and contractor, but not where the agreement version
  ends and the address begins (`EvidenceFixesContent`, `PepLeavesAgreement`).
- Removing an expired link is visible to `UseSigningLink`, which does not look at the expiry, and to nothing else (`CleanupUnobservable`, `ExpiredUseIsVisible`).
- The rate limit admits up to twice the limit, less one, in one minute, and that is exact (`RateBound`, `RateLimit.BoundAttained`).
- The service without persistence is what `NewApp` builds. `cmd/api/main.go:57-66` passes a nil `*Repository` as an interface
  value, so there the persistence is never nil, with or without a database.

## Model

| member | source | states |
|---|---|---|
| Ident.Layout | internal/service/app.go:86-93 | A generated identifier has the UUIDv4 text layout: dashes at 8, 13, 18, 23, lower-case hexadecimal elsewhere, version 4, variant 8, 9, a or b |
| Ident.CollidesIff | internal/service/app.go:86-93 | Two draws give the same identifier if and only if they agree on the 122 bits that are not overwritten |
| Phone.NormalizePhone | internal/service/app.go:95-110 | The digit-collecting loop computes the canonical phone |
| Phone.CanonicalIdempotent | internal/service/app.go:95-111 | Normalising twice is normalising once, and every phone that normalising changes is valid |
| Phone.CanonicalForm | internal/service/app.go:95-111 | Eleven digits starting with 7 or 8, however spaced, become +7 and the other ten; anything else stays as it is |
| Phone.DigitsOfParts | internal/service/app.go:96-101 | The digits collected are exactly the characters 0 to 9, in their order |
| Billing.FindLimit | internal/billing/plans.go:25-32 | The search over the plan list returns the plan's limit, zero for an unknown code |
| Billing.KnownPlans | internal/billing/plans.go:11-32 | The plans an update may name are exactly start, business and enterprise, with limits 50, 500 and none |
| Billing.LimitsOf | internal/billing/plans.go:11-32 | The limit of every code there is: 50, 500, or none |
| AuditChain.DecodePreimage | internal/service/app.go:581 | The hashed concatenation of any event of the service's shapes decodes to its six fields |
| AuditChain.UniquelyDecodable | internal/service/app.go:567-581 | Two events of those shapes with the same hash input agree in every hashed field |
| AuditChain.AmbiguousWithoutShapes | internal/service/app.go:581 | Without the shapes the concatenation is ambiguous: moving a character from the action to the payload keeps the input |
| AuditChain.AppendKeepsVerified | internal/service/app.go:575-584 | Appending an event links it to the last hash, so a verified log stays verified, whatever the hash |
| AuditChain.VerifyEvents | internal/service/app.go:562-573 | The verification loop returns true if and only if every event names its predecessor's hash and carries the hash of its own six fields, written out one after the other |
| AuditChain.LastHashFixesChain | internal/service/app.go:562-573 | Two verified chains ending in the same hash have the same length and agree in every hashed field of every event |
| AuditChain.PredecessorsDistinct | internal/service/app.go:575-584 | In a verified chain no two positions have the same predecessor hash, back to the empty one |
| AuditChain.VerifiesIffInitialSegment | internal/service/app.go:488-573 | One document's events pass the loop if and only if they are the initial segment of the whole verified log |
| AuditChain.LaterStartFails | internal/service/app.go:562-573 | Events that start after the first event of a verified log never pass, whatever the hash |
| Store.MemoryStore.Put | internal/storage/store.go:34-43 | Refuses an empty key or empty data unchanged; otherwise stores a copy under the key, leaves other keys alone and returns the digest |
| Store.MemoryStore.Get | internal/storage/store.go:44-52 | Returns the stored bytes in a fresh buffer, or an error exactly when the key is missing |
| App.App.constructor | internal/service/app.go:74-85 | A new service starts from the initial state and is valid |
| App.App.AuditLocked | internal/service/app.go:575-584 | The log grows by one event with the fields given, the last hash as its previous one, and as its own the digest of identifier, document, action, payload, previous hash and instant |
| App.App.CreateDocument | internal/service/app.go:224-247 | State and result, with every error and the order they are checked in, are those of the state machine, whose answer and effect `CallHistory` tells from the calls |
| App.App.Send | internal/service/app.go:248-273 | As the state machine: only the customer's draft, a 48-hour link, and the signing address as result |
| App.App.RequestPEP | internal/service/app.go:274-302 | As the state machine: an unexpired link, a 10-minute challenge, one event and no status change |
| App.App.Upload | internal/service/app.go:304-327 | As the state machine: only the customer's draft, key and digest recorded, a rejected put changes nothing; `CallHistory` tells it from the calls |
| App.App.Download | internal/service/app.go:328-353 | As the state machine, in a fresh buffer: the stored bytes for a participant, or the first error that applies |
| App.App.ConfirmPEP | internal/service/app.go:354-422 | As the state machine: all checks in order, signature, status, spent challenge, and two events |
| App.App.StartUKEP | internal/service/app.go:423-441 | As the state machine: only the customer, only after the PEP signature |
| App.App.CompleteUKEP | internal/service/app.go:442-464 | As the state machine: only while awaiting, one qualified signature over the content hash |
| App.App.Perform | internal/service/app.go:224-464 | Any operation moves the object as one step of the state machine does and keeps it valid, so what is proved of runs holds of the object |
| App.App.Get | internal/service/app.go:475-495 | For a participant, the document and its events in log order; otherwise not found |
| App.App.VerifyAudit | internal/service/app.go:557-574 | Not found unless the actor is the customer or the contractor; for these, whether the document's events verify, which in a valid state with no collision means that they open the log |
| ServiceInvariant.RunsKeepInv | internal/service/app.go:224-464 | After every run the log is one verified chain of well-formed events, and every document agrees with its events, signatures and stored file |
| CallHistory.StateIsTold | internal/service/app.go:224-464 | After every run the state is what the calls made tell: each record with the fields its creating call submitted, the digest of its last file or else of the submitted content, and the status its accepted calls amount to; each link with its 48 hours and each outstanding code with its 10 minutes; each stored file; and the log and the signatures entry by entry, evidence included |
| CallHistory.RepliesAreTold | internal/service/app.go:224-464 | After every run, each of the seven operations is accepted exactly when nothing in the calls made refuses it: a creation when the submitted fields pass, a send or an upload when the actor's own call created the document and no send of it was accepted (an upload also only with data), a code while the link lives, a signature, its start and its completion when the calls before it say so. Otherwise it gets the error the code meets first and changes nothing |
| ServiceRuns.RecordIsSubmitted | internal/service/app.go:224-327 | A document is there exactly when a call created it; title, template, version, customer, canonical phone, agreement, amount and instant are those of that call, and the content hash is the digest of the last accepted upload, or of the submitted content when there is none |
| ServiceRuns.GetIsTold | internal/service/app.go:475-495 | A participant, by the creating call, is shown the record and exactly the log entries about the document, in order; everyone else gets not found |
| ServiceRuns.LogReplaysToRecord | internal/service/app.go:238-457 | After every run, folding a document's audit events gives its current status and content hash, the evidence of its PEP and the hashed reference of its UKEP |
| ServiceRuns.SignatureHistory | internal/service/app.go:393-456 | No signature before pep_signed, then exactly the contractor's PEP, then that and the customer's UKEP; the evidence of each is the hash of the still current content with what the step adds |
| Evidence.EvidenceFixesContent | internal/service/app.go:399 | After any run, absent a collision, PEP evidence of two documents is equal only if their content and contractor are |
| Evidence.PepFixesContent | internal/service/app.go:399 | The widths of content hash and phone make the evidence input decodable up to the agreement version, which with address, agent and time is fixed as a whole only |
| Evidence.PepLeavesAgreement | internal/service/app.go:399 | The agreement version by itself is not fixed: its last character can be read as the first of the address |
| Evidence.UkepFixesAll | internal/service/app.go:449 | UKEP evidence fixes content and provider reference |
| ServiceRuns.AuditAcceptance | internal/service/app.go:488-573 | After every run, absent collisions, a document verifies if and only if its events are the initial segment of the global log |
| ServiceRuns.OneDocumentVerifies | internal/service/app.go:557-584 | A run with one document always verifies, whatever the hash |
| ServiceRuns.LaterDocumentsNeverVerify | internal/service/app.go:557-584 | A document whose events do not open the log never verifies, whatever the hash |
| ServiceRuns.CreatedLaterIsRejected | internal/service/app.go:224-247 | Any document created after something was logged is such a document, with nothing tampered |
| ServiceRuns.ContentFrozen | internal/service/app.go:248-353 | No continuation of a run changes anything but the status of a sent document, nor its stored bytes, and the status never falls |
| ServiceRuns.DownloadReturnsLastUpload | internal/service/app.go:304-353 | In every reachable state, told from the calls alone: the creating customer and the contractor named then download exactly the file of the last accepted upload, or learn that there is none; everyone else gets not found. Integrity and lookup failures are impossible |
| SigningHistory.ConfirmedIffAuthorised | internal/service/app.go:354-398 | A confirmation succeeds if and only if, in the history of calls, the customer sent the document on this link within 48 hours, the code is the last one issued for it, within 10 minutes and unspent, the document still waits, and its contractor accepts; which calls count as sending, issuing and spending is told from the calls before them |
| SigningHistory.LinkSignsOnce | internal/service/app.go:354-422 | No link has two successful confirmations in a run, however many codes are issued for it |
| Repository.Repository.SaveSignature | internal/persistence/repository.go:24-42 | Under any fault, the signature is stored or nothing is; a fault-free call succeeds exactly when the document exists |
| Repository.Repository.ConsumeAllowance | internal/persistence/repository.go:141-154 | Succeeds exactly for an active or trial subscription that has not ended, with fewer than 50 documents used on start and 500 on business, and counts one document |
| Repository.Repository.SaveDocument | internal/persistence/repository.go:119-140 | Under any fault nothing changes, or together: one document is charged, the row is the document with its instant in microseconds, and one audit and one pending outbox row are added; a fault-free call succeeds exactly when the subscription pays, the document is new, and the event is new and of a known document |
| Repository.Repository.SaveStatus | internal/persistence/repository.go:156-169 | Under any fault nothing changes, or together: status, object key and content hash of the row, one audit row and one pending outbox row; fault-free, exactly when the document is there and the event is new |
| Repository.Repository.UpsertSubscription | internal/persistence/repository.go:83-104 | Fault-free, succeeds exactly for the three plans and four statuses; the row written keeps the counter exactly when plan and period end are unchanged, else starts from zero |
| Repository.Repository.UseSigningLink | internal/persistence/repository.go:251-257 | Fault-free, succeeds exactly for a saved, unused link, and marks that row alone; a failure changes nothing |
| Repository.Repository.ValidateOTP | internal/persistence/repository.go:263-270 | For every outcome of the two statements, from the row's fields: true exactly when the deletion is acknowledged and the code is there, unexpired and has the digest, false exactly when both are and it does not; the row goes, or counts one more failure and expires at the fifth, or stays, as the statements landed |
| Repository.Repository.CleanupExpired | internal/persistence/repository.go:105-117 | The three deletions take effect together or not at all: what is left is exactly the rows with expiry not before now and, for links and sessions, no use or revocation older than seven days, each unchanged |
| Repository.Repository.SendBatch | internal/persistence/repository.go:220-227 | The publish-and-mark loop, under any fault, is a run of publishing steps, and marks the batch in the open transaction when it completes |
| Repository.Repository.PublishPending | internal/persistence/repository.go:198-232 | One pass, under any fault, is a run of the publishing protocol; it marks the selected batch or nothing, and a success reports the batch size |
| Repository.PublishLoop | cmd/outbox-publisher/main.go:24-34 | Any number of rounds is a run of the protocol with batches of 50, and fault-free rounds mark everything pending |
| Records.RecordsAgree | internal/persistence/repository.go:119-169 | After any transactions, each document has as many outbox rows as audit rows, and its last committed outbox row carries its current status |
| SignatureFirst.SignatureBeforeStatus | internal/service/app.go:399-462 | Over any instances, interleaving, failing calls and crashes: for a row or cached copy at pep_signed or beyond a PEP signature by its contractor is stored, for a completed one also a UKEP signature by its customer, with evidence of the very content that row or copy has |
| LinkUse.OneSuccessPerLink | internal/service/app.go:354-422 | Over any instances, crashes and cleanups, no token has two successful persisted confirmations |
| Durability.BackwardIffStale | internal/service/app.go:465-474 | Over any instances, a step lowers a recorded status if and only if a status write lands from a cached copy that lags behind the row |
| Durability.AheadUnlessOvertaken | internal/service/app.go:265-474 | Over any instances, a cached copy is behind its row only if another instance has landed a write of the document since this one last loaded, drew or wrote it |
| Durability.FallsOnlyIfOvertaken | internal/service/app.go:265-474 | Over any instances, a recorded status falls only by the write of an instance that another has written past in that sense |
| Durability.InTurnMovesForward | internal/service/app.go:265-474 | Over any instances, failing calls and restarts, the status of a document that no instance writes when another has written past it never falls over the whole run |
| Durability.OneWriterIsInTurn | internal/service/app.go:265-474 | So it is for a document that only one instance writes, however many handle others |
| Durability.OneInstanceMovesForward | internal/service/app.go:265-474 | With one instance at a time, failing calls and restarts, no cached status is below the recorded one and no recorded status ever falls |
| Durability.SurvivesRestart | internal/persistence/repository.go:119-194 | Over any instances, once a status write has landed and as long as no other of the document lands, whatever else happens, crashes included: a participant loads the copy that was written, in every field, with the creation instant cut to microseconds, and nobody else loads it |
| Durability.TwoInstancesCanRegress | internal/service/app.go:465-474 | A concrete two-instance run in which a sent document is recorded as a draft again |
| Outbox.ExactlyOnce | internal/persistence/repository.go:196-232 | In any commit order and under every failure, the de-duplicated log has no repetition, only committed rows and every row marked published; once all are marked, exactly the committed rows |
| OutboxOrder.DeliveredInOrder | internal/persistence/repository.go:196-232 | When every row commits behind what is delivered and in flight, in created_at order for one, the de-duplicated log is a prefix of the outbox, covers the marked rows, and is at most one batch longer |
| OutboxOrder.LateRowBreaksPrefix | internal/persistence/repository.go:204-227 | A committing row leaves the delivered messages a prefix, now and whatever the publisher does or suffers later, if and only if it is placed behind everything delivered and behind the batch in flight |
| OutboxOrder.PrefixIffInOrder | internal/persistence/repository.go:198-232 | Over whole runs: at every moment the prefix holds and holds whatever the publisher does next, if and only if every row commits so |
| OutboxOrder.LateRowCanBreak | migrations/001_initial.sql:6 | A concrete run: a row that commits in front of the batch in flight, though behind everything delivered, breaks the prefix |
| Outbox.Drain | cmd/outbox-publisher/main.go:24-34 | From any state with the publisher idle some rounds mark every row |
| LastWord.LastIffNothingWaitsBehind | internal/persistence/repository.go:196-232 | In any state the protocol can reach, a committing row is the last the consumer hears about its document in every drained continuation, if and only if every row about the document placed behind it has been delivered |
| OutboxOrder.PassContinuesRun | internal/persistence/repository.go:198-232 | Publisher passes extend an ordered run, so a pass started anywhere keeps what is proved of runs |
| Outbox.MarkedLeavesRest | internal/persistence/repository.go:204-227 | Marking a batch leaves exactly the pending rows behind it, in order |
| Delivery.DrainedStatesTheTruth | internal/persistence/repository.go:119-232 | With rows that may commit out of created_at order, for each document by itself: if the last transaction about it committed when the later-created rows about it had been delivered, whatever became of earlier ones and of other documents, then once the outbox is drained the last de-duplicated message about it states its status in the database; about a document that is not there nothing is said |
| LastStatus.SaysIff | internal/persistence/repository.go:196-232 | Over everything the publisher may do and meet from a state on, the drained log states a given status last about a document, if and only if what can be heard last states it: what was, when nothing about the document waits; else the waiting row furthest back, and the one furthest back outside the rest of the batch in flight |
| Delivery.TruthIsExact | internal/persistence/repository.go:119-232 | After any run, in time or not: the drained log states the recorded status in every continuation, if and only if what can be heard last about the document states it |
| Delivery.InTimeIsExact | internal/persistence/repository.go:156-232 | After any run, a committing transaction is the last the consumer hears about its document in every drained continuation, if and only if it commits in time |
| Delivery.LateStatusMisleads | internal/persistence/repository.go:156-169 | A concrete run with two instances: the document is recorded as sent, and the drained log says last that it is a draft |
| Otp.AttemptBound | internal/persistence/repository.go:259-270 | Between two saves, under every interleaving of R callers, at most one validation succeeds and at most 4 + R wrong digests meet the live challenge, apart from lost counts; after five, all counted, it is dead |
| OtpHistory.AcceptedIffRight | internal/persistence/repository.go:259-270 | Under every interleaving, from the calls alone: a check by a caller with nothing owing succeeds exactly when its digest is the one saved last, the clock is before the expiry saved with it, and since then none has succeeded and fewer than five failures have been counted |
| OtpHistory.ValidationIffRight | internal/persistence/repository.go:263-270 | The same for a validation made in one go after any such run; a wrong digest adds one to the failures counted, the fifth kills the code, and without a standing code nothing changes |
| Otp.BoundAttained | internal/persistence/repository.go:259-270 | For every R some interleaving reaches 4 + R |
| Allowance.AllowanceHeld | internal/persistence/repository.go:83-154 | Under concurrent saves and updates, the counter is the number of documents committed since the last reset, never above the limit, and a customer's documents on limited plans are at most the sum of the limits |
| Allowance.NoSubscriptionNoDocuments | internal/persistence/repository.go:141-147 | Without a subscription a customer has no document |
| Allowance.SaveIsSerial | internal/persistence/repository.go:141-154 | The row lock makes a save equal to the whole transaction at once, and a failed one consumes nothing |
| Allowance.ReplayedUpdate | internal/persistence/repository.go:99 | An identical update replayed changes nothing, and one with the same plan and period keeps the counter |
| Cleanup.CleanupUnobservable | internal/persistence/repository.go:105-117 | Cleanups anywhere in a run, between the two statements of a validation too, change no later answer about links, codes or sessions, except the use of an expired unused link |
| Cleanup.ExpiredUseIsVisible | internal/persistence/repository.go:105-117 | Over whole runs that exception is exact: an answer differs if and only if the call uses a link that has expired unused and that a cleanup has removed by then |
| Cleanup.ValidationIsTwoCalls | internal/persistence/repository.go:263-270 | A validation is the matching call and, unless it matched, the counting call |
| Cleanup.RunsClean | internal/persistence/repository.go:105-117 | Wherever in a run a cleanup comes, no expired row survives it, nor one out of use for over seven days, and every row it removes was such; the others are unchanged |
| TokenHistory.SessionReadableIff | internal/persistence/repository.go:271-301 | With cleanups anywhere in a run: a session is read exactly when a call opened it, none has closed it or all sessions of its user since, and it has not expired |
| TokenHistory.LinkUsableIff | internal/persistence/repository.go:240-257 | With cleanups anywhere in a run: a link leads to its document exactly when it was saved for one that exists, has not been used and has not expired; a use before its expiry succeeds exactly when it has not been used |
| RateLimit.RateLimiter.constructor | internal/httpapi/ratelimit.go:20 | A new limiter has no entries |
| RateLimit.RateLimiter.Allow | internal/httpapi/ratelimit.go:35-55 | New table and decision, eviction loop included, are those of the limiter's step; over runs its decisions are those of `RateHistory.AllowedIff` |
| RateLimit.EvictionInvisible | internal/httpapi/ratelimit.go:38-48 | With a clock that does not go backward, every decision is that of a limiter that never deletes |
| RateHistory.AllowedIff | internal/httpapi/ratelimit.go:35-55 | From clock readings and earlier decisions alone: a request is allowed if and only if fewer requests of its key than the limit were allowed since the one that opened the window it falls into; an allowed request opens a window when none of its key was opened within the last minute |
| RateHistory.RejectionLeavesNoTrace | internal/httpapi/ratelimit.go:46-51 | Leaving out a rejected request changes no later decision, so retrying never prolongs a lock-out |
| RateLimit.SizeBound | internal/httpapi/ratelimit.go:39-45 | After every call the table has at most 10000 entries, or only unexpired ones |
| RateLimit.RateBound | internal/httpapi/ratelimit.go:46-55 | Over any closed interval of any length, the allowed requests of a key are at most the worst case of the fixed windows |
| RateLimit.BoundInMinutes | internal/httpapi/ratelimit.go:46-55 | That worst case is at most limit × (started minutes + 1), and 2 × limit − 1 in one minute |
| RateLimit.BoundAttained | internal/httpapi/ratelimit.go:46-55 | For every limit and every length some run reaches the worst case |

## Left out

- Login codes, sessions in the service, document lists, evidence packages and subscriptions as seen by the service: they repeat the patterns proved here. The session and code tables are in the database model.
- HTTP routing, cookies, metrics, the web pages, deployment, Sber ID, S3 and HTTP object stores: library and network calls.
- The notification consumers, `internal/notifications/rabbit.go` and `cmd/notification-dispatcher/main.go`: they can lose a message, so nothing end to end holds beyond the event log.
- Several publishers at once under `SKIP LOCKED`: the model has one, as deployed.
- The persisted service as a class: `Cluster` models it as steps on values, so that instances can interleave inside an operation. It checks neither the expiry of a cached link nor the outcome of code validation, so it allows more runs than the code has, and its theorems cover them all.
- Audit rows read back from the database: some events are never stored and instants are stored with less precision, so replay and verification are stated for the service without persistence.
- Aliasing of returned documents: the service hands out pointers into its cache, the model hands out values.
- App.App.RequestPEP: the generated code is a parameter; how its digits are drawn is not modelled.
- RateLimit.RateLimiter.Allow: the key and its limit are parameters; building them from headers and path is not modelled.
- Repository.PublishLoop: the loop has no end in the source; any finite number of its rounds is modelled, without the sleeps.
- Repository.Repository.ValidateOTP: nothing runs between the two statements here; what other callers do in between is in `Otp` and `Cleanup`.
- Repository.Repository.SaveSignature: rows of the users table are not modelled, so creating a user cannot fail.
- Otp.AttemptBound: failures whose count is lost to a crash or a failed statement are outside the bound and counted separately.
