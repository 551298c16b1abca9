# Document service: a verified model

The service stores documents. A caller opens an upload session (`Create`), the bytes arrive through a presigned URL or
through the API (`UploadContent`), `Complete` verifies the stored object and puts the document in quarantine, scanners
claim it under a lease and record a verdict (`processOne`, `RecordScan`), and readers get it through gates
(`Download`, `Evidence`, `OpenEvidence`, the case list). Nothing coordinates these actors but PostgreSQL: most methods
read, check and later write in separate statements, and a process may die between any two of them.

## How the model is built

Three layers, each proved against the one below.

1. **Statements** (`Schema`, `Access`, `Statements`, `Queue`, `Creation`). The database is a value: rows, audit log,
   objects, clock. Every SQL statement, and every call of the object store, is one atomic `Stmt`, and `Exec` says what it
   does. `Run` executes a sequence of them. What holds of every `Run` holds of everything above.
2. **Threads** (`Calls`, `Threads`, `Steps`, `Rounds`, `Audit`, `Signing`, `Integrity`, `Uploads`, `Scanning`, `Leases`,
   `Gates`, `Requests`, `Idempotency`, `RoundTrip`, `Grants`, `Evidence`, `Runs`, `Witnesses`, `Collisions`, `Misnamed`). Each
   Go method is a thread with a program counter: `Issue` is the statement it executes next, `Resume` where the answer takes it. `Reachable(digest, acts)` is
   the world after any sequence of actions: new calls, steps of any thread, deaths at any point (`Stop`), PUTs by clients,
   passing time. Statements may also fail without effect; that too is `Stop`.
3. **Methods** (`Database`, `Service`, `Routes`, `Clamd`). The Go methods again, imperatively, over a class `Store` whose
   fields each statement updates in place. Before each statement `Await` lets every other actor do anything, and may fail
   the statement. A ghost trace ties the store to layer 2 (`Store.Valid`), and each method is proved to run exactly as its
   thread: its reply is the reply of the automaton, so the theorems about all interleavings are theorems about these
   methods.

`Ordering`, `Paging` and `CaseList` treat the case list and its cursor; `Clamd` the INSTREAM session; `Text` the string
helpers. What the small functions of the model decide is stated once more in plain columns, literals and characters, apart from
their definitions: `Gates` for readers, `Requests` for `Create`, `Uploads` for `Complete`, the last lemmas of `Statements` for
the SQL, `Clamd.Told` for verdicts, the `MintExactly` lemmas of `Grants` for scopes.

Where claims one might expect are stronger than the code, the exact statement is proved, with a run from the empty
database that shows the difference (`Witnesses`, `Collisions`, `Misnamed`). `RecordScan` is not fenced by the lease
(`Leases.StaleVerdictAccepted`, `Leases.OneWorkerExactly`, `Leases.OverlapExactly`, `Witnesses.OverlapRun`,
`Witnesses.FreedOverlapRun`). After a deduplicated `Create` the signed key belongs to no row and the idempotency key is
not stored (`Idempotency.SignedKeyOwned`, `Idempotency.ReplayExactly`, `Idempotency.SessionsAgree`,
`Collisions.DedupRun`, `Collisions.OneKeyTwoDocumentsRun`). The case list filters after its `LIMIT`, so hidden rows can
cut a walk short (`Paging.HiddenWalkExact`, `Collisions.HiddenWalkRun`). `Complete` compares metadata, so the bytes
match unless the last write to the key was a client's with other bytes (`Integrity.DeclaredExactly`,
`Witnesses.UnmatchedBytesRun`), and a PUT after the scanner's open puts unscanned bytes before readers
(`Scanning.StreamedWasJudged`, `Witnesses.UnscannedStreamRun`). A transition is reported unless a thread stops while it
owes the report (`Audit.ReportedUnlessLost`, `Witnesses.LostEventRun`). A lender's account reference that begins with
`ten_` is taken for a tenant, and a party id padded with space is trimmed, so that the session's document is out of the
grant's reach (`Routes.SessionBelongs`, `Routes.SessionCovered`, `Misnamed.BothHappen`).

A request is workable, in the rows below, if it is accepted, its environment is one of the five, its party exists, its
creator may complete it (`Creation.CreatorMayComplete`), and its object has the declared length and digest metadata.

Where the repository's text and its code differ, the model follows the code. `README.md` promises SHA-256, MIME type and
byte-length validation after upload; `Verify` compares the length and a metadata string the uploader supplied. The check
`in.Filename == ""` in `Create` can never fire: `filepath.Base` of an empty name is "." (`Text.Base`).

## Model

| member | source | states |
|---|---|---|
| Statements.ExecKeepsDbInv | internal/documents/service.go:142-256 | every statement with any arguments keeps the joint invariant: pending uploads are untouched by scanning, quarantine implies pending, scanning or failed, scanning iff a lease is set, available iff clean, rejected iff infected, attempts within 0 to 5, the dead statuses unreachable |
| Statements.RunKeepsDbInv | cmd/scanner/main.go:39-57 | the joint invariant, both unique indexes, the CHECK constraints and the audit foreign key hold after every run of statements |
| Statements.ExecKeepsRowsInv | internal/documents/service.go:238-256 | the row invariant alone, from rows keyed by their ids |
| Statements.ExecKeepsUniqueKeys | internal/database/migrations/00005_document_type_deduplication.sql:5-7 | no statement makes two rows share an idempotency key, a non-NULL source key or an object key |
| Statements.WrittenRegistration | internal/documents/service.go:142-152 | an inserted registration is apart from every other under every unique index; an old one is rewritten as it was |
| Statements.RegistrationKept | internal/database/migrations/00003_resource_ownership.sql:18-26 | no statement changes any column set at insertion, a superset of what the trigger guards |
| Statements.WrittenRow | internal/documents/service.go:142-152 | whatever row a statement writes is an accepted insertion or a legal next version of its predecessor |
| Statements.RunEvolves | internal/documents/service.go:238-256 | over any run statuses only advance, terminal rows are frozen, registrations never change, the audit log only grows |
| Statements.VerdictColumns | internal/documents/service.go:249-256 | a scan result makes a recordable document available and clean, rejected and infected, or quarantined and failed, by its outcome; the lease ends and every other column stays |
| Statements.RecordableExactly | internal/documents/service.go:256 | a scan result finds a row iff it is in quarantine, in the caller's tenant and environment |
| Statements.QuarantineColumns | internal/documents/service.go:238 | Complete's UPDATE puts a pending row of its tenant and environment in quarantine, uploaded now, its scan pending, and leaves any other row as it is |
| Statements.ClaimableExactly | cmd/scanner/main.go:42-44 | a claim may take a row iff it is in quarantine, has fewer than five attempts behind it and no lease that still runs |
| Statements.OldestExactly | cmd/scanner/main.go:44-45 | and takes one iff no other it might take was uploaded earlier |
| Statements.ClaimColumns | cmd/scanner/main.go:45-48 | a claim adds one attempt and a lease of 180 seconds, sets the scan status, and writes nothing else |
| Statements.ConflictExactly | internal/documents/service.go:143-151 | an INSERT that meets the row of its tenant, environment, application, source, type and digest refreshes it iff it is pending with the same owner, purpose, classification and size, and is refused otherwise |
| Statements.RefreshColumns | internal/documents/service.go:144 | a refreshed row keeps every column but its expiry, and no other row is touched |
| Statements.InsertsExactly | internal/documents/service.go:142-151 | an INSERT that meets no such row inserts iff its id, object key and idempotency key are free, and violates an index otherwise |
| Statements.InsertColumns | internal/documents/service.go:142-159 | an inserted row starts pending, unscanned and unclaimed, and its event comes with it |
| Queue.AttemptsCountClaims | cmd/scanner/main.go:41-48 | scan_attempts equals the number of leases taken on the document in the whole run |
| Queue.OneVerdict | internal/documents/service.go:245-265 | a document is decided by exactly one statement of a run if it ends decided and did not start so; never by two, never undone |
| Queue.LateResultRefused | internal/documents/service.go:256-259 | after a verdict every later result is refused and changes nothing |
| Queue.ClaimsWithinBudget | cmd/scanner/main.go:41-46 | leases taken plus the remaining budget never exceed the budget at the start plus five per upload, so claiming terminates |
| Queue.Quiescence | cmd/scanner/main.go:42-44 | nothing is claimable iff each row waits for its upload, is terminal, has used five attempts, or is under an unexpired lease |
| Queue.OldestExists | cmd/scanner/main.go:41-44 | the claim query returns a row whenever some row is claimable |
| Queue.NoStarvation | cmd/scanner/main.go:41-48 | while a waiting document is neither claimed nor decided, the claim query has run at most as often as the sum of remaining attempts of the other quarantined documents uploaded no later |
| Leases.WorkersDoNotStarve | cmd/scanner/main.go:41-48 | the same bound for the workers of any interleaving of threads: as long as the document's attempts stay the same and it is undecided |
| Queue.WaitingStep | cmd/scanner/main.go:41-48 | each claim query that does not take the waiting document lowers that sum by at least one, and no statement raises it |
| Queue.SumUpdate | cmd/scanner/main.go:44-45 | changing one row's weight changes the sum by exactly that difference |
| Access.Confinement | internal/documents/payment_access.go:17-45 | every reader returns a restricted document only under a scope that carries its own source reference, of its own kind |
| Gates.GetExactly | internal/documents/service.go:281-309 | get finds a row iff it is in the scope's tenant and environment (environment alone for a scope without tenant, sandbox if it has none) and the scope carries the reference a restricted purpose asks for; its one refusal is ErrNotFound |
| Gates.DownloadExactly | internal/documents/service.go:266-273 | Download goes on iff get finds the row and it is available and clean; ErrNotFound and ErrConflict otherwise |
| Gates.UploadExactly | internal/documents/service.go:194-213 | UploadContent goes on to its put iff get finds the row, it is pending and the body has its length and digest; ErrNotFound and ErrConflict otherwise, with nothing written |
| Gates.PlanExactly | internal/documents/service.go:219-234 | Complete goes on iff get finds the row, it is pending, and the tenant and environment to update in are known, the row's own for a scope without tenant; each refusal as the code gives it |
| Gates.ReadersConfined | internal/documents/service.go:285-309 | no point reader returns a row of another environment, sandbox for a scope that names none, nor of another tenant if the scope has one |
| Gates.PartyCheckExactly | internal/documents/evidence.go:22-56 | a party's version check passes iff the arguments are well formed, the row has the scope's tenant and environment, the party as owner, the asked source if one is asked for, the scope carries what a restricted purpose asks for, and the row is available, clean and of the asked digest; every refusal in its order |
| Gates.AccountCheckExactly | internal/documents/bank_account.go:33-57 | a bank account's version check passes iff its scope and digest are well formed, the row is the account's own, and it is available, clean and of the asked digest; every refusal in its order |
| Gates.AccountDocumentExactly | internal/documents/bank_account.go:13-32 | the account's lookup finds exactly the account's own rows, under a well-formed scope |
| Gates.CaseUploadExactly | internal/documents/case.go:34-47 | the case's lookup finds exactly the party's rows of that source which the scope is entitled to |
| Creation.AcceptedMeetsChecks | internal/documents/service.go:115-117 | a request that passes validation meets every CHECK constraint iff its environment is one of the five |
| Creation.CreateThenComplete | internal/documents/service.go:219-238 | on the row a request inserted, Complete under the creating scope passes its checks iff CreatorMayComplete, and then its UPDATE addresses that row |
| Creation.BankOwnerKept | internal/documents/service.go:81-99 | a bank-account request keeps the granted owner type, and the owner id up to surrounding space |
| Creation.KeysDistinct | internal/documents/service.go:133-134 | object keys made from different ids of one length differ, whatever slashes the owner id holds |
| Requests.AcceptedExactly | internal/documents/service.go:81-117 | Create goes on with a request iff its scope covers a restricted purpose's source (and a bank account's owner) and the request as sent is well formed, limit by limit; else ErrEvidenceScope for the first, ErrConflict for the second |
| Requests.CreatedColumns | internal/documents/service.go:90-152 | every column of the row an accepted request makes, from what the caller sent: owner, tenant, environment, base name, digest, key |
| Requests.InserterConfirmed | internal/documents/service.go:128-132 | in every interleaving a thread at its INSERT for a party has had the Party service's confirmation, at an earlier step of its own |
| Requests.MadeAsAsked | internal/documents/service.go:80-168 | every document of a reachable world was made by a Create call whose request was covered and well formed, with the row of that request, and with its party confirmed before |
| Text.BaseParts | internal/documents/service.go:90 | the base name is what stands between a path's last inner slash and the slashes that end it; "." for an empty path, "/" for slashes alone |
| Calls.ThreadsRunStatements | internal/documents/service.go:80-280 | the database after any interleaving of threads is a run of the statements they issued |
| Calls.ReachableDbInv | internal/documents/service.go:80-280 | the joint invariant holds in every reachable world, and any continuation only evolves it |
| Threads.ReachableOk | internal/documents/service.go:194-280 | in every interleaving, deaths included, each thread's knowledge at its program counter is true and each row came from some Create call |
| Threads.ThreadOkStable | internal/documents/service.go:194-280 | no evolution of the database invalidates what a thread has checked |
| Threads.HitAnswers | internal/documents/service.go:169-183 | a row found by idempotency key with an equal request hash agrees with the request on source, owner, type, purpose, size and digest |
| Threads.InsertedBy | internal/documents/service.go:133-152 | only a Create thread at its INSERT adds a row, and it adds the row of its own accepted request |
| Audit.SingleWinner | internal/documents/service.go:238-265 | in any interleaving at most one call wins a document's move to quarantine and at most one its verdict |
| Audit.LosersChangeNothing | internal/documents/service.go:238-241 | a call that comes second is refused and its statement leaves the database unchanged; a late verdict gets ErrConflict |
| Audit.AuditTruthful | internal/documents/service.go:159-278 | in every reachable world each document has an upload_authorized event, each transition is reported at most once, each scan event agrees with the status, and every release event names an available clean document |
| Audit.ReportedUnlessLost | internal/documents/service.go:242-263 | a transition made is in the log, or owed by a thread still on its way, iff no thread died or failed while it owed exactly that report |
| Audit.CrashFreeAuditComplete | internal/documents/service.go:242-263 | the special case: without deaths and failures every transition made is in the log or owed |
| Witnesses.LostEventRun | internal/documents/service.go:238-243 | for every workable request a run from the empty database quarantines its document and loses the event: nothing in the log and nobody left to write it |
| Audit.WinningStep | internal/documents/service.go:238-256 | a thread wins a transition only by a statement that makes it: not passed before, passed after |
| Signing.EventsSigned | internal/documents/service.go:159-278 | every event of a reachable world was written by a step of a call, names that call's document and action, and carries its caller's subject, application and correlation; the scanner signs its own verdicts as document-scanner, bank-account events carry the account's reference |
| Integrity.DeclaredExactly | internal/documents/service.go:194-238 | an uploaded document has an object at its key, with bytes of the declared length and digest iff the last write to the key was not a client's, or was a client's with such bytes |
| Integrity.ContentIntegrity | internal/documents/service.go:194-218 | so a document whose key no client wrote to has, once uploaded, bytes of the declared length and digest there, late duplicate puts included, whatever clients do to other keys |
| Integrity.ProxyIntact | internal/documents/service.go:202-216 | at such a key any object is its row's, as declared, and so are the bytes streamed from it, in every interleaving |
| Integrity.UploadedHasObject | internal/documents/service.go:235-238 | every document past its upload has an object at its key, whoever put it there |
| Uploads.LookExactly | internal/objectstore/s3.go:66-74 | Complete's look at the object leads on iff an object of the declared length and digest metadata lies at the row's key; otherwise the call ends in ErrConflict; either way nothing is written |
| Uploads.ArrivedWasFound | internal/documents/service.go:235-238 | whenever a document has left pending_upload, it did so by a step of a call that had, at an earlier step of its own, found at the row's key an object of the declared length and digest metadata |
| Uploads.CompletedHadFound | internal/documents/service.go:235-244 | a call that answers with the completed document had found such an object |
| Witnesses.UnmatchedBytesRun | internal/objectstore/s3.go:66-74 | for every workable request and any bytes of the declared length a run quarantines the document with those bytes at its key, matching the digest or not |
| Integrity.StreamedMatchesRequest | internal/documents/case.go:51-72 | bytes streamed as evidence from a key no client wrote to hash to the digest the reader asked for |
| Scanning.StreamedExactly | internal/documents/case.go:51-72 | streamed bytes have the declared length and digest iff, at the open, the last write to the key was not a client's or was a client's with such bytes |
| Scanning.VerdictHasOrigin | internal/documents/service.go:245-259 | a document that has its verdict got it by one step on record, for a posted result or for a worker that had itself opened that document before and found the bytes it brings to the verdict |
| Scanning.AvailableExactly | internal/documents/service.go:249-256 | in every reachable world a document is available iff some step of the run recorded it clean, and rejected iff some step recorded it infected |
| Scanning.StreamedWasJudged | internal/documents/case.go:51-72 | whatever is streamed had been recorded clean before; if a worker found it clean, that same worker had opened the document, and the streamed bytes are the ones it opened iff the last thing put at the key between its open and the stream, if any, had those bytes |
| Scanning.ObjectAfter | internal/objectstore/s3.go:59-65 | what lies at a key later is the last thing put there since, or what lay there |
| Scanning.ProxyScanAgrees | internal/documents/service.go:202-216 | at a key no client wrote to, scanned and streamed bytes both have the declared length and digest |
| Witnesses.UnscannedStreamRun | cmd/scanner/main.go:50-53 | for every workable request, any further object and every reader who may read the clean document, a run in which clamd passes the uploaded object and the reader is streamed the further one, put after the worker's open |
| Leases.OneWorkerExactly | cmd/scanner/main.go:41-57 | at no moment of a run does a document have two live workers iff no action of the run is a claim that takes it while a worker holds it |
| Leases.OverlapExactly | cmd/scanner/main.go:41-46 | as long as that has not happened, a held document is claimable iff it is undecided, has attempts left, and either a recorded or posted failure has freed it or its worker is past its lease |
| Leases.LeaseExclusion | cmd/scanner/main.go:43-57 | if every worker on the document ends within its own lease and no posted "failed" result lands on it while it is held, it never has two live workers and its worker's lease is the one on the row until it is decided; posted clean and infected results may come at any time, and other documents do not matter |
| Leases.SecondWorker | cmd/scanner/main.go:41-48 | from any world in which a held document is the oldest claimable one, a second worker takes it and it has two |
| Leases.StaleVerdictAccepted | internal/documents/service.go:256 | a worker's verdict is accepted iff the document is still quarantined, whoever holds the lease |
| Leases.ExternalFailureFrees | internal/documents/service.go:245-256 | a posted "failed" result makes a held document claimable at once |
| Witnesses.OverlapRun | cmd/scanner/main.go:39-57 | for every workable request a run from the empty database, with a lease run out, leads to two workers scanning its document |
| Witnesses.FreedOverlapRun | internal/documents/service.go:245-256 | for every workable request a run in which no time passes and a "failed" result posted from the document's own tenant and environment lets a second worker in beside the first |
| Idempotency.SameRequestSameDocument | internal/documents/service.go:118-168 | two successful Create calls with one request return one document in every interleaving, and no two rows share a key |
| Idempotency.ReplayFindsRow | internal/documents/service.go:122-124 | a row inserted for a request answers every later replay with its stored row |
| Idempotency.SessionsAgree | internal/documents/service.go:118-168 | two sessions name one document iff their requests have the same source, type and digest, or, without a source, the same idempotency key; in every interleaving |
| Idempotency.SignedKeyOwned | internal/documents/service.go:133-167 | the key Create signs is the returned row's own key iff no row had the request's source, type and digest before the INSERT; if one had, it is the key of no row |
| Idempotency.DedupStoresNoKey | internal/documents/service.go:143-151 | after DO UPDATE the lookup by the request's idempotency key still finds nothing |
| Idempotency.ReplayExactly | internal/documents/service.go:118-168 | on any database the reply to a request is the document that answers it iff that row stores the request itself, or it awaits its upload and nobody has used the idempotency key |
| Idempotency.KeyUnusedExactly | internal/documents/service.go:169-178 | the lookup finds nothing iff no row is stored under the request's tenant, environment, application and idempotency key |
| Idempotency.KeyUsedExactly | internal/documents/service.go:179-183 | if a row is, the lookup returns it iff the request it was made for equals this one in each of the other fourteen fields, and answers ErrConflict otherwise |
| Idempotency.UsedKeyAnswers | internal/documents/service.go:118-127 | so in every reachable world a call with a used key ends there, with a session for that row or with ErrConflict, and writes nothing |
| Idempotency.InsertAnswersExactly | internal/documents/service.go:142-167 | after its INSERT a Create call answers with a session for the row of its source iff that is pending with the same owner, purpose, classification and size, else with ErrConflict; without such a row, with a session for the new id iff nothing else is taken, else with a plain error; the signed key is the new id's in every case |
| Runs.RunCreate | internal/documents/service.go:80-168 | from any reachable world a Create thread with nothing between its statements ends with exactly that reply, hit or miss |
| Runs.RunAgain | internal/documents/service.go:118-168 | so the same call made again after a session has a session for the same document under exactly that condition |
| Collisions.DedupRun | internal/documents/service.go:142-167 | any two requests for one document under different keys have a run whose second session names the first document and signs a key of no row |
| Collisions.OneKeyTwoDocumentsRun | internal/documents/service.go:142-167 | after it a third request under the second key gets a document of its own, so one idempotency key names two |
| Idempotency.OrphanPutHelpsNobody | internal/documents/service.go:166 | an object under a key that is not a row's own does not change whether that row verifies |
| RoundTrip.CreatorRoundTrip | internal/documents/service.go:133-244 | the whole way: the INSERT inserts and signs the row's key, a client puts a fitting object there, the creator calls Complete; whatever happens to other documents and keys, if nobody else completes this one and nothing unfit is put there afterwards, the answer is the document with its event logged iff CreatorMayComplete, and otherwise ErrNotFound |
| RoundTrip.UploadRoundTrip | internal/documents/service.go:194-244 | UploadContent by the creator of a pending document, with a body of the declared length and digest: whatever happens to other documents and keys, if nobody else completes this one and nothing unfit is put there after the call's own put, the answer is the document with its event logged iff CreatorMayComplete, and otherwise ErrNotFound |
| Evidence.AccessStable | internal/documents/service.go:281-309 | row selection and payment access decide the same in every later state, so get's two SELECTs decide as one |
| Evidence.CheckStands | internal/documents/evidence.go:29-64 | a passed version check passes in every later state with the same row, and the second lookup finds that row |
| Evidence.DownloadStands | internal/documents/service.go:266-280 | a passed download gate passes in every later state with the same row |
| Evidence.CheckedOpens | internal/documents/case.go:51-72 | a call that passed its check arrives at the open, in any company, with the checked row's own key, the row still that clean version and the object there |
| Grants.MintedReferences | internal/httpserver/payment_access.go:79-86 | a minted scope carries a reference only of its route's purpose, and then the granted one |
| Grants.TokenExactly | internal/httpserver/server.go:184-194 | the scope of a token alone: its tenant, environment and subject, its application or else the client of its session, and no reference |
| Grants.CaseMintExactly | internal/httpserver/case_access.go:27-77 | which callers get a case scope, for exactly which grants (made out to the caller, for the asked case, tenant, document, digest and intent), and every field of the scope |
| Grants.PaymentMintExactly | internal/httpserver/payment_access.go:33-93 | the same for receipts and statements: staff tokens without tenant or application, the one reference set by the route |
| Grants.AccountMintExactly | internal/httpserver/bank_account_access.go:28-101 | the same for bank accounts: a legal entity's without tenant, a party's with one |
| Grants.BankAccountScopeValid | internal/httpserver/bank_account_access.go:94-99 | a granted bank-account scope is valid iff the account reference is not blank |
| Grants.RoutesDisjoint | internal/httpserver/server.go:184-194 | a restricted document is read through a route only if it has that route's purpose and the granted reference; generic and case routes read none |
| Grants.CreatorCarries | internal/documents/service.go:81-89 | an accepted request for a restricted document came under a scope carrying its reference |
| Grants.CreatedUnderGrant | internal/documents/service.go:81-89 | in every reachable world a restricted document's creator held a scope for its reference |
| Grants.ReaderMatchesCreator | internal/documents/payment_access.go:17-45 | in every reachable world reader and creator of a restricted document carry the same reference of the same kind |
| Ordering.LessExactly | internal/documents/case.go:14 | one id comes before another iff it is a proper prefix of it or has the smaller character where they part |
| Ordering.SortedEnumerates | internal/documents/case.go:14 | ORDER BY public_id lists each id of the set once, in increasing order |
| Ordering.SortedUnique | internal/documents/case.go:14 | and is the only list that does |
| Paging.StableTraversal | internal/httpserver/case_access.go:86-100 | with nothing hidden a finished walk is strictly increasing, lists only ids of the case, and lists every id present throughout, whatever is inserted meanwhile |
| Paging.FixedWalk | internal/httpserver/case_access.go:95-100 | over unchanging data a client given Pages many requests ends, with the list WalkAll |
| Paging.OpenWalk | internal/httpserver/case_access.go:95-100 | with nothing hidden WalkAll is everything, in max(1, ceil(n/50)) pages |
| Paging.HiddenWalkIsPrefix | internal/documents/case.go:14-29 | with hidden rows the walk lists a prefix of what is visible |
| Paging.HiddenWalkExact | internal/documents/case.go:25 | the walk stops with the window of the first hidden row, so it lists everything visible iff nothing visible lies beyond that window |
| Collisions.HiddenWalkRun | internal/documents/case.go:25 | for any more than 51 case documents, one of the first 51 a receipt under the case's reference, a run after which a client following every cursor is never shown the last document, which the lookup by id shows |
| Paging.CursorIsListed | internal/httpserver/case_access.go:96-99 | a cursor is the last id of a full page and an id of the case beyond the old cursor |
| Paging.WindowExactly | internal/documents/case.go:14 | a query reads an id iff it is of the case, beyond the cursor, with fewer than 51 ids of the case in between |
| CaseList.ListExactly | internal/documents/case.go:10-30 | the list is refused with ErrEvidenceScope iff a field that names the case or its reader is missing; otherwise it holds, in increasing order, exactly the party's rows of that source beyond the cursor which the scope is entitled to, of the first 51 |
| CaseList.ListAgreesWithLookup | internal/documents/case.go:14-47 | a row passes the list's query and filter iff CaseUpload by its id succeeds |
| CaseList.CaseRouteShowsUnrestricted | internal/documents/case.go:25 | under a case grant the filter shows exactly the unrestricted documents |
| CaseList.CaseWalkComplete | internal/httpserver/case_access.go:81-101 | over a living database a finished walk lists every document the case had when it began, each once, in increasing order |
| CaseList.PartitionIndependent | internal/documents/service.go:301 | under a scope with a tenant all point readers answer the same on any two databases that agree on its tenant and environment |
| CaseList.PartitionIndependentList | internal/documents/case.go:14 | so does the list |
| CaseList.UpdatesStayInside | internal/documents/service.go:238-256 | Complete's and RecordScan's updates change no row but the addressed one, and only in the caller's partition |
| CaseList.WritersIndependent | internal/documents/service.go:238-256 | on databases that agree on the partition and the clock both updates find or miss alike, write the same row and leave them agreeing |
| Clamd.StreamParses | internal/malware/clamd.go:24-35 | a terminated stream parses to exactly its chunks, and only its own terminator ends it |
| Clamd.CutStreamTruncated | internal/malware/clamd.go:29-35 | any proper prefix of a session's stream parses as unfinished |
| Clamd.ChunksAreThePayload | internal/malware/clamd.go:23-34 | for every schedule of reads the frames written are the stream of non-empty chunks of at most 32768 bytes that together are the object's bytes |
| Clamd.FramingFaithful | internal/malware/clamd.go:23-35 | what clamd reads of a session is the object's bytes if the session finished and nothing otherwise |
| Clamd.SessionReceived | internal/malware/clamd.go:22-35 | a whole session of a body that ended well gives clamd its command and then exactly the bytes the body serves |
| Clamd.Content.Read | internal/malware/clamd.go:25 | one Read of the reused buffer takes the next delivery or as much of it as fits |
| Clamd.Conn.Write | internal/malware/clamd.go:22 | a connection takes a write whole, or the part before it broke |
| Clamd.WriteChunk | internal/malware/clamd.go:26-30 | length, then bytes; on failure a prefix of the frame has gone out |
| Clamd.CopyRead | internal/malware/clamd.go:25-30 | one turn of the loop keeps what was sent plus what is owed |
| Clamd.CommandText | internal/malware/clamd.go:22 | the command sent is the text zINSTREAM with its NUL |
| Clamd.ReplyTold | internal/malware/clamd.go:38-43 | a reply is clean iff, space and one final NUL aside, it ends in OK; infected iff it is not clean and FOUND stands in it behind a space with something other than space before; failed otherwise |
| Clamd.OKMeansClean | internal/malware/clamd.go:40 | any text and OK, with or without NUL, is clean |
| Clamd.FoundMeansInfected | internal/malware/clamd.go:39-41 | any text that is not all space, then a space and FOUND, with or without NUL, is infected; after nothing but space it is failed, because the space is trimmed off |
| Clamd.SilenceMeansFailed | internal/malware/clamd.go:42 | a reply in which neither stands is failed |
| Clamd.SendContent | internal/malware/clamd.go:23-34 | the loop writes every frame of an object that reads to its end, and otherwise a prefix of them, because a read failed or the connection broke |
| Clamd.Scan | internal/malware/clamd.go:16-44 | what was sent is always a prefix of the object's session; clean or infected is returned only after the whole session, and the outcome of a whole session is what the reply tells, clean, infected or failed; an error is returned iff the outcome is failed |
| Database.Store.Await | internal/documents/service.go:194-243 | between two statements other actors do anything and the next statement may fail; the thread itself is untouched |
| Database.Store.Advanced | internal/documents/service.go:194-243 | a statement that was the thread's next one takes the store to the next reachable world |
| Database.Store.GetIdempotent | internal/documents/service.go:169-183 | the lookup by idempotency key and the hash comparison |
| Database.Store.InsertDocument | internal/documents/service.go:142-165 | the creating transaction: constraints, DO UPDATE with its WHERE, other unique indexes, row and event together |
| Database.Store.Get | internal/documents/service.go:281-309 | get with and without a tenant, then payment access |
| Database.Store.Quarantine | internal/documents/service.go:238 | Complete's UPDATE and whether it found its row |
| Database.Store.FirstUploaded | cmd/scanner/main.go:44 | a candidate uploaded no later than every other |
| Database.Store.ClaimOldest | cmd/scanner/main.go:41-49 | an oldest claimable row is leased and returned, or none is claimable and nothing changes |
| Database.Store.RecordVerdict | internal/documents/service.go:256 | RecordScan's UPDATE and whether it found its row |
| Database.Store.AppendAudit | internal/documents/service.go:242 | the event is appended iff its document exists, within the partition if one is named |
| Database.Store.PutObject | internal/objectstore/s3.go:59-65 | the object replaces what its key held |
| Database.Store.Verify | internal/objectstore/s3.go:66-74 | an object lies at the row's key, its length the declared one, its digest metadata the declared digest; the three columns written out |
| Database.Store.QueryCase | internal/documents/case.go:14 | the first 51 ids of the case beyond the cursor, in order |
| Service.DocumentService.PrepareRequest | internal/documents/service.go:81-117 | the rewriting of scope and request step by step is Prepare |
| Service.DocumentService.Create | internal/documents/service.go:80-168 | runs as its thread; a session names a stored row that answers the request; a scope that does not cover the request is answered ErrEvidenceScope, an ill-formed request ErrConflict |
| Service.DocumentService.InsertRow | internal/documents/service.go:133-165 | the creating transaction is the thread's insert step, and the key signed after it is the one just made up |
| Service.DocumentService.UploadContent | internal/documents/service.go:194-218 | runs as its thread; success means the document has left pending_upload and the body has its declared length and digest |
| Service.DocumentService.CompleteFrom | internal/documents/service.go:219-244 | get, verify, update and audit as four steps with anything between them |
| Service.DocumentService.Complete | internal/documents/service.go:219-244 | runs as its thread; success means the document has left pending_upload and this call had found an object of the declared length and digest metadata at its key |
| Service.DocumentService.RecordScan | internal/documents/service.go:245-265 | runs as its thread; a recorded clean result means the document is available, a recorded infected one that it is rejected; an unknown outcome is ErrConflict |
| Service.DocumentService.ClaimRow | cmd/scanner/main.go:41-49 | the claim is the thread's claim step: a leased row, or idle |
| Service.DocumentService.ProcessOne | cmd/scanner/main.go:39-57 | runs as its thread; a clean or infected verdict is recorded only if what clamd received, read as INSTREAM, is exactly the bytes that lay at the recorded document's own key when this worker opened it, and clamd's reply says clean or infected |
| Service.DocumentService.OpenForScan | cmd/scanner/main.go:50 | what is handed to the scan serves the bytes at the document's key as it is opened, cut into reads in any way and perhaps breaking off |
| Service.DocumentService.Download | internal/documents/service.go:266-280 | runs as its thread; a signed key is the key of an available clean document |
| Service.DocumentService.VerifyVersion | internal/documents/evidence.go:42-63 | check and event are one atomic step; a pass means the row is the party's (of the asked source, within the scope's entitlement) or the account's, for good |
| Service.DocumentService.Evidence | internal/documents/evidence.go:16-64 | a pass names the asked document, available and clean, with the asked digest; it is the party's (of the asked source, within the scope's entitlement) or the account's |
| Service.DocumentService.OpenEvidence | internal/documents/bank_account.go:59-80 | a stream is of the checked document's own key, still available, clean, of the asked digest, and the party's or the account's as for Evidence |
| Service.DocumentService.CaseUpload | internal/documents/case.go:34-47 | the case binding, then get |
| Service.DocumentService.BankAccountDocument | internal/documents/bank_account.go:19-32 | the account binding, then get |
| Service.DocumentService.CaseUploads | internal/documents/case.go:10-30 | the filtered rows of the query, in order |
| Routes.RouteReadsExactly | internal/httpserver/payment_access.go:135-148 | a route shows a document iff it belongs to the granted record: tenant, environment, reference, owner and purpose |
| Routes.SessionBelongs | internal/httpserver/bank_account_access.go:108-133 | a session opened through a route is for a document of the granted record iff the party id is not padded with space and a lender's account is not misread as a tenant |
| Routes.SessionColumns | internal/httpserver/payment_access.go:96-134 | what each route fixes about the documents it opens sessions for: purpose, document type, classification, retention, the caller as creator; content type, size and digest are the uploader's |
| Routes.SessionCovered | internal/httpserver/payment_access.go:111-134 | the minted scope covers the request its handler builds iff a bank account's reference is not blank, and can complete it iff the account is not misread |
| Misnamed.UnfaithfulRun | internal/httpserver/case_access.go:119-142 | wherever the names do not survive and the request is accepted, a run opens the session, and whoever comes with the grant, at any later time, is never shown its document by the route |
| Misnamed.MisreadRun | internal/httpserver/bank_account_access.go:108-159 | for a lender's account misread as a tenant, moreover, no later Complete under the grant gets past its first statement |
| Misnamed.BothHappen | internal/documents/service.go:93-110 | both happen: the lender's account "ten_1", and a case grant for the party " 7" |
| Routes.ParseAccountQuery | internal/httpserver/bank_account_access.go:39-64 | accepts exactly the queries that name at most one digest and either one trimmed tenant or the lender, and nothing else |
| Routes.Handlers.AuthorizeCase | internal/httpserver/case_access.go:27-77 | the scope filled in field by field is the case route's scope |
| Routes.Handlers.AuthorizeBankEvidence | internal/httpserver/payment_access.go:33-93 | receipt and statement references, never both |
| Routes.Handlers.AuthorizeBankAccount | internal/httpserver/bank_account_access.go:28-101 | the bank-account route's scope |
| Routes.Handlers.OpenSession | internal/httpserver/payment_access.go:111-134 | fresh, replayed or deduplicated, the session's document belongs to the granted record iff the grant's names survive Create's rewriting; the answer is that of the Create call for the route's request, and none without a grant |
| Routes.Handlers.PutContent | internal/httpserver/payment_access.go:149-166 | completed content belongs to the granted record for good and has the declared length and digest; the answer is the lookup's refusal or that of the UploadContent call |
| Routes.Handlers.GetPaymentContent | internal/httpserver/payment_access.go:167-188 | what is streamed belongs to the granted record, is available and clean, and has the asked digest; the answer is the check's refusal, ErrNotFound for a document of another purpose, or that of the call that opens |
| Routes.Handlers.GetAccountContent | internal/httpserver/bank_account_access.go:160-174 | the same for bank-account documents; the answer is that of the call that opens |
| Routes.Handlers.GetCaseContent | internal/httpserver/case_access.go:102-118 | a case grant streams only clean, unrestricted documents of the granted party; the answer is that of the call that opens |
| Routes.Handlers.ListCase | internal/httpserver/case_access.go:81-101 | at most 50 rows, a cursor iff the filter left more, and refusal of long cursors |

## Left out

- HTTP routing, headers, JSON decoding, status codes, and the calls to the owning services: a grant is an arbitrary record constrained by the equalities the authorize functions check.
- Reads with no later step (the GET of one document, the evidence-verification routes): they return what `Look` and `Evidence` return.
- OIDC verification, configuration, start-up, shutdown and the scanner's polling loop; `Party.Exists` is an arbitrary boolean per call.
- S3 signing, TTLs and URL formats: a signed request is its key, a presigned PUT is any object under any key at any time.
- Byte integrity for presigned PUTs: the code compares metadata only, so what holds of them is `Integrity.UploadedHasObject`, and `Witnesses.UnmatchedBytesRun` shows that no more does.
- What clamd finds in given bytes: its verdict is any outcome; a posted scan result rests on no scan this service knows of.
- SHA-256 is a parameter function for content; the request hash is represented by the request it hashes, which assumes it does not collide.
- Random ids and time: ids are inputs, unused and of one length only where a theorem says so; the clock is a count of seconds that never runs back.
- PostgreSQL internals: statements and transactions are atomic, and `SKIP LOCKED` never meets a competing lock.
- Ties in `ORDER BY uploaded_at` are left open; `Queue.NoStarvation` therefore starts once the clock has passed the document's upload instant.
- The two SELECTs of `get`, and the binding SELECT before it in `CaseUpload` and `BankAccountDocument`, are one step; `Evidence.AccessStable` shows that a pause between them changes nothing.
- VARCHAR widths are not checked: a value too long for its column makes the statement fail, which is the failure any statement may meet.
- Rows from before migration 2, whose idempotency key is NULL; every row here has one, as every row `Create` inserts does.
- `len` counts characters, not UTF-8 bytes, and upper- and lower-casing covers ASCII; the values compared are ASCII words, digests and ids.
- The order of ids is by character code, as in the C collation.
- The reason text of a scan and the time stamp of audit events.
- Routes.Handlers.GetCaseContent: does not claim that the document belongs to the granted case, because the route checks the party only and leaves the case to the service that granted access.
