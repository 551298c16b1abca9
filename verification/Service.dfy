/** The service's Go methods, statement by statement, each one a thread of the transition system in Calls. */
module Service {
  import opened Text
  import opened Schema
  import opened Access
  import opened Statements
  import opened Creation
  import opened Calls
  import opened Threads
  import opened Steps
  import opened Scanning
  import opened Uploads
  import opened Gates
  import opened Requests
  import opened Paging
  import opened CaseList
  import Clamd
  import opened Database

  /** For steps that leave nothing to chance. */
  const IDLE := Choice("", 0, true, "", true, FailedOutcome)

  class DocumentService {
    const store: Store
    const digest: Digest
    const uploadTtl: nat

    constructor (store: Store, digest: Digest, uploadTtl: nat)
      requires store.Valid() && store.digest == digest
      ensures Valid() && this.store == store
    {
      this.store, this.digest, this.uploadTtl := store, digest, uploadTtl;
    }

    ghost predicate Valid()
      reads this, store
    {
      store.Valid() && store.digest == digest
    }

    ghost predicate At(tid: nat, call: Call, pc: Pc)
      reads this, store
    {
      tid in store.threads && store.threads[tid] == Thread(call, pc)
    }

    /** The knowledge every reachable thread has, as facts about the store as it is now. */
    lemma Know(tid: nat)
      requires Valid() && tid in store.threads
      ensures ThreadOk(digest, store.State(), store.threads[tid])
    {
      ReachableOk(digest, store.trace);
      assert ThreadOk(digest, store.Current().db, store.Current().threads[tid]);
    }

    lemma KnowKeyed()
      requires Valid()
      ensures Registered(store.State()) && UniqueKeys(store.State())
    {
      ReachableDbInv(digest, store.trace, []);
    }

    lemma KnowIds()
      requires Valid()
      ensures Keyed(store.State())
    {
      KnowKeyed();
    }

    /** A registration once in the store is there for good. */
    lemma StillKnown(before: seq<Act>, reg: Registration)
      requires Valid() && before <= store.trace && Known(Reachable(digest, before).db, reg)
      ensures Known(store.State(), reg)
    {
      ReachableDbInv(digest, before, store.trace[|before|..]);
      assert before + store.trace[|before|..] == store.trace;
      KnownStays(Reachable(digest, before).db, Reachable(digest, store.trace).db, reg);
    }

    lemma StillAdmitted(before: seq<Act>, gate: Gate, scope: Scope, id: string)
      requires Valid() && before <= store.trace && Admitted(Reachable(digest, before).db, gate, scope, id)
      ensures Admitted(store.State(), gate, scope, id)
    {
      ReachableDbInv(digest, before, store.trace[|before|..]);
      assert before + store.trace[|before|..] == store.trace;
      AdmittedStays(Reachable(digest, before).db, Reachable(digest, store.trace).db, gate, scope, id);
    }

    /** Complete's get, status check and scope resolution. */
    method GetPending(ghost tid: nat, ghost call: Call, scope: Scope, id: string) returns (plan: Result<(Row, Partition)>)
      requires Valid() && At(tid, call, CompleteGet) && Completing(call, id) && call.scope == scope
      modifies store
      ensures Valid() && old(store.trace) <= store.trace
      ensures At(tid, call, if plan.Ok? then CompleteVerify(plan.value.0.reg, plan.value.1) else Done(Refusal(plan.error)))
    {
      var ok := store.Await(tid);
      if !ok { return Err(ErrInternal); }
      ghost var w := store.Current();
      var got := store.Get(scope, id);
      CompleteGetRuns(digest, w.db, w.threads[tid], IDLE);
      store.Advanced(w, tid, IDLE);
      if got.Err? { return Err(got.error); }
      var out := got.value;
      if out.status != PendingUpload { return Err(ErrConflict); }
      var resolved := scope;
      if resolved.tenant == "" {
        resolved := resolved.(tenant := out.reg.tenant, environment := out.reg.environment);
      }
      if (resolved.tenant == "" && !(out.reg.purpose == BANK_ACCOUNT_VERIFICATION && ValidBankAccountScope(resolved))) || resolved.environment == "" {
        return Err(ErrNotFound);
      }
      return Ok((out, Partition(resolved.tenant, resolved.environment)));
    }

    /** Complete's object check. */
    method VerifyObject(ghost tid: nat, ghost call: Call, reg: Registration, within: Partition) returns (verified: Result<()>)
      requires Valid() && At(tid, call, CompleteVerify(reg, within))
      modifies store
      ensures Valid() && old(store.trace) <= store.trace
      ensures At(tid, call, if verified.Ok? then CompleteUpdate(reg, within) else Done(Refusal(verified.error)))
    {
      var ok := store.Await(tid);
      if !ok { return Err(ErrInternal); }
      ghost var w := store.Current();
      var found := store.Verify(reg);
      VerifyRuns(digest, w.db, w.threads[tid], IDLE);
      store.Advanced(w, tid, IDLE);
      return if found then Ok(()) else Err(ErrConflict);
    }

    /** Complete's UPDATE; no row is a plain error. */
    method MarkQuarantined(ghost tid: nat, ghost call: Call, reg: Registration, within: Partition) returns (marked: Result<()>)
      requires Valid() && At(tid, call, CompleteUpdate(reg, within))
      modifies store
      ensures Valid() && old(store.trace) <= store.trace
      ensures At(tid, call, if marked.Ok? then CompleteAudit else Done(Refusal(marked.error)))
    {
      var ok := store.Await(tid);
      if !ok { return Err(ErrInternal); }
      ghost var w := store.Current();
      KnowIds();
      var found := store.Quarantine(reg.id, within);
      QuarantineRuns(digest, w.db, w.threads[tid], IDLE);
      store.Advanced(w, tid, IDLE);
      return if found then Ok(()) else Err(ErrInternal);
    }

    /** Complete's audit event, a statement of its own. */
    method ReportUpload(ghost tid: nat, ghost call: Call, scope: Scope, id: string) returns (reported: Result<()>)
      requires Valid() && At(tid, call, CompleteAudit) && Completing(call, id) && call.scope == scope
      modifies store
      ensures Valid() && old(store.trace) <= store.trace
      ensures At(tid, call, Done(if reported.Ok? then Completed(id) else Refusal(reported.error)))
      ensures reported.Ok? ==> Arrived(store.State(), id)
    {
      var ok := store.Await(tid);
      if !ok { return Err(ErrInternal); }
      ghost var w := store.Current();
      UploadReportRuns(digest, w.db, w.threads[tid], IDLE);
      store.AppendAudit(Event(scope, id, UploadVerifiedQuarantined), None);
      store.Advanced(w, tid, IDLE);
      Know(tid);
      return Ok(());
    }

    /** service.go, Complete, from its get on; UploadContent ends here too. */
    method CompleteFrom(ghost tid: nat, ghost call: Call, scope: Scope, id: string) returns (reply: Reply)
      requires Valid() && At(tid, call, CompleteGet) && Completing(call, id) && call.scope == scope
      modifies store
      ensures Valid() && At(tid, call, Done(reply)) && old(store.trace) <= store.trace
      ensures reply.Completed? ==> reply.id == id && Arrived(store.State(), id)
    {
      var plan := GetPending(tid, call, scope, id);
      if plan.Err? { return Refusal(plan.error); }
      var (out, within) := plan.value;
      reply := Transition(tid, call, scope, id, out.reg, within);
    }

    /** The object check, the UPDATE and the audit event. */
    method Transition(ghost tid: nat, ghost call: Call, scope: Scope, id: string, reg: Registration, within: Partition) returns (reply: Reply)
      requires Valid() && At(tid, call, CompleteVerify(reg, within)) && Completing(call, id) && call.scope == scope
      modifies store
      ensures Valid() && At(tid, call, Done(reply)) && old(store.trace) <= store.trace
      ensures reply.Completed? ==> reply.id == id && Arrived(store.State(), id)
    {
      var verified := VerifyObject(tid, call, reg, within);
      if verified.Err? { return Refusal(verified.error); }
      var marked := MarkQuarantined(tid, call, reg, within);
      if marked.Err? { return Refusal(marked.error); }
      var reported := ReportUpload(tid, call, scope, id);
      if reported.Err? { return Refusal(reported.error); }
      return Completed(id);
    }

    /** service.go, Complete; success means that this call had found an object of the declared length and digest metadata at the
        document's key. */
    method Complete(ghost tid: nat, scope: Scope, id: string) returns (reply: Reply)
      requires Valid() && tid !in store.threads
      modifies store
      ensures Valid() && At(tid, Call.Complete(scope, id), Done(reply)) && old(store.trace) <= store.trace
      ensures reply.Completed? ==> reply.id == id && Arrived(store.State(), id) && Found(digest, store.trace, tid, store.rows[id].reg)
    {
      store.Begin(tid, Call.Complete(scope, id));
      reply := CompleteFrom(tid, Call.Complete(scope, id), scope, id);
      if reply.Completed? { CompletedHadFound(digest, store.trace, tid, id); }
    }

    /** UploadContent's get and its checks of the body. */
    method GetForUpload(ghost tid: nat, scope: Scope, id: string, body: seq<byte>) returns (target: Result<Row>)
      requires Valid() && At(tid, Call.UploadContent(scope, id, body), UploadGet)
      modifies store
      ensures Valid() && old(store.trace) <= store.trace
      ensures At(tid, Call.UploadContent(scope, id, body), if target.Ok? then UploadPut(target.value.reg) else Done(Refusal(target.error)))
      ensures target.Ok? ==> target.value.reg.id == id && Known(store.State(), target.value.reg) && Declared(digest, target.value.reg, body)
    {
      var ok := store.Await(tid);
      if !ok { return Err(ErrInternal); }
      ghost var w := store.Current();
      KnowKeyed();
      var got := store.Get(scope, id);
      store.Advanced(w, tid, IDLE);
      if got.Err? { return Err(got.error); }
      var out := got.value;
      if out.status != PendingUpload { return Err(ErrConflict); }
      var buf := ReadAtMost(body, out.reg.size + 1);
      if |buf| != out.reg.size { return Err(ErrConflict); }
      assert buf == body;
      if digest(buf) != out.reg.sha256 { return Err(ErrConflict); }
      Know(tid);
      return Ok(out);
    }

    /** PutObject with the checked bytes. */
    method PutChecked(ghost tid: nat, scope: Scope, id: string, body: seq<byte>, reg: Registration) returns (put: Result<()>)
      requires Valid() && At(tid, Call.UploadContent(scope, id, body), UploadPut(reg))
      modifies store
      ensures Valid() && old(store.trace) <= store.trace
      ensures At(tid, Call.UploadContent(scope, id, body), if put.Ok? then CompleteGet else Done(Refusal(put.error)))
    {
      var ok := store.Await(tid);
      if !ok { return Err(ErrInternal); }
      ghost var w := store.Current();
      store.PutObject(reg.objectKey, StoredObject(body, reg.sha256));
      store.Advanced(w, tid, IDLE);
      return Ok(());
    }

    /** service.go, UploadContent. */
    method UploadContent(ghost tid: nat, scope: Scope, id: string, body: seq<byte>) returns (reply: Reply)
      requires Valid() && tid !in store.threads
      modifies store
      ensures Valid() && At(tid, Call.UploadContent(scope, id, body), Done(reply)) && old(store.trace) <= store.trace
      ensures reply.Completed? ==> reply.id == id && Arrived(store.State(), id) && Declared(digest, store.rows[id].reg, body)
    {
      ghost var call := Call.UploadContent(scope, id, body);
      store.Begin(tid, call);
      var target := GetForUpload(tid, scope, id, body);
      if target.Err? { return Refusal(target.error); }
      ghost var before := store.trace;
      var put := PutChecked(tid, scope, id, body, target.value.reg);
      if put.Err? { return Refusal(put.error); }
      reply := CompleteFrom(tid, call, scope, id);
      StillKnown(before, target.value.reg);
    }

    /** RecordScan's UPDATE; no row is a conflict. */
    method UpdateVerdict(ghost tid: nat, ghost call: Call, scope: Scope, id: string, outcome: Outcome, ghost origin: Option<Work>) returns (updated: Result<()>)
      requires Valid() && At(tid, call, RecordUpdate(scope, id, outcome, origin))
      modifies store
      ensures Valid() && old(store.trace) <= store.trace
      ensures At(tid, call, if updated.Ok? then RecordAudit(scope, id, outcome) else Done(Refusal(updated.error)))
    {
      var ok := store.Await(tid);
      if !ok { return Err(ErrInternal); }
      ghost var w := store.Current();
      KnowIds();
      var found := store.RecordVerdict(id, Partition(scope.tenant, scope.environment), outcome);
      RecordRuns(digest, w.db, w.threads[tid], IDLE);
      store.Advanced(w, tid, IDLE);
      return if found then Ok(()) else Err(ErrConflict);
    }

    /** RecordScan's audit event, a statement of its own. */
    method ReportVerdict(ghost tid: nat, ghost call: Call, scope: Scope, id: string, outcome: Outcome) returns (reported: Result<()>)
      requires Valid() && At(tid, call, RecordAudit(scope, id, outcome))
      modifies store
      ensures Valid() && old(store.trace) <= store.trace
      ensures At(tid, call, Done(if reported.Ok? then Recorded(id, outcome) else Refusal(reported.error)))
    {
      var ok := store.Await(tid);
      if !ok { return Err(ErrInternal); }
      ghost var w := store.Current();
      RecordReportRuns(digest, w.db, w.threads[tid], IDLE);
      store.AppendAudit(Event(scope, id, MalwareScan(outcome)), None);
      store.Advanced(w, tid, IDLE);
      return Ok(());
    }

    /** service.go, RecordScan's two statements, for an outcome it accepts. */
    method RecordFrom(ghost tid: nat, ghost call: Call, scope: Scope, id: string, outcome: Outcome, ghost origin: Option<Work>) returns (reply: Reply)
      requires Valid() && At(tid, call, RecordUpdate(scope, id, outcome, origin))
      modifies store
      ensures Valid() && At(tid, call, Done(reply)) && old(store.trace) <= store.trace
      ensures reply.Recorded? ==> reply.id == id && reply.outcome == outcome
    {
      var updated := UpdateVerdict(tid, call, scope, id, outcome, origin);
      if updated.Err? { return Refusal(updated.error); }
      var reported := ReportVerdict(tid, call, scope, id, outcome);
      if reported.Err? { return Refusal(reported.error); }
      return Recorded(id, outcome);
    }

    /** service.go, RecordScan, as the scan-result route calls it. */
    method RecordScan(ghost tid: nat, scope: Scope, id: string, outcome: Outcome) returns (reply: Reply)
      requires Valid() && tid !in store.threads
      modifies store
      ensures Valid() && At(tid, Call.RecordScan(scope, id, outcome), Done(reply)) && old(store.trace) <= store.trace
      ensures outcome.Unrecognised? ==> reply == Refusal(ErrConflict)
      ensures reply.Recorded? ==> reply.id == id && reply.outcome == outcome && id in store.rows
      ensures reply.Recorded? && outcome == CleanOutcome ==> store.rows[id].status == Available
      ensures reply.Recorded? && outcome == InfectedOutcome ==> store.rows[id].status == Rejected
    {
      ghost var call := Call.RecordScan(scope, id, outcome);
      store.Begin(tid, call);
      if outcome.Unrecognised? {
        return Refusal(ErrConflict);
      }
      reply := RecordFrom(tid, call, scope, id, outcome, None);
      Know(tid);
    }

    /** service.go:81-117, the checks and the rewriting of scope and request. */
    method PrepareRequest(scope0: Scope, input0: CreateInput) returns (prepared: Result<Request>)
      ensures prepared == Prepare(scope0, input0)
    {
      if !GrantCovers(scope0, input0) { return Err(ErrEvidenceScope); }
      var scope, input := scope0, input0;
      input := input.(filename := Base(TrimSpace(input.filename)));
      input := input.(sha256 := ToLower(TrimSpace(input.sha256)));
      input := input.(idempotencyKey := TrimSpace(input.idempotencyKey));
      input := input.(ownerType := ToUpper(TrimSpace(input.ownerType)));
      input := input.(ownerId := TrimSpace(input.ownerId));
      if input.ownerType == "" && input.partyId != "" {
        input := input.(ownerType := "PARTY", ownerId := input.partyId);
      }
      if input.ownerType == "PARTY" {
        input := input.(partyId := input.ownerId);
      } else {
        input := input.(partyId := "");
      }
      assert input == Normalise(input0);
      if scope.tenant == "" && HasPrefix(input.sourceReference, "ten_") {
        scope := scope.(tenant := input.sourceReference);
      }
      if scope.environment == "" {
        scope := scope.(environment := "sandbox");
      }
      if !Acceptable(scope, input) { return Err(ErrConflict); }
      return Ok(Request(scope, input));
    }

    /** The idempotency lookup; None when Create must go on. */
    method LookUp(ghost tid: nat, ghost call: Call, r: Request) returns (early: Option<Reply>)
      requires Valid() && At(tid, call, CreateLookup(r))
      modifies store
      ensures Valid() && old(store.trace) <= store.trace
      ensures At(tid, call, if early.Some? then Done(early.value) else if r.input.ownerType == "PARTY" then CreateParty(r) else CreateInsert(r))
    {
      var ok := store.Await(tid);
      if !ok { return Some(Refusal(ErrInternal)); }
      ghost var w := store.Current();
      KnowKeyed();
      var existing := store.GetIdempotent(r);
      store.Advanced(w, tid, IDLE);
      if existing.Ok? { return Some(Session(existing.value.reg.id, existing.value.reg.objectKey)); }
      return if existing.error != ErrNotFound then Some(Refusal(existing.error)) else None;
    }

    /** The Party service's answer; only asked for PARTY owners. */
    method CheckParty(ghost tid: nat, ghost call: Call, r: Request, partyExists: bool) returns (early: Option<Reply>)
      requires Valid() && At(tid, call, CreateParty(r))
      modifies store
      ensures Valid() && old(store.trace) <= store.trace
      ensures At(tid, call, if early.Some? then Done(early.value) else CreateInsert(r))
    {
      var ok := store.Await(tid);
      if !ok { return Some(Refusal(ErrInternal)); }
      ghost var w := store.Current();
      store.Advanced(w, tid, IDLE.(partyExists := partyExists));
      return if partyExists then None else Some(Refusal(ErrConflict));
    }

    /** The creating transaction. */
    method InsertRow(ghost tid: nat, ghost call: Call, r: Request, id: string) returns (upsert: Upsert)
      requires Valid() && At(tid, call, CreateInsert(r))
      modifies store
      ensures Valid() && old(store.trace) <= store.trace
      ensures At(tid, call, Done(SessionOf(r, id, upsert)))
    {
      ghost var w := store.Current();
      KnowKeyed();
      InsertRuns(digest, w.db, w.threads[tid], IDLE.(id := id, ttl := uploadTtl));
      var reg := Register(r, id, store.now);
      upsert := store.InsertDocument(reg, store.now + uploadTtl, Event(r.scope, id, UploadAuthorized));
      store.Advanced(w, tid, IDLE.(id := id, ttl := uploadTtl));
    }

    /** The INSERT, and the key that is signed after it. */
    method Insert(ghost tid: nat, ghost call: Call, r: Request, id: string) returns (reply: Reply)
      requires Valid() && At(tid, call, CreateInsert(r))
      modifies store
      ensures Valid() && old(store.trace) <= store.trace
      ensures At(tid, call, Done(reply))
    {
      var key := ObjectKey(r.scope, r.input, id);
      var ok := store.Await(tid);
      if !ok { return Refusal(ErrInternal); }
      var upsert := InsertRow(tid, call, r, id);
      match upsert
      case Inserted => return Session(id, key);
      case Refreshed(existing) => return Session(existing, key);
      case Refused => return Refusal(ErrConflict);
      case Violation => return Refusal(ErrInternal);
    }

    /** service.go, Create; newId is newID's random answer. */
    method Create(ghost tid: nat, scope: Scope, input: CreateInput, newId: string, partyExists: bool) returns (reply: Reply)
      requires Valid() && tid !in store.threads
      modifies store
      ensures Valid() && At(tid, Call.Create(scope, input), Done(reply)) && old(store.trace) <= store.trace
      ensures reply.Session? ==>
        && Prepare(scope, input).Ok? && reply.id in store.rows
        && Answers(store.rows[reply.id].reg, Prepare(scope, input).value)
      ensures !Covered(scope, input) ==> reply == Refusal(ErrEvidenceScope)
      ensures Covered(scope, input) && !WellFormed(scope, input) ==> reply == Refusal(ErrConflict)
    {
      AcceptedExactly(scope, input);
      ghost var call := Call.Create(scope, input);
      store.Begin(tid, call);
      var prepared := PrepareRequest(scope, input);
      if prepared.Err? { return Refusal(prepared.error); }
      reply := CreateFrom(tid, call, prepared.value, newId, partyExists);
      Know(tid);
    }

    method CreateFrom(ghost tid: nat, ghost call: Call, r: Request, newId: string, partyExists: bool) returns (reply: Reply)
      requires Valid() && At(tid, call, CreateLookup(r))
      modifies store
      ensures Valid() && At(tid, call, Done(reply)) && old(store.trace) <= store.trace
    {
      var early := LookUp(tid, call, r);
      if early.Some? { return early.value; }
      if r.input.ownerType == "PARTY" {
        early := CheckParty(tid, call, r, partyExists);
        if early.Some? { return early.value; }
      }
      reply := Insert(tid, call, r, newId);
    }

    /** service.go, Download: get, gate, sign, audit. */
    method Download(ghost tid: nat, scope: Scope, id: string) returns (reply: Reply)
      requires Valid() && tid !in store.threads
      modifies store
      ensures Valid() && At(tid, Call.Download(scope, id), Done(reply)) && old(store.trace) <= store.trace
      ensures reply.Signed? ==> reply.id in store.rows && Released(store.State(), store.rows[reply.id].reg) && store.rows[reply.id].reg.objectKey == reply.key
    {
      ghost var call := Call.Download(scope, id);
      store.Begin(tid, call);
      var gated := GetReleased(tid, scope, id);
      if gated.Err? { return Refusal(gated.error); }
      var reported := ReportDownload(tid, scope, id, gated.value.reg);
      if reported.Err? { return Refusal(reported.error); }
      Know(tid);
      return Signed(gated.value.reg.id, gated.value.reg.objectKey);
    }

    method GetReleased(ghost tid: nat, scope: Scope, id: string) returns (gated: Result<Row>)
      requires Valid() && At(tid, Call.Download(scope, id), DownloadGet)
      modifies store
      ensures Valid() && old(store.trace) <= store.trace
      ensures At(tid, Call.Download(scope, id), if gated.Ok? then DownloadAudit(gated.value.reg) else Done(Refusal(gated.error)))
    {
      var ok := store.Await(tid);
      if !ok { return Err(ErrInternal); }
      ghost var w := store.Current();
      DownloadRuns(digest, w.db, w.threads[tid], IDLE);
      var got := store.Get(scope, id);
      store.Advanced(w, tid, IDLE);
      if got.Err? { return Err(got.error); }
      if got.value.status != Available || got.value.scan != Clean { return Err(ErrConflict); }
      return got;
    }

    method ReportDownload(ghost tid: nat, scope: Scope, id: string, reg: Registration) returns (reported: Result<()>)
      requires Valid() && At(tid, Call.Download(scope, id), DownloadAudit(reg))
      modifies store
      ensures Valid() && old(store.trace) <= store.trace
      ensures At(tid, Call.Download(scope, id), Done(if reported.Ok? then Signed(reg.id, reg.objectKey) else Refusal(reported.error)))
    {
      var ok := store.Await(tid);
      if !ok { return Err(ErrInternal); }
      ghost var w := store.Current();
      DownloadReportRuns(digest, w.db, w.threads[tid], IDLE);
      store.AppendAudit(Event(scope, id, DownloadAuthorized), None);
      store.Advanced(w, tid, IDLE);
      return Ok(());
    }

    /** verifyEvidence and BankAccountEvidence: one transaction that locks the row, checks it and logs the check. */
    method VerifyVersion(ghost tid: nat, ghost call: Call, scope: Scope, id: string, gate: Gate) returns (checked: Result<Row>)
      requires Valid() && At(tid, call, VersionCheck)
      requires (call.Evidence? || call.OpenEvidence?) && call.scope == scope && call.id == id && call.gate == gate
      modifies store
      ensures Valid() && old(store.trace) <= store.trace
      ensures At(tid, call,
        if checked.Err? then Done(Refusal(checked.error))
        else if call.OpenEvidence? then VersionFetch(checked.value.reg) else Done(Checked(checked.value.reg)))
      ensures checked.Ok? ==> Known(store.State(), checked.value.reg) && checked.value.reg.id == id && Admitted(store.State(), gate, scope, id)
    {
      var ok := store.Await(tid);
      if !ok { return Err(ErrInternal); }
      ghost var db := store.State();
      KnowKeyed();
      checked := CheckAndLog(tid, call, scope, id, gate);
      if checked.Ok? { PassedHere(db, store.State(), gate, scope, id); }
    }

    /** The transaction itself. */
    method CheckAndLog(ghost tid: nat, ghost call: Call, scope: Scope, id: string, gate: Gate) returns (pass: Result<Row>)
      requires Valid() && At(tid, call, VersionCheck)
      requires (call.Evidence? || call.OpenEvidence?) && call.scope == scope && call.id == id && call.gate == gate
      modifies store
      ensures Valid() && old(store.trace) <= store.trace
      ensures pass == CheckVersion(old(store.State()), gate, scope, id) && store.rows == old(store.rows)
      ensures At(tid, call, AfterCheck(call, pass))
    {
      ghost var w := store.Current();
      CheckRuns(digest, w.db, w.threads[tid], IDLE);
      pass := CheckVersion(Db(store.rows, store.audit, store.objects, store.now), gate, scope, id);
      if pass.Ok? {
        store.AppendAudit(GateEvent(scope, id, gate, CheckedAction(gate)), None);
      }
      store.Advanced(w, tid, IDLE);
    }

    lemma PassedHere(db: Db, db': Db, gate: Gate, scope: Scope, id: string)
      requires Keyed(db) && db'.rows == db.rows && CheckVersion(db, gate, scope, id).Ok?
      ensures var row := CheckVersion(db, gate, scope, id).value; Known(db', row.reg) && row.reg.id == id
      ensures Admitted(db', gate, scope, id)
    {
      PassedIsAdmitted(db, gate, scope, id);
    }

    /** evidence.go and bank_account.go: the evidence checks. */
    method Evidence(ghost tid: nat, scope: Scope, id: string, gate: Gate) returns (reply: Reply)
      requires Valid() && tid !in store.threads
      modifies store
      ensures Valid() && At(tid, Call.Evidence(scope, id, gate), Done(reply)) && old(store.trace) <= store.trace
      ensures reply.Checked? || reply.Refusal?
      ensures reply.Checked? ==>
        && reply.document.id == id && Released(store.State(), reply.document)
        && reply.document.sha256 == gate.digest && Admitted(store.State(), gate, scope, id)
    {
      ghost var call := Call.Evidence(scope, id, gate);
      store.Begin(tid, call);
      var checked := VerifyVersion(tid, call, scope, id, gate);
      if checked.Err? { return Refusal(checked.error); }
      Know(tid);
      return Checked(checked.value.reg);
    }

    /** The second lookup, which finds the key to open. */
    method Fetch(ghost tid: nat, scope: Scope, id: string, gate: Gate, reg: Registration) returns (stored: Result<Row>)
      requires Valid() && At(tid, Call.OpenEvidence(scope, id, gate), VersionFetch(reg))
      modifies store
      ensures Valid() && old(store.trace) <= store.trace
      ensures At(tid, Call.OpenEvidence(scope, id, gate), if stored.Ok? then VersionAudit(reg, stored.value.reg) else Done(Refusal(stored.error)))
    {
      var ok := store.Await(tid);
      if !ok { return Err(ErrInternal); }
      ghost var w := store.Current();
      var db := Db(store.rows, store.audit, store.objects, store.now);
      FetchRuns(digest, w.db, w.threads[tid], IDLE);
      match gate {
        case PartyVersion(_, _, _) => stored := store.Get(scope, id);
        case BankAccountVersion(_) => stored := BankAccountDocument(scope, id);
      }
      store.Advanced(w, tid, IDLE);
    }

    method ReportOpen(ghost tid: nat, scope: Scope, id: string, gate: Gate, reg: Registration, stored: Registration) returns (reported: Result<()>)
      requires Valid() && At(tid, Call.OpenEvidence(scope, id, gate), VersionAudit(reg, stored))
      modifies store
      ensures Valid() && old(store.trace) <= store.trace
      ensures At(tid, Call.OpenEvidence(scope, id, gate), if reported.Ok? then VersionOpen(reg, stored) else Done(Refusal(reported.error)))
    {
      var ok := store.Await(tid);
      if !ok { return Err(ErrInternal); }
      ghost var w := store.Current();
      OpenReportRuns(digest, w.db, w.threads[tid], IDLE);
      store.AppendAudit(GateEvent(scope, id, gate, OpenedAction(gate)), OpenedWithin(scope, gate));
      store.Advanced(w, tid, IDLE);
      return Ok(());
    }

    method OpenObject(ghost tid: nat, ghost call: Call, reg: Registration, stored: Registration) returns (reply: Reply)
      requires Valid() && At(tid, call, VersionOpen(reg, stored))
      modifies store
      ensures Valid() && old(store.trace) <= store.trace
      ensures At(tid, call, Done(reply))
    {
      var ok := store.Await(tid);
      if !ok { return Refusal(ErrInternal); }
      ghost var w := store.Current();
      OpenRuns(digest, w.db, w.threads[tid], IDLE);
      if stored.objectKey in store.objects {
        reply := Streamed(reg, stored.objectKey, store.objects[stored.objectKey]);
      } else {
        reply := Refusal(ErrInternal);
      }
      store.Advanced(w, tid, IDLE);
    }

    /** What follows the passed check: the second lookup, the audit event and the open. */
    method OpenFrom(ghost tid: nat, scope: Scope, id: string, gate: Gate, reg: Registration) returns (reply: Reply)
      requires Valid() && At(tid, Call.OpenEvidence(scope, id, gate), VersionFetch(reg))
      modifies store
      ensures Valid() && At(tid, Call.OpenEvidence(scope, id, gate), Done(reply)) && old(store.trace) <= store.trace
    {
      var stored := Fetch(tid, scope, id, gate, reg);
      if stored.Err? { return Refusal(stored.error); }
      var reported := ReportOpen(tid, scope, id, gate, reg, stored.value.reg);
      if reported.Err? { return Refusal(reported.error); }
      reply := OpenObject(tid, Call.OpenEvidence(scope, id, gate), reg, stored.value.reg);
    }

    /** case.go, OpenEvidence, and bank_account.go, OpenBankAccountEvidence. */
    method OpenEvidence(ghost tid: nat, scope: Scope, id: string, gate: Gate) returns (reply: Reply)
      requires Valid() && tid !in store.threads
      modifies store
      ensures Valid() && At(tid, Call.OpenEvidence(scope, id, gate), Done(reply)) && old(store.trace) <= store.trace
      ensures reply.Streamed? ==>
        && reply.document.id == id && Released(store.State(), reply.document)
        && reply.document.sha256 == gate.digest && reply.key == reply.document.objectKey
        && Admitted(store.State(), gate, scope, id)
    {
      ghost var call := Call.OpenEvidence(scope, id, gate);
      store.Begin(tid, call);
      var checked := VerifyVersion(tid, call, scope, id, gate);
      if checked.Err? { return Refusal(checked.error); }
      ghost var before := store.trace;
      reply := OpenFrom(tid, scope, id, gate, checked.value.reg);
      Know(tid);
      StillAdmitted(before, gate, scope, id);
    }

    /** The claim query of processOne. */
    method ClaimRow(ghost tid: nat, ghost call: Call) returns (row: Option<Row>)
      requires Valid() && At(tid, call, ScanClaim)
      modifies store
      ensures Valid() && old(store.trace) <= store.trace
      ensures row.None? ==> At(tid, call, Done(Idle))
      ensures row.Some? ==> At(tid, call, ScanOpen(row.value.reg, old(store.now) + LEASE))
    {
      ghost var w := store.Current();
      KnowIds();
      row := store.ClaimOldest();
      if row.Some? { Took(w, tid, call, row.value.reg); } else { FoundNone(w, tid, call); }
    }

    ghost method Took(w: World, tid: nat, call: Call, reg: Registration)
      requires w == Reachable(digest, store.trace) && store.digest == digest && store.threads == w.threads
      requires tid in w.threads && w.threads[tid] == Thread(call, ScanClaim)
      requires Oldest(w.db, reg.id) && w.db.rows[reg.id].reg == reg && store.State() == Exec(w.db, Stmt.ClaimOldest(reg.id))
      modifies store`threads, store`trace
      ensures Valid() && old(store.trace) <= store.trace && At(tid, call, ScanOpen(reg, w.db.now + LEASE))
    {
      ClaimHits(digest, w.db, call, IDLE.(pick := reg.id));
      store.Advanced(w, tid, IDLE.(pick := reg.id));
    }

    ghost method FoundNone(w: World, tid: nat, call: Call)
      requires w == Reachable(digest, store.trace) && store.digest == digest && store.threads == w.threads
      requires tid in w.threads && w.threads[tid] == Thread(call, ScanClaim)
      requires !Claimable(w.db, IDLE.pick) && store.State() == w.db
      modifies store`threads, store`trace
      ensures Valid() && old(store.trace) <= store.trace && At(tid, call, Done(Idle))
    {
      ClaimMisses(digest, w.db, call, IDLE);
      store.Advanced(w, tid, IDLE);
    }

    /** processOne's claim, which may also fail. */
    method Claim(ghost tid: nat, ghost call: Call) returns (claimed: Result<Option<Row>>)
      requires Valid() && At(tid, call, ScanClaim)
      modifies store
      ensures Valid() && old(store.trace) <= store.trace
      ensures claimed.Err? ==> At(tid, call, Done(Refusal(claimed.error)))
      ensures claimed == Ok(None) ==> At(tid, call, Done(Idle))
      ensures claimed.Ok? && claimed.value.Some? ==> exists until :: At(tid, call, ScanOpen(claimed.value.value.reg, until))
    {
      var ok := store.Await(tid);
      if !ok { return Err(ErrInternal); }
      var row := ClaimRow(tid, call);
      return Ok(row);
    }

    /** processOne's open; a missing object ends the cycle and leaves the lease to run out. What it serves is what lies at the
        document's key as it is opened. */
    method OpenForScan(ghost tid: nat, ghost call: Call, reg: Registration, ghost until: nat, readable: bool)
        returns (content: Clamd.Content?, ghost bytes: seq<byte>)
      requires Valid() && At(tid, call, ScanOpen(reg, until))
      modifies store
      ensures Valid() && old(store.trace) <= store.trace
      ensures content == null ==> At(tid, call, Done(Refusal(ErrInternal)))
      ensures content != null ==>
        && fresh(content) && Clamd.Delivers(content.feed, bytes)
        && At(tid, call, ScanStream(reg, Work(until, bytes))) && OpenedSince(old(|store.trace|), tid, reg, bytes)
    {
      content, bytes := null, [];
      var ok := store.Await(tid);
      if !ok { return; }
      ghost var w, before := store.Current(), store.trace;
      ghost var c := IDLE.(readable := readable);
      OpenForScanRuns(digest, w.db, w.threads[tid], c);
      if readable && reg.objectKey in store.objects {
        bytes := store.objects[reg.objectKey].bytes;
        content := Clamd.Serve(store.objects[reg.objectKey].bytes);
      }
      store.Advanced(w, tid, c);
      if content != null {
        assert store.trace[..|before|] == before;
        assert OpenedAt(digest, store.trace, |before|, tid, reg, bytes);
      }
    }

    /** Since that moment this worker opened the document's object and found these bytes. */
    ghost predicate OpenedSince(since: nat, tid: nat, reg: Registration, bytes: seq<byte>)
      reads this, store
    {
      exists k: nat :: since <= k && OpenedAt(digest, store.trace, k, tid, reg, bytes)
    }

    lemma StillOpened(since: nat, before: seq<Act>, tid: nat, reg: Registration, bytes: seq<byte>)
      requires Valid() && before <= store.trace && exists k: nat :: since <= k && OpenedAt(digest, before, k, tid, reg, bytes)
      ensures OpenedSince(since, tid, reg, bytes) && Known(store.State(), reg)
    {
      var k: nat :| since <= k && OpenedAt(digest, before, k, tid, reg, bytes);
      OpenedAtGrows(digest, before, store.trace, k, tid, reg, bytes);
      OpenedIsKnown(digest, store.trace, k, tid, reg, bytes);
    }

    /** The scan itself, between two statements; its outcome goes to RecordScan. */
    method ScanObject(ghost tid: nat, ghost call: Call, reg: Registration, ghost work: Work, content: Clamd.Content, conn: Clamd.Conn?)
        returns (scanned: Result<Outcome>)
      requires Valid() && At(tid, call, ScanStream(reg, work)) && Clamd.Delivers(content.feed, work.bytes)
      requires conn != null ==> conn.sent == []
      modifies store, content, conn
      ensures Valid() && old(store.trace) <= store.trace
      ensures At(tid, call, if scanned.Ok? then RecordUpdate(ScannerScope(reg), reg.id, scanned.value, Some(work)) else Done(Refusal(scanned.error)))
      ensures scanned.Ok? && scanned.value != FailedOutcome ==> Vouched(conn, work.bytes, scanned.value)
    {
      ghost var feed := content.feed;
      var outcome, reason, err := Clamd.Scan(content, conn);
      if outcome != FailedOutcome {
        Clamd.SessionReceived(feed, work.bytes);
      }
      scanned := Deliver(tid, call, reg, work, outcome);
    }

    /** An outcome in hand, RecordScan begins. */
    method Deliver(ghost tid: nat, ghost call: Call, reg: Registration, ghost work: Work, outcome: Outcome) returns (delivered: Result<Outcome>)
      requires Valid() && At(tid, call, ScanStream(reg, work)) && !outcome.Unrecognised?
      modifies store
      ensures Valid() && old(store.trace) <= store.trace
      ensures At(tid, call, if delivered.Ok? then RecordUpdate(ScannerScope(reg), reg.id, outcome, Some(work)) else Done(Refusal(delivered.error)))
      ensures delivered.Ok? ==> delivered.value == outcome
    {
      var ok := store.Await(tid);
      if !ok { return Err(ErrInternal); }
      ghost var w := store.Current();
      DeliverRuns(digest, w.db, w.threads[tid], IDLE.(outcome := outcome));
      store.Advanced(w, tid, IDLE.(outcome := outcome));
      return Ok(outcome);
    }

    /** clamd has received exactly these bytes, and its reply is this verdict. */
    ghost predicate Vouched(conn: Clamd.Conn?, bytes: seq<byte>, outcome: Outcome)
      reads conn
    {
      conn != null && Clamd.Received(conn.sent, bytes) && Clamd.Told(conn.reply, outcome)
    }

    /** The verdict on the document is clamd's answer to the bytes that were at the document's own key when this worker
        opened it. */
    ghost predicate ScannedAs(since: nat, tid: nat, id: string, conn: Clamd.Conn?, outcome: Outcome)
      reads this, store, conn
    {
      exists reg, bytes ::
        OpenedSince(since, tid, reg, bytes) && reg.id == id && Known(store.State(), reg) && Vouched(conn, bytes, outcome)
    }

    /** cmd/scanner/main.go, processOne. A verdict other than "failed" is recorded only if clamd received, whole, the bytes that
        lay at the recorded document's key at the open, and answered with it. */
    method ProcessOne(ghost tid: nat, readable: bool, conn: Clamd.Conn?) returns (reply: Reply)
      requires Valid() && tid !in store.threads
      requires conn != null ==> conn.sent == []
      modifies store, conn
      ensures Valid() && At(tid, Call.ProcessOne, Done(reply)) && old(store.trace) <= store.trace
      ensures reply.Recorded? && reply.outcome != FailedOutcome ==> ScannedAs(old(|store.trace|), tid, reply.id, conn, reply.outcome)
    {
      store.Begin(tid, Call.ProcessOne);
      var claimed := Claim(tid, Call.ProcessOne);
      if claimed.Err? { return Refusal(claimed.error); }
      if claimed.value.None? { return Idle; }
      var reg := claimed.value.value.reg;
      ghost var until :| At(tid, Call.ProcessOne, ScanOpen(reg, until));
      reply := ScanFrom(tid, old(|store.trace|), reg, until, readable, conn);
    }

    method ScanFrom(ghost tid: nat, ghost since: nat, reg: Registration, ghost until: nat, readable: bool, conn: Clamd.Conn?)
        returns (reply: Reply)
      requires Valid() && At(tid, Call.ProcessOne, ScanOpen(reg, until)) && since <= |store.trace|
      requires conn != null ==> conn.sent == []
      modifies store, conn
      ensures Valid() && At(tid, Call.ProcessOne, Done(reply)) && old(store.trace) <= store.trace
      ensures reply.Recorded? && reply.outcome != FailedOutcome ==> ScannedAs(since, tid, reply.id, conn, reply.outcome)
    {
      ghost var bytes;
      var content;
      content, bytes := OpenForScan(tid, Call.ProcessOne, reg, until, readable);
      if content == null { return Refusal(ErrInternal); }
      ghost var before := store.trace;
      var scanned := ScanObject(tid, Call.ProcessOne, reg, Work(until, bytes), content, conn);
      if scanned.Err? { return Refusal(scanned.error); }
      reply := RecordFrom(tid, Call.ProcessOne, ScannerScope(reg), reg.id, scanned.value, Some(Work(until, bytes)));
      StillOpened(since, before, tid, reg, bytes);
    }

    /** case.go, CaseUpload: the case binding, then get. */
    method CaseUpload(scope: Scope, application: string, party: string, id: string) returns (result: Result<Row>)
      ensures result == Access.CaseUpload(store.State(), scope, application, party, id)
    {
      if scope.tenant == "" || scope.environment == "" || scope.subject == "" || scope.application == "" || application == "" || party == "" {
        return Err(ErrEvidenceScope);
      }
      var found := id in store.rows && CaseBound(Db(store.rows, store.audit, store.objects, store.now), scope, application, party, id);
      if !found { return Err(ErrNotFound); }
      result := store.Get(scope, id);
    }

    /** bank_account.go, BankAccountDocument: the account binding, then get. */
    method BankAccountDocument(scope: Scope, id: string) returns (result: Result<Row>)
      ensures result == Access.BankAccountDocument(store.State(), scope, id)
    {
      if !ValidBankAccountScope(scope) { return Err(ErrEvidenceScope); }
      var found := id in store.rows && BankAccountBound(Db(store.rows, store.audit, store.objects, store.now), scope, id);
      if !found { return Err(ErrNotFound); }
      result := store.Get(scope, id);
    }

    /** The loop of CaseUploads over the rows of its query. */
    method KeepListed(scope: Scope, application: string, ids: seq<string>) returns (out: seq<string>)
      ensures out == Filter(Shown(store.State(), scope, application), ids)
    {
      ghost var shown := Shown(store.State(), scope, application);
      out := [];
      var i := 0;
      while i < |ids|
        invariant 0 <= i <= |ids|
        invariant out == Filter(shown, ids[..i])
      {
        FilterAppend(shown, ids[..i], [ids[i]]);
        assert ids[..i + 1] == ids[..i] + [ids[i]];
        if ids[i] in store.rows && Listed(scope, application, store.rows[ids[i]].reg) {
          out := out + [ids[i]];
        }
        i := i + 1;
      }
      assert ids[..i] == ids;
    }

    /** case.go, CaseUploads: filter the rows the query returned. */
    method CaseUploads(scope: Scope, application: string, party: string, after: string) returns (result: Result<seq<string>>)
      ensures result == CaseList.CaseUploads(store.State(), scope, application, party, after)
    {
      if scope.tenant == "" || scope.environment == "" || scope.subject == "" || scope.application == "" || application == "" || party == "" {
        return Err(ErrEvidenceScope);
      }
      var ids := store.QueryCase(scope, application, party, after);
      var out := KeepListed(scope, application, ids);
      return Ok(out);
    }
  }

  /** io.ReadAll over an io.LimitReader. */
  function ReadAtMost(body: seq<byte>, limit: nat): seq<byte> {
    if |body| <= limit then body else body[..limit]
  }
}
