/** Where single steps lead: the statement a thread issues at a program counter, and the counter it comes to. */
module Steps {
  import opened Schema
  import opened Access
  import opened Statements
  import opened Creation
  import opened Calls
  import opened Threads

  lemma CheckRuns(digest: Digest, db: Db, t: Thread, c: Choice)
    requires t.pc.VersionCheck? && (t.call.Evidence? || t.call.OpenEvidence?)
    ensures var pass := CheckVersion(db, t.call.gate, t.call.scope, t.call.id);
      && Stepped(digest, db, t, c) == Thread(t.call, AfterCheck(t.call, pass))
      && Issue(db, t, c) == if pass.Ok? then Stmt.AppendAudit(GateEvent(t.call.scope, t.call.id, t.call.gate, CheckedAction(t.call.gate)), None) else Nothing
  {
    var pc := t.pc;
    match pc
    case VersionCheck =>
    case _ =>
  }

  lemma OpenReportRuns(digest: Digest, db: Db, t: Thread, c: Choice)
    requires t.pc.VersionAudit? && t.call.OpenEvidence?
    ensures Stepped(digest, db, t, c) == Thread(t.call, VersionOpen(t.pc.reg, t.pc.stored))
    ensures Issue(db, t, c) ==
      Stmt.AppendAudit(GateEvent(t.call.scope, t.call.id, t.call.gate, OpenedAction(t.call.gate)), OpenedWithin(t.call.scope, t.call.gate))
  {
    var pc := t.pc;
    match pc
    case VersionAudit(_, _) =>
    case _ =>
  }

  lemma FetchRuns(digest: Digest, db: Db, t: Thread, c: Choice)
    requires t.pc.VersionFetch? && t.call.OpenEvidence?
    ensures Issue(db, t, c) == Nothing
    ensures var stored := FetchVersion(db, t.call.gate, t.call.scope, t.call.id);
      Stepped(digest, db, t, c) == Thread(t.call, if stored.Ok? then VersionAudit(t.pc.reg, stored.value.reg) else Done(Refusal(stored.error)))
  {
    var pc := t.pc;
    match pc
    case VersionFetch(_) =>
    case _ =>
  }

  lemma OpenRuns(digest: Digest, db: Db, t: Thread, c: Choice)
    requires t.pc.VersionOpen?
    ensures Issue(db, t, c) == Nothing
    ensures var (reg, key) := (t.pc.reg, t.pc.stored.objectKey);
      Stepped(digest, db, t, c) == Thread(t.call, if key in db.objects then Done(Streamed(reg, key, db.objects[key])) else Done(Refusal(ErrInternal)))
  {
    var pc := t.pc;
    match pc
    case VersionOpen(_, _) =>
    case _ =>
  }

  lemma DownloadRuns(digest: Digest, db: Db, t: Thread, c: Choice)
    requires t.pc.DownloadGet? && t.call.Download?
    ensures Issue(db, t, c) == Nothing
    ensures var got := Get(db, t.call.scope, t.call.id);
      Stepped(digest, db, t, c) == Thread(t.call,
        if got.Err? then Done(Refusal(got.error))
        else if got.value.status == Available && got.value.scan == Clean then DownloadAudit(got.value.reg) else Done(Refusal(ErrConflict)))
  {
    var pc := t.pc;
    match pc
    case DownloadGet =>
    case _ =>
  }

  lemma DownloadReportRuns(digest: Digest, db: Db, t: Thread, c: Choice)
    requires t.pc.DownloadAudit? && t.call.Download?
    ensures Issue(db, t, c) == Stmt.AppendAudit(Event(t.call.scope, t.call.id, DownloadAuthorized), None)
    ensures Stepped(digest, db, t, c) == Thread(t.call, Done(Signed(t.pc.reg.id, t.pc.reg.objectKey)))
  {
    var pc := t.pc;
    match pc
    case DownloadAudit(_) =>
    case _ =>
  }

  lemma LookupRuns(digest: Digest, db: Db, t: Thread, c: Choice)
    requires t.pc.CreateLookup? && GetIdempotent(db, t.pc.request) == Err(ErrNotFound)
    ensures Issue(db, t, c) == Nothing
    ensures Stepped(digest, db, t, c) ==
      Thread(t.call, if t.pc.request.input.ownerType == "PARTY" then CreateParty(t.pc.request) else CreateInsert(t.pc.request))
  {
    var pc := t.pc;
    match pc
    case CreateLookup(_) =>
    case _ =>
  }

  lemma ReplayRuns(digest: Digest, db: Db, t: Thread, c: Choice)
    requires t.pc.CreateLookup? && GetIdempotent(db, t.pc.request) != Err(ErrNotFound)
    ensures Issue(db, t, c) == Nothing
    ensures var found := GetIdempotent(db, t.pc.request);
      Stepped(digest, db, t, c) ==
        Thread(t.call, Done(if found.Ok? then Session(found.value.reg.id, found.value.reg.objectKey) else Refusal(found.error)))
  {
    var pc := t.pc;
    match pc
    case CreateLookup(_) =>
    case _ =>
  }

  lemma PartyRuns(digest: Digest, db: Db, t: Thread, c: Choice)
    requires t.pc.CreateParty?
    ensures Issue(db, t, c) == Nothing
    ensures Stepped(digest, db, t, c) == Thread(t.call, if c.partyExists then CreateInsert(t.pc.request) else Done(Refusal(ErrConflict)))
  {
    var pc := t.pc;
    match pc
    case CreateParty(_) =>
    case _ =>
  }

  lemma InsertRuns(digest: Digest, db: Db, t: Thread, c: Choice)
    requires t.pc.CreateInsert?
    ensures var (r, reg) := (t.pc.request, Register(t.pc.request, c.id, db.now));
      && Issue(db, t, c) == Stmt.InsertDocument(reg, db.now + c.ttl, Event(r.scope, c.id, UploadAuthorized))
      && Stepped(digest, db, t, c) == Thread(t.call, Done(SessionOf(r, c.id, Resolve(db, reg))))
  {
    var pc := t.pc;
    match pc
    case CreateInsert(_) =>
    case _ =>
  }

  lemma UploadGetRuns(digest: Digest, db: Db, t: Thread, c: Choice)
    requires t.pc.UploadGet? && t.call.UploadContent?
    ensures Issue(db, t, c) == Nothing
    ensures var got := Get(db, t.call.scope, t.call.id);
      Stepped(digest, db, t, c) == Thread(t.call,
        if got.Err? then Done(Refusal(got.error))
        else if got.value.status == PendingUpload && Declared(digest, got.value.reg, t.call.body) then UploadPut(got.value.reg)
        else Done(Refusal(ErrConflict)))
  {
    var pc := t.pc;
    match pc
    case UploadGet =>
    case _ =>
  }

  lemma UploadPutRuns(digest: Digest, db: Db, t: Thread, c: Choice)
    requires t.pc.UploadPut? && t.call.UploadContent?
    ensures Issue(db, t, c) == Stmt.PutObject(t.pc.reg.objectKey, StoredObject(t.call.body, t.pc.reg.sha256))
    ensures Stepped(digest, db, t, c) == Thread(t.call, CompleteGet)
  {
    var pc := t.pc;
    match pc
    case UploadPut(_) =>
    case _ =>
  }

  lemma CompleteGetRuns(digest: Digest, db: Db, t: Thread, c: Choice)
    requires t.pc.CompleteGet? && (t.call.Complete? || t.call.UploadContent?)
    ensures Issue(db, t, c) == Nothing
    ensures var plan := PlanCompletion(db, t.call.scope, t.call.id);
      Stepped(digest, db, t, c) == Thread(t.call, if plan.Ok? then CompleteVerify(plan.value.0.reg, plan.value.1) else Done(Refusal(plan.error)))
  {
    var pc := t.pc;
    match pc
    case CompleteGet =>
    case _ =>
  }

  lemma VerifyRuns(digest: Digest, db: Db, t: Thread, c: Choice)
    requires t.pc.CompleteVerify?
    ensures Issue(db, t, c) == Nothing
    ensures Stepped(digest, db, t, c) ==
      Thread(t.call, if Verified(db, t.pc.reg) then CompleteUpdate(t.pc.reg, t.pc.within) else Done(Refusal(ErrConflict)))
  {
    var pc := t.pc;
    match pc
    case CompleteVerify(_, _) =>
    case _ =>
  }

  lemma QuarantineRuns(digest: Digest, db: Db, t: Thread, c: Choice)
    requires t.pc.CompleteUpdate?
    ensures Issue(db, t, c) == Stmt.Quarantine(t.pc.reg.id, t.pc.within)
    ensures Stepped(digest, db, t, c) ==
      Thread(t.call, if Quarantinable(db, t.pc.reg.id, t.pc.within) then CompleteAudit else Done(Refusal(ErrInternal)))
  {
    var pc := t.pc;
    match pc
    case CompleteUpdate(_, _) =>
    case _ =>
  }

  lemma UploadReportRuns(digest: Digest, db: Db, t: Thread, c: Choice)
    requires t.pc.CompleteAudit? && (t.call.Complete? || t.call.UploadContent?)
    ensures Issue(db, t, c) == AppendAudit(Event(t.call.scope, t.call.id, UploadVerifiedQuarantined), None)
    ensures Stepped(digest, db, t, c) == Thread(t.call, Done(Completed(t.call.id)))
  {
    var pc := t.pc;
    match pc
    case CompleteAudit =>
    case _ =>
  }

  lemma DeliverRuns(digest: Digest, db: Db, t: Thread, c: Choice)
    requires t.pc.ScanStream?
    ensures Issue(db, t, c) == Nothing
    ensures Stepped(digest, db, t, c) ==
      Thread(t.call, StartRecording(ScannerScope(t.pc.reg), t.pc.reg.id, c.outcome, Some(t.pc.work)))
  {
    var pc := t.pc;
    match pc
    case ScanStream(_, _) =>
    case _ =>
  }

  lemma OpenForScanRuns(digest: Digest, db: Db, t: Thread, c: Choice)
    requires t.pc.ScanOpen?
    ensures Issue(db, t, c) == Nothing
    ensures var (reg, until) := (t.pc.reg, t.pc.until);
      Stepped(digest, db, t, c) == Thread(t.call,
        if c.readable && reg.objectKey in db.objects then ScanStream(reg, Work(until, db.objects[reg.objectKey].bytes)) else Done(Refusal(ErrInternal)))
  {
    var pc := t.pc;
    match pc
    case ScanOpen(_, _) =>
    case _ =>
  }

  lemma RecordRuns(digest: Digest, db: Db, t: Thread, c: Choice)
    requires t.pc.RecordUpdate?
    ensures var (pc, within) := (t.pc, Partition(t.pc.scope.tenant, t.pc.scope.environment));
      && Issue(db, t, c) == RecordVerdict(pc.id, within, pc.outcome)
      && Stepped(digest, db, t, c) ==
           Thread(t.call, if Recordable(db, pc.id, within) then RecordAudit(pc.scope, pc.id, pc.outcome) else Done(Refusal(ErrConflict)))
  {
    var pc := t.pc;
    match pc
    case RecordUpdate(_, _, _, _) =>
    case _ =>
  }

  lemma RecordReportRuns(digest: Digest, db: Db, t: Thread, c: Choice)
    requires t.pc.RecordAudit?
    ensures Issue(db, t, c) == Stmt.AppendAudit(Event(t.pc.scope, t.pc.id, MalwareScan(t.pc.outcome)), None)
    ensures Stepped(digest, db, t, c) == Thread(t.call, Done(Recorded(t.pc.id, t.pc.outcome)))
  {
    var pc := t.pc;
    match pc
    case RecordAudit(_, _, _) =>
    case _ =>
  }

  lemma ClaimHits(digest: Digest, db: Db, call: Call, c: Choice)
    requires Oldest(db, c.pick)
    ensures Issue(db, Thread(call, ScanClaim), c) == Stmt.ClaimOldest(c.pick)
    ensures Stepped(digest, db, Thread(call, ScanClaim), c) == Thread(call, ScanOpen(db.rows[c.pick].reg, db.now + LEASE))
  {}

  lemma ClaimMisses(digest: Digest, db: Db, call: Call, c: Choice)
    requires !Claimable(db, c.pick)
    ensures Issue(db, Thread(call, ScanClaim), c) == Stmt.ClaimOldest(c.pick) && Exec(db, Stmt.ClaimOldest(c.pick)) == db
    ensures Stepped(digest, db, Thread(call, ScanClaim), c) == Thread(call, Done(Idle))
  {}

  /** A thread that stops in the middle has failed without another effect. */
  lemma StopEnds(digest: Digest, w: World, tid: nat)
    requires tid in w.threads && !w.threads[tid].pc.Done?
    ensures var w' := Advance(digest, w, Stop(tid));
      w'.db == w.db && w'.threads == w.threads[tid := Thread(w.threads[tid].call, Done(Refusal(ErrInternal)))]
  {}
}
