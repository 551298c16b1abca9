/** What a thread may rely on between its statements, in every interleaving with every other thread. */
module Threads {
  import opened Schema
  import opened Statements
  import opened Creation
  import opened Calls

  /** The thread has read this registration, and the row still carries it. */
  predicate Known(db: Db, reg: Registration) {
    reg.id in db.rows && db.rows[reg.id].reg == reg
  }

  predicate Arrived(db: Db, id: string) {
    id in db.rows && db.rows[id].status != PendingUpload
  }

  /** The document has passed its scan; evidence and downloads may go out. */
  predicate Released(db: Db, reg: Registration) {
    Known(db, reg) && db.rows[reg.id].status == Available && db.rows[reg.id].scan == Clean
  }

  /** A terminal outcome is the status the row has. */
  predicate Stands(db: Db, id: string, outcome: Outcome) {
    id in db.rows && (Terminal(StatusAfter(outcome)) ==> db.rows[id].status == StatusAfter(outcome))
  }

  predicate Completing(call: Call, id: string) {
    (call.Complete? || call.UploadContent?) && call.id == id
  }

  /** The row declares what the request declares. */
  predicate Alike(reg: Registration, input: CreateInput) {
    && reg.ownerType == input.ownerType && reg.ownerId == input.ownerId && reg.documentType == input.documentType
    && reg.purpose == input.purpose && reg.classification == input.classification
    && reg.size == input.size && reg.sha256 == input.sha256
  }

  /** The row is alike, and agrees with the request on the source key, or on the idempotency key when there is no source. */
  predicate Answers(reg: Registration, r: Request) {
    && Alike(reg, r.input)
    && SourceKeyOf(reg) == SourceKeyOf(Register(r, reg.id, 0))
    && (SourceKeyOf(reg).None? ==> IdempotencyKeyOf(reg) == IdempotencyKeyOf(Register(r, reg.id, 0)))
  }

  predicate Requested(call: Call, r: Request) {
    call.Create? && Prepare(call.scope, call.input) == Ok(r)
  }

  predicate ThreadOk(digest: Digest, db: Db, t: Thread) {
    match t.pc
    case CreateLookup(r) => Requested(t.call, r)
    case CreateParty(r) => Requested(t.call, r)
    case CreateInsert(r) => Requested(t.call, r)
    case UploadGet => t.call.UploadContent?
    case UploadPut(reg) => t.call.UploadContent? && reg.id == t.call.id && Known(db, reg) && Declared(digest, reg, t.call.body)
    case CompleteGet => t.call.Complete? || t.call.UploadContent?
    case CompleteVerify(reg, _) => Completing(t.call, reg.id) && Known(db, reg)
    case CompleteUpdate(reg, _) => Completing(t.call, reg.id) && Known(db, reg) && reg.objectKey in db.objects
    case CompleteAudit => (t.call.Complete? || t.call.UploadContent?) && Arrived(db, t.call.id)
    case ScanClaim => t.call.ProcessOne?
    case ScanOpen(reg, _) => t.call.ProcessOne? && Known(db, reg)
    case ScanStream(reg, _) => t.call.ProcessOne? && Known(db, reg)
    case RecordUpdate(_, _, outcome, _) => !outcome.Unrecognised?
    case RecordAudit(_, id, outcome) => Stands(db, id, outcome)
    case DownloadGet => t.call.Download?
    case DownloadAudit(reg) => t.call.Download? && reg.id == t.call.id && Released(db, reg)
    case VersionCheck => t.call.Evidence? || t.call.OpenEvidence?
    case VersionFetch(reg) =>
      t.call.OpenEvidence? && reg.id == t.call.id && Released(db, reg) && reg.sha256 == t.call.gate.digest
    case VersionAudit(reg, stored) =>
      t.call.OpenEvidence? && reg.id == t.call.id && Released(db, reg) && reg.sha256 == t.call.gate.digest && stored == reg
    case VersionOpen(reg, stored) =>
      t.call.OpenEvidence? && reg.id == t.call.id && Released(db, reg) && reg.sha256 == t.call.gate.digest && stored == reg
    case Done(Session(id, _)) =>
      && t.call.Create? && Prepare(t.call.scope, t.call.input).Ok? && id in db.rows
      && Answers(db.rows[id].reg, Prepare(t.call.scope, t.call.input).value)
    case Done(Completed(id)) => Completing(t.call, id) && Arrived(db, id)
    case Done(Recorded(id, outcome)) => Stands(db, id, outcome)
    case Done(Signed(id, key)) => id in db.rows && Released(db, db.rows[id].reg) && db.rows[id].reg.objectKey == key
    case Done(Checked(reg)) => t.call.Evidence? && reg.id == t.call.id && Released(db, reg) && reg.sha256 == t.call.gate.digest
    case Done(Streamed(reg, key, _)) =>
      t.call.OpenEvidence? && reg.id == t.call.id && Released(db, reg) && reg.sha256 == t.call.gate.digest && key == reg.objectKey
    case _ => true
  }

  /** Nothing another thread does invalidates what a thread relies on. */
  lemma ThreadOkStable(digest: Digest, db: Db, db': Db, t: Thread)
    requires Keyed(db) && ThreadOk(digest, db, t) && Evolves(db, db')
    ensures ThreadOk(digest, db', t)
  {}

  /** A registration once read stays as it was. */
  lemma KnownStays(db: Db, db': Db, reg: Registration)
    requires Evolves(db, db') && Known(db, reg)
    ensures Known(db', reg)
  {}

  /** The row came out of an accepted Create call of this world. */
  ghost predicate AuthoredBy(w: World, id: string, tid: nat, r: Request)
    requires id in w.db.rows
  {
    tid in w.threads && Requested(w.threads[tid].call, r) && w.db.rows[id].reg == Register(r, id, w.db.rows[id].reg.createdAt)
  }

  ghost predicate Authored(w: World) {
    forall id | id in w.db.rows :: exists tid, r :: AuthoredBy(w, id, tid, r)
  }

  /** Equal request hashes under one idempotency key come from requests for the same document. */
  lemma SameHashAnswers(r0: Request, r: Request, id: string, now: nat)
    requires RequestHash(r0.input) == RequestHash(r.input)
    requires IdempotencyKeyOf(Register(r0, id, now)) == IdempotencyKeyOf(Register(r, id, 0))
    ensures Answers(Register(r0, id, now), r)
  {}

  /** An idempotency hit with an equal request hash is the row of an equal request. */
  lemma HitAnswers(w: World, r: Request)
    requires Authored(w) && Keyed(w.db) && GetIdempotent(w.db, r).Ok?
    ensures Known(w.db, GetIdempotent(w.db, r).value.reg) && Answers(GetIdempotent(w.db, r).value.reg, r)
  {
    var id :| HoldsIdempotencyKey(w.db, r, id) && GetIdempotent(w.db, r).value == w.db.rows[id];
    var tid, r0 :| AuthoredBy(w, id, tid, r0);
    SameHashAnswers(r0, r, id, w.db.rows[id].reg.createdAt);
  }

  ghost function Stepped(digest: Digest, db: Db, t: Thread, c: Choice): Thread {
    Thread(t.call, Resume(digest, db, t, c))
  }

  ghost function After(db: Db, t: Thread, c: Choice): Db {
    Exec(db, Issue(db, t, c))
  }

  /** The three steps whose own statement establishes what the thread relies on next. */
  predicate Writes(pc: Pc) {
    pc.CreateInsert? || pc.CompleteUpdate? || pc.RecordUpdate?
  }

  lemma LookupStep(digest: Digest, w: World, t: Thread, c: Choice)
    requires Keyed(w.db) && Authored(w) && ThreadOk(digest, w.db, t)
    requires t.pc.CreateLookup? || t.pc.CreateParty?
    ensures ThreadOk(digest, w.db, Stepped(digest, w.db, t, c))
  {
    if t.pc.CreateLookup? && GetIdempotent(w.db, t.pc.request).Ok? { HitAnswers(w, t.pc.request); }
  }

  lemma InsertStep(digest: Digest, db: Db, t: Thread, c: Choice)
    requires Keyed(db) && ThreadOk(digest, db, t) && t.pc.CreateInsert?
    ensures ThreadOk(digest, After(db, t, c), Stepped(digest, db, t, c))
  {
    var r := t.pc.request;
    var reg := Register(r, c.id, db.now);
    if Resolve(db, reg).Refreshed? {
      var id := Resolve(db, reg).id;
      assert HoldsSourceKey(db, reg, id);
      assert Answers(db.rows[id].reg, r);
    } else if Resolve(db, reg).Inserted? {
      assert Answers(reg, r);
    }
  }

  lemma CompletionStep(digest: Digest, db: Db, t: Thread, c: Choice)
    requires Keyed(db) && ThreadOk(digest, db, t)
    requires t.pc.UploadGet? || t.pc.UploadPut? || t.pc.CompleteGet? || t.pc.CompleteVerify? || t.pc.CompleteAudit?
    ensures ThreadOk(digest, db, Stepped(digest, db, t, c))
  {}

  lemma QuarantineStep(digest: Digest, db: Db, t: Thread, c: Choice)
    requires Keyed(db) && ThreadOk(digest, db, t) && t.pc.CompleteUpdate?
    ensures ThreadOk(digest, After(db, t, c), Stepped(digest, db, t, c))
  {}

  lemma ScanStep(digest: Digest, db: Db, t: Thread, c: Choice)
    requires Keyed(db) && ThreadOk(digest, db, t)
    requires t.pc.ScanClaim? || t.pc.ScanOpen? || t.pc.ScanStream? || t.pc.RecordAudit?
    ensures ThreadOk(digest, db, Stepped(digest, db, t, c))
  {}

  lemma RecordStep(digest: Digest, db: Db, t: Thread, c: Choice)
    requires Keyed(db) && ThreadOk(digest, db, t) && t.pc.RecordUpdate?
    ensures ThreadOk(digest, After(db, t, c), Stepped(digest, db, t, c))
  {}

  lemma DownloadStep(digest: Digest, db: Db, t: Thread, c: Choice)
    requires Keyed(db) && ThreadOk(digest, db, t)
    requires t.pc.DownloadGet? || t.pc.DownloadAudit?
    ensures ThreadOk(digest, db, Stepped(digest, db, t, c))
  {}

  lemma VersionStep(digest: Digest, db: Db, t: Thread, c: Choice)
    requires Keyed(db) && ThreadOk(digest, db, t)
    requires t.pc.VersionCheck? || t.pc.VersionFetch? || t.pc.VersionAudit? || t.pc.VersionOpen?
    ensures ThreadOk(digest, db, Stepped(digest, db, t, c))
  {}

  ghost predicate ThreadsOk(digest: Digest, w: World) {
    forall tid | tid in w.threads :: ThreadOk(digest, w.db, w.threads[tid])
  }

  ghost predicate WorldOk(digest: Digest, w: World) {
    DbInv(w.db) && Authored(w) && ThreadsOk(digest, w)
  }

  lemma ReadStep(digest: Digest, w: World, t: Thread, c: Choice)
    requires Keyed(w.db) && Authored(w) && ThreadOk(digest, w.db, t) && !Writes(t.pc)
    ensures ThreadOk(digest, w.db, Stepped(digest, w.db, t, c))
  {
    if t.pc.CreateLookup? || t.pc.CreateParty? {
      LookupStep(digest, w, t, c);
    } else if t.pc.UploadGet? || t.pc.UploadPut? || t.pc.CompleteGet? || t.pc.CompleteVerify? || t.pc.CompleteAudit? {
      CompletionStep(digest, w.db, t, c);
    } else if t.pc.ScanClaim? || t.pc.ScanOpen? || t.pc.ScanStream? || t.pc.RecordAudit? {
      ScanStep(digest, w.db, t, c);
    } else if t.pc.DownloadGet? || t.pc.DownloadAudit? {
      DownloadStep(digest, w.db, t, c);
    } else if !t.pc.Done? {
      VersionStep(digest, w.db, t, c);
    }
  }

  lemma OwnStep(digest: Digest, w: World, t: Thread, c: Choice)
    requires DbInv(w.db) && Authored(w) && ThreadOk(digest, w.db, t)
    ensures ThreadOk(digest, After(w.db, t, c), Stepped(digest, w.db, t, c))
  {
    if t.pc.CreateInsert? {
      InsertStep(digest, w.db, t, c);
    } else if t.pc.CompleteUpdate? {
      QuarantineStep(digest, w.db, t, c);
    } else if t.pc.RecordUpdate? {
      RecordStep(digest, w.db, t, c);
    } else {
      ReadStep(digest, w, t, c);
      ExecEvolves(w.db, Issue(w.db, t, c));
      ThreadOkStable(digest, w.db, After(w.db, t, c), Stepped(digest, w.db, t, c));
    }
  }

  lemma StartOk(digest: Digest, db: Db, call: Call)
    ensures ThreadOk(digest, db, Thread(call, Start(call)))
  {}

  /** Only an accepted Create call inserts a row, and it inserts the row of its own request. */
  lemma InsertedBy(digest: Digest, w: World, a: Act)
    requires WorldOk(digest, w)
    requires Written(w.db, NextStmt(w, a)).Some? && Written(w.db, NextStmt(w, a)).value.reg.id !in w.db.rows
    ensures a.Step? && a.tid in w.threads && w.threads[a.tid].pc.CreateInsert?
    ensures var r := w.threads[a.tid].pc.request;
      Requested(w.threads[a.tid].call, r) && Written(w.db, NextStmt(w, a)).value.reg == Register(r, a.choice.id, w.db.now)
  {
    WrittenRow(w.db, NextStmt(w, a));
    assert ThreadOk(digest, w.db, w.threads[a.tid]);
  }

  lemma CallsKept(digest: Digest, w: World, a: Act, tid: nat)
    requires tid in w.threads
    ensures tid in Advance(digest, w, a).threads && Advance(digest, w, a).threads[tid].call == w.threads[tid].call
  {}

  lemma AdvanceKeepsAuthored(digest: Digest, w: World, a: Act)
    requires WorldOk(digest, w)
    ensures Authored(Advance(digest, w, a))
  {
    var w' := Advance(digest, w, a);
    ExecEvolves(w.db, NextStmt(w, a));
    forall id | id in w'.db.rows
      ensures exists tid, r :: AuthoredBy(w', id, tid, r)
    {
      if id in w.db.rows {
        var tid, r :| AuthoredBy(w, id, tid, r);
        CallsKept(digest, w, a, tid);
        assert AuthoredBy(w', id, tid, r);
      } else {
        InsertedBy(digest, w, a);
        CallsKept(digest, w, a, a.tid);
        assert AuthoredBy(w', id, a.tid, w.threads[a.tid].pc.request);
      }
    }
  }

  lemma AdvanceKeepsThreadsOk(digest: Digest, w: World, a: Act)
    requires WorldOk(digest, w)
    ensures ThreadsOk(digest, Advance(digest, w, a))
  {
    var w' := Advance(digest, w, a);
    ExecEvolves(w.db, NextStmt(w, a));
    forall tid | tid in w'.threads
      ensures ThreadOk(digest, w'.db, w'.threads[tid])
    {
      if a.Step? && a.tid == tid {
        OwnStep(digest, w, w.threads[tid], a.choice);
      } else if tid in w.threads && w'.threads[tid] == w.threads[tid] {
        ThreadOkStable(digest, w.db, w'.db, w.threads[tid]);
      } else if a.Spawn? {
        StartOk(digest, w'.db, a.call);
      }
    }
  }

  /** In every interleaving, with crashes anywhere, each thread's knowledge is true and each row is some Create call's. */
  lemma {:induction false} ReachableOk(digest: Digest, acts: seq<Act>)
    ensures WorldOk(digest, Reachable(digest, acts))
  {
    if acts == [] {
    } else {
      var w, a := Reachable(digest, acts[..|acts| - 1]), acts[|acts| - 1];
      ReachableOk(digest, acts[..|acts| - 1]);
      ExecKeepsDbInv(w.db, NextStmt(w, a));
      AdvanceKeepsAuthored(digest, w, a);
      AdvanceKeepsThreadsOk(digest, w, a);
    }
  }
}
