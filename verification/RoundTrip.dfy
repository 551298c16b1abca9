/** Create, put the object, Complete: when the creating scope gets its own document through. */
module RoundTrip {
  import opened Schema
  import opened Statements
  import opened Creation
  import opened Calls
  import opened Threads
  import opened Rounds
  import opened Steps

  lemma EarlierPending(db: Db, db': Db, id: string)
    requires Evolves(db, db') && id in db.rows && db'.rows[id].status == PendingUpload
    ensures db.rows[id].status == PendingUpload && db'.rows[id].reg == db.rows[id].reg
  {}

  lemma GetStep(digest: Digest, db: Db, call: Call, scope: Scope, input: CreateInput, id: string, created: nat, c: Choice)
    requires Completing(call, id) && call.scope == scope
    requires Prepare(scope, input).Ok?
    requires id in db.rows && db.rows[id].reg == Register(Prepare(scope, input).value, id, created) && db.rows[id].status == PendingUpload
    ensures var pc := Resume(digest, db, Thread(call, CompleteGet), c);
      if CreatorMayComplete(scope, input) then pc.CompleteVerify? && pc.reg == db.rows[id].reg && Within(pc.reg, pc.within)
      else pc == Done(Refusal(ErrNotFound))
  {
    CreateThenComplete(scope, input, id, created, db);
  }

  lemma VerifyStep(digest: Digest, db: Db, t: Thread, c: Choice)
    requires t.pc.Done? || (t.pc.CompleteVerify? && Verified(db, t.pc.reg))
    ensures Resume(digest, db, t, c) == if t.pc.Done? then t.pc else CompleteUpdate(t.pc.reg, t.pc.within)
  {}

  lemma UpdateStep(digest: Digest, db: Db, t: Thread, c: Choice, id: string)
    requires Keyed(db) && id in db.rows && db.rows[id].status == PendingUpload
    requires t.pc.Done? || (t.pc.CompleteUpdate? && t.pc.reg == db.rows[id].reg && Within(t.pc.reg, t.pc.within))
    ensures Resume(digest, db, t, c) == if t.pc.Done? then t.pc else CompleteAudit
    ensures id in After(db, t, c).rows
    ensures After(db, t, c).rows[id].status == if t.pc.Done? then PendingUpload else Quarantined
  {
    if t.pc.CompleteUpdate? { QuarantineRuns(digest, db, t, c); }
  }

  /** Create, put, Complete: let the row be as Create inserted it, the object there with the declared length and digest
      when Complete verifies it, and the row not completed by someone else first. Then, whatever happens to other
      documents in between, Complete under the creating scope quarantines the document if CreatorMayComplete holds, and
      is refused at its first statement if not. */
  lemma CreatorCompletes(digest: Digest, w: World, tid: nat, call: Call, scope: Scope, input: CreateInput, id: string, created: nat,
                         c: Choice, first: seq<Act>, second: seq<Act>)
    requires Completing(call, id) && call.scope == scope
    requires DbInv(w.db) && tid in w.threads && w.threads[tid] == Thread(call, CompleteGet)
    requires Prepare(scope, input).Ok?
    requires id in w.db.rows && w.db.rows[id].reg == Register(Prepare(scope, input).value, id, created)
    requires Rests(tid, first) && Rests(tid, second)
    requires Verified(Round(digest, w, tid, c, first).db, w.db.rows[id].reg)
    requires var last := Round(digest, Round(digest, w, tid, c, first), tid, c, second).db;
      id in last.rows && last.rows[id].status == PendingUpload
    ensures var end := Advance(digest, Round(digest, Round(digest, w, tid, c, first), tid, c, second), Step(tid, c));
      && tid in end.threads && id in end.db.rows
      && (CreatorMayComplete(scope, input) ==> end.threads[tid].pc == CompleteAudit && end.db.rows[id].status == Quarantined)
      && (!CreatorMayComplete(scope, input) ==> end.threads[tid].pc == Done(Refusal(ErrNotFound)) && end.db.rows[id].status == PendingUpload)
  {
    var w1 := Round(digest, w, tid, c, first);
    var w2 := Round(digest, w1, tid, c, second);
    TwoRounds(digest, w, tid, c, first, second);
    EarlierPending(w1.db, w2.db, id);
    EarlierPending(w.db, w1.db, id);
    GetStep(digest, w.db, call, scope, input, id, created, c);
    VerifyStep(digest, w1.db, w1.threads[tid], c);
    UpdateStep(digest, w2.db, w2.threads[tid], c, id);
  }

  lemma TwoRounds(digest: Digest, w: World, tid: nat, c: Choice, first: seq<Act>, second: seq<Act>)
    requires DbInv(w.db) && tid in w.threads && Rests(tid, first) && Rests(tid, second)
    ensures var w1 := Round(digest, w, tid, c, first);
      var w2 := Round(digest, w1, tid, c, second);
      && Keyed(w2.db) && Evolves(w.db, w1.db) && Evolves(w1.db, w2.db)
      && tid in w1.threads && w1.threads[tid] == Stepped(digest, w.db, w.threads[tid], c)
      && tid in w2.threads && w2.threads[tid] == Stepped(digest, w1.db, w1.threads[tid], c)
  {
    RoundLeads(digest, w, tid, c, first);
    RoundLeads(digest, Round(digest, w, tid, c, first), tid, c, second);
  }

  lemma TwoRoundsInv(digest: Digest, w: World, tid: nat, c: Choice, first: seq<Act>, second: seq<Act>)
    requires DbInv(w.db) && tid in w.threads && Rests(tid, first) && Rests(tid, second)
    ensures var w2 := Round(digest, Round(digest, w, tid, c, first), tid, c, second);
      DbInv(w2.db) && tid in w2.threads && w2.threads[tid].call == w.threads[tid].call
  {
    RoundLeads(digest, w, tid, c, first);
    RoundLeads(digest, Round(digest, w, tid, c, first), tid, c, second);
  }

  lemma LastStep(digest: Digest, w: World, tid: nat, call: Call, c: Choice)
    requires tid in w.threads && (call.Complete? || call.UploadContent?) && w.threads[tid] == Thread(call, CompleteAudit) && Arrived(w.db, call.id)
    ensures var end := Advance(digest, w, Step(tid, c));
      && tid in end.threads && end.threads[tid].pc == Done(Completed(call.id))
      && Event(call.scope, call.id, UploadVerifiedQuarantined) in end.db.audit
  {
    UploadReportRuns(digest, w.db, w.threads[tid], c);
  }

  /** And its answer: when CreatorMayComplete holds, the call returns the document, which has arrived, and has logged it. */
  lemma CreatorAnswered(digest: Digest, w: World, tid: nat, call: Call, scope: Scope, input: CreateInput, id: string, created: nat,
                        c: Choice, first: seq<Act>, second: seq<Act>, third: seq<Act>)
    requires Completing(call, id) && call.scope == scope
    requires DbInv(w.db) && tid in w.threads && w.threads[tid] == Thread(call, CompleteGet)
    requires Prepare(scope, input).Ok? && CreatorMayComplete(scope, input)
    requires id in w.db.rows && w.db.rows[id].reg == Register(Prepare(scope, input).value, id, created)
    requires Rests(tid, first) && Rests(tid, second) && Rests(tid, third)
    requires Verified(Round(digest, w, tid, c, first).db, w.db.rows[id].reg)
    requires var last := Round(digest, Round(digest, w, tid, c, first), tid, c, second).db;
      id in last.rows && last.rows[id].status == PendingUpload
    ensures var w3 := Round(digest, Round(digest, Round(digest, w, tid, c, first), tid, c, second), tid, c, third);
      var end := Advance(digest, w3, Step(tid, c));
      && Arrived(w3.db, id) && tid in end.threads && end.threads[tid].pc == Done(Completed(id))
      && Event(scope, id, UploadVerifiedQuarantined) in end.db.audit
  {
    var w1 := Round(digest, w, tid, c, first);
    var w2 := Round(digest, w1, tid, c, second);
    CreatorCompletes(digest, w, tid, call, scope, input, id, created, c, first, second);
    TwoRoundsInv(digest, w, tid, c, first, second);
    Afterwards(digest, w2, tid, id, c, third);
    LastStep(digest, Round(digest, w2, tid, c, third), tid, call, c);
  }

  lemma Afterwards(digest: Digest, w: World, tid: nat, id: string, c: Choice, others: seq<Act>)
    requires DbInv(w.db) && tid in w.threads && Rests(tid, others) && Arrived(Advance(digest, w, Step(tid, c)).db, id)
    ensures var w' := Round(digest, w, tid, c, others);
      Arrived(w'.db, id) && tid in w'.threads && w'.threads[tid] == Advance(digest, w, Step(tid, c)).threads[tid]
  {
    var w1 := Advance(digest, w, Step(tid, c));
    ExecKeepsDbInv(w.db, NextStmt(w, Step(tid, c)));
    ExecuteEvolves(digest, w1, others);
    RestingKept(digest, w1, others, tid);
  }

  /** The object is what the row declares, as far as Complete looks. */
  predicate Fits(reg: Registration, content: StoredObject) {
    |content.bytes| == reg.size && content.sha256 == reg.sha256
  }

  /** Somebody else's Complete takes the document. */
  predicate Rivals(s: Stmt, reg: Registration) {
    s.Quarantine? && s.id == reg.id
  }

  /** A put under the document's key that does not fit. */
  predicate Spoils(s: Stmt, reg: Registration) {
    s.PutObject? && s.key == reg.objectKey && !Fits(reg, s.content)
  }

  ghost predicate Unrivalled(digest: Digest, w: World, acts: seq<Act>, reg: Registration) {
    acts == [] ||
      (Unrivalled(digest, w, acts[..|acts| - 1], reg)
       && !Rivals(NextStmt(Execute(digest, w, acts[..|acts| - 1]), acts[|acts| - 1]), reg))
  }

  ghost predicate Unspoiled(digest: Digest, w: World, acts: seq<Act>, reg: Registration) {
    acts == [] ||
      (Unspoiled(digest, w, acts[..|acts| - 1], reg)
       && !Spoils(NextStmt(Execute(digest, w, acts[..|acts| - 1]), acts[|acts| - 1]), reg))
  }

  ghost predicate Calm(digest: Digest, w: World, acts: seq<Act>, reg: Registration) {
    Unrivalled(digest, w, acts, reg) && Unspoiled(digest, w, acts, reg)
  }

  /** The row awaits its upload. */
  predicate Awaiting(db: Db, reg: Registration) {
    Known(db, reg) && db.rows[reg.id].status == PendingUpload
  }

  /** The row awaits its upload, and its object is there. */
  predicate Ready(db: Db, reg: Registration) {
    Awaiting(db, reg) && Verified(db, reg)
  }

  lemma UnrivalledStep(db: Db, s: Stmt, reg: Registration)
    requires RowsInv(db) && Keyed(db) && Awaiting(db, reg) && !Rivals(s, reg)
    ensures Awaiting(Exec(db, s), reg)
  {
    if Written(db, s).Some? { WrittenRow(db, s); }
  }

  lemma {:induction false} UnrivalledKeeps(digest: Digest, w: World, acts: seq<Act>, reg: Registration)
    requires DbInv(w.db) && Unrivalled(digest, w, acts, reg) && Awaiting(w.db, reg)
    ensures Awaiting(Execute(digest, w, acts).db, reg)
  {
    if acts == [] {
    } else {
      var init := acts[..|acts| - 1];
      UnrivalledKeeps(digest, w, init, reg);
      ExecuteEvolves(digest, w, init);
      UnrivalledStep(Execute(digest, w, init).db, NextStmt(Execute(digest, w, init), acts[|acts| - 1]), reg);
    }
  }

  lemma UnspoiledStep(db: Db, s: Stmt, reg: Registration)
    requires Verified(db, reg) && !Spoils(s, reg)
    ensures Verified(Exec(db, s), reg)
  {}

  lemma {:induction false} UnspoiledKeeps(digest: Digest, w: World, acts: seq<Act>, reg: Registration)
    requires Unspoiled(digest, w, acts, reg) && Verified(w.db, reg)
    ensures Verified(Execute(digest, w, acts).db, reg)
  {
    if acts == [] {
    } else {
      var init := acts[..|acts| - 1];
      UnspoiledKeeps(digest, w, init, reg);
      UnspoiledStep(Execute(digest, w, init).db, NextStmt(Execute(digest, w, init), acts[|acts| - 1]), reg);
    }
  }

  lemma CalmKeeps(digest: Digest, w: World, acts: seq<Act>, reg: Registration)
    requires DbInv(w.db) && Calm(digest, w, acts, reg) && Ready(w.db, reg)
    ensures Ready(Execute(digest, w, acts).db, reg)
  {
    UnrivalledKeeps(digest, w, acts, reg);
    UnspoiledKeeps(digest, w, acts, reg);
  }

  /** The first two statements of Complete only read. */
  lemma OnlyReads(digest: Digest, w: World, tid: nat, c: Choice)
    requires tid in w.threads
    requires var t := w.threads[tid]; t.pc.Done? || t.pc.CompleteVerify? || (t.pc.CompleteGet? && (t.call.Complete? || t.call.UploadContent?))
    ensures Advance(digest, w, Step(tid, c)).db == w.db
  {
    var t := w.threads[tid];
    if t.pc.CompleteGet? { CompleteGetRuns(digest, w.db, t, c); } else if t.pc.CompleteVerify? { VerifyRuns(digest, w.db, t, c); }
  }

  lemma CalmRound(digest: Digest, w: World, tid: nat, c: Choice, others: seq<Act>, reg: Registration)
    requires DbInv(w.db) && tid in w.threads && Rests(tid, others) && Ready(w.db, reg)
    requires var t := w.threads[tid]; t.pc.Done? || t.pc.CompleteVerify? || (t.pc.CompleteGet? && (t.call.Complete? || t.call.UploadContent?))
    requires Calm(digest, Advance(digest, w, Step(tid, c)), others, reg)
    ensures var w' := Round(digest, w, tid, c, others);
      DbInv(w'.db) && Ready(w'.db, reg) && tid in w'.threads && w'.threads[tid] == Stepped(digest, w.db, w.threads[tid], c)
  {
    OnlyReads(digest, w, tid, c);
    RoundLeads(digest, w, tid, c, others);
    CalmKeeps(digest, Advance(digest, w, Step(tid, c)), others, reg);
  }

  lemma CalmGet(digest: Digest, w: World, tid: nat, call: Call, scope: Scope, input: CreateInput, id: string, created: nat, c: Choice, others: seq<Act>)
    requires Completing(call, id) && call.scope == scope
    requires DbInv(w.db) && tid in w.threads && w.threads[tid] == Thread(call, CompleteGet) && Rests(tid, others)
    requires Prepare(scope, input).Ok? && Ready(w.db, Register(Prepare(scope, input).value, id, created))
    requires Calm(digest, Advance(digest, w, Step(tid, c)), others, Register(Prepare(scope, input).value, id, created))
    ensures var w' := Round(digest, w, tid, c, others);
      && DbInv(w'.db) && Ready(w'.db, Register(Prepare(scope, input).value, id, created)) && tid in w'.threads
      && if CreatorMayComplete(scope, input) then w'.threads[tid].pc.CompleteVerify? else w'.threads[tid].pc == Done(Refusal(ErrNotFound))
  {
    GetStep(digest, w.db, call, scope, input, id, created, c);
    CalmRound(digest, w, tid, c, others, Register(Prepare(scope, input).value, id, created));
  }

  lemma DoneStays(digest: Digest, w: World, tid: nat, c: Choice)
    requires tid in w.threads && w.threads[tid].pc.Done?
    ensures var w' := Advance(digest, w, Step(tid, c)); w'.db == w.db && w'.threads == w.threads
  {
    var pc := w.threads[tid].pc;
    match pc
    case Done(_) => assert w.threads[tid := w.threads[tid]] == w.threads;
    case _ =>
  }

  lemma DoneRound(digest: Digest, w: World, tid: nat, c: Choice, others: seq<Act>)
    requires tid in w.threads && w.threads[tid].pc.Done? && Rests(tid, others)
    ensures var w' := Round(digest, w, tid, c, others); tid in w'.threads && w'.threads[tid] == w.threads[tid]
  {
    DoneStays(digest, w, tid, c);
    RestingKept(digest, w, others, tid);
  }

  lemma RefusedForGood(digest: Digest, w: World, tid: nat, c: Choice, second: seq<Act>, third: seq<Act>)
    requires tid in w.threads && w.threads[tid].pc.Done? && Rests(tid, second) && Rests(tid, third)
    ensures var end := Advance(digest, Round(digest, Round(digest, w, tid, c, second), tid, c, third), Step(tid, c));
      tid in end.threads && end.threads[tid] == w.threads[tid]
  {
    var w1 := Round(digest, w, tid, c, second);
    DoneRound(digest, w, tid, c, second);
    DoneRound(digest, w1, tid, c, third);
    DoneStays(digest, Round(digest, w1, tid, c, third), tid, c);
  }

  /** Complete by the creator of a row that is ready, with nothing disturbing its first statements: its answer, exactly. */
  lemma CompletesCalmly(digest: Digest, w: World, tid: nat, call: Call, scope: Scope, input: CreateInput, id: string, created: nat,
                        c: Choice, first: seq<Act>, second: seq<Act>, third: seq<Act>)
    requires Completing(call, id) && call.scope == scope
    requires DbInv(w.db) && tid in w.threads && w.threads[tid] == Thread(call, CompleteGet)
    requires Prepare(scope, input).Ok? && Ready(w.db, Register(Prepare(scope, input).value, id, created))
    requires Rests(tid, first) && Rests(tid, second) && Rests(tid, third)
    requires var reg := Register(Prepare(scope, input).value, id, created);
      && Calm(digest, Advance(digest, w, Step(tid, c)), first, reg)
      && Calm(digest, Advance(digest, Round(digest, w, tid, c, first), Step(tid, c)), second, reg)
    ensures var w3 := Round(digest, Round(digest, Round(digest, w, tid, c, first), tid, c, second), tid, c, third);
      var end := Advance(digest, w3, Step(tid, c));
      && tid in end.threads
      && end.threads[tid].pc == Done(if CreatorMayComplete(scope, input) then Completed(id) else Refusal(ErrNotFound))
      && (CreatorMayComplete(scope, input) ==> Arrived(w3.db, id) && Event(scope, id, UploadVerifiedQuarantined) in end.db.audit)
  {
    var w1 := Round(digest, w, tid, c, first);
    CalmGet(digest, w, tid, call, scope, input, id, created, c, first);
    if CreatorMayComplete(scope, input) {
      CalmRound(digest, w1, tid, c, second, Register(Prepare(scope, input).value, id, created));
      CreatorAnswered(digest, w, tid, call, scope, input, id, created, c, first, second, third);
    } else {
      RefusedForGood(digest, w1, tid, c, second, third);
    }
  }

  /** The run from Create's INSERT to Complete's first statement: anything, then the PUT, then anything calm, then the call. */
  ghost function Uploaded(digest: Digest, w: World, reg: Registration, first: seq<Act>, content: StoredObject, second: seq<Act>): World {
    Execute(digest, Advance(digest, Execute(digest, w, first), ClientPut(reg.objectKey, content)), second)
  }

  lemma UploadedReady(digest: Digest, w: World, reg: Registration, first: seq<Act>, content: StoredObject, second: seq<Act>)
    requires DbInv(w.db) && Awaiting(w.db, reg) && Fits(reg, content) && Unrivalled(digest, w, first, reg)
    requires Calm(digest, Advance(digest, Execute(digest, w, first), ClientPut(reg.objectKey, content)), second, reg)
    ensures var w' := Uploaded(digest, w, reg, first, content, second); DbInv(w'.db) && Ready(w'.db, reg)
  {
    var w1 := Execute(digest, w, first);
    var w2 := Advance(digest, w1, ClientPut(reg.objectKey, content));
    ExecuteEvolves(digest, w, first);
    UnrivalledKeeps(digest, w, first, reg);
    ExecKeepsDbInv(w1.db, PutObject(reg.objectKey, content));
    ExecuteEvolves(digest, w2, second);
    CalmKeeps(digest, w2, second, reg);
  }

  /** Create's INSERT, when no row has its target: the session's key is the row's own, and the row awaits its upload. */
  lemma InsertAwaits(digest: Digest, w: World, creator: nat, r: Request, c: Choice)
    requires DbInv(w.db) && creator in w.threads && w.threads[creator].pc == CreateInsert(r)
    requires Resolve(w.db, Register(r, c.id, w.db.now)) == Inserted
    ensures var (w', reg) := (Advance(digest, w, Step(creator, c)), Register(r, c.id, w.db.now));
      && DbInv(w'.db) && Awaiting(w'.db, reg)
      && creator in w'.threads && w'.threads[creator].pc == Done(Session(c.id, reg.objectKey))
  {
    InsertRuns(digest, w.db, w.threads[creator], c);
    ExecKeepsDbInv(w.db, Issue(w.db, w.threads[creator], c));
  }

  /** The whole way, Create, PUT, Complete: whatever happens to other documents and keys in between. The creator's INSERT
      inserts and signs the key; a client puts an object of the declared length and digest there; the creator's Complete is
      called. If nobody else completes the document, and nothing unfit is put at the key after the PUT, then the call succeeds,
      and the event is logged, exactly if CreatorMayComplete; otherwise its answer is ErrNotFound. */
  lemma CreatorRoundTrip(digest: Digest, w: World, creator: nat, scope: Scope, input: CreateInput, c: Choice, content: StoredObject,
                         first: seq<Act>, second: seq<Act>, tid: nat, third: seq<Act>, fourth: seq<Act>, fifth: seq<Act>, sixth: seq<Act>)
    requires DbInv(w.db) && Prepare(scope, input).Ok?
    requires creator in w.threads && w.threads[creator] == Thread(Create(scope, input), CreateInsert(Prepare(scope, input).value))
    requires var reg := Register(Prepare(scope, input).value, c.id, w.db.now); Resolve(w.db, reg) == Inserted && Fits(reg, content)
    requires Rests(tid, third) && Rests(tid, fourth) && Rests(tid, fifth) && Rests(tid, sixth)
    requires var (w1, reg) := (Advance(digest, w, Step(creator, c)), Register(Prepare(scope, input).value, c.id, w.db.now));
      && Unrivalled(digest, w1, first, reg)
      && Calm(digest, Advance(digest, Execute(digest, w1, first), ClientPut(reg.objectKey, content)), second, reg)
      && var w2 := Uploaded(digest, w1, reg, first, content, second);
         && tid !in w2.threads
         && Calm(digest, Advance(digest, w2, Spawn(tid, Complete(scope, c.id))), third, reg)
         && var w3 := Called(digest, w2, tid, scope, c.id, third);
            && Calm(digest, Advance(digest, w3, Step(tid, c)), fourth, reg)
            && Calm(digest, Advance(digest, Round(digest, w3, tid, c, fourth), Step(tid, c)), fifth, reg)
    ensures var (w1, reg) := (Advance(digest, w, Step(creator, c)), Register(Prepare(scope, input).value, c.id, w.db.now));
      var w3 := Called(digest, Uploaded(digest, w1, reg, first, content, second), tid, scope, c.id, third);
      var w6 := Round(digest, Round(digest, Round(digest, w3, tid, c, fourth), tid, c, fifth), tid, c, sixth);
      var end := Advance(digest, w6, Step(tid, c));
      && creator in w1.threads && w1.threads[creator].pc == Done(Session(c.id, reg.objectKey))
      && tid in end.threads
      && end.threads[tid].pc == Done(if CreatorMayComplete(scope, input) then Completed(c.id) else Refusal(ErrNotFound))
      && (CreatorMayComplete(scope, input) ==> Arrived(w6.db, c.id) && Event(scope, c.id, UploadVerifiedQuarantined) in end.db.audit)
  {
    var (w1, reg) := (Advance(digest, w, Step(creator, c)), Register(Prepare(scope, input).value, c.id, w.db.now));
    InsertAwaits(digest, w, creator, Prepare(scope, input).value, c);
    UploadedReady(digest, w1, reg, first, content, second);
    var w2 := Uploaded(digest, w1, reg, first, content, second);
    CalledReady(digest, w2, tid, scope, reg, third);
    CompletesCalmly(digest, Called(digest, w2, tid, scope, c.id, third), tid, Complete(scope, c.id), scope, input, c.id, w.db.now, c, fourth, fifth, sixth);
  }

  ghost function Called(digest: Digest, w: World, tid: nat, scope: Scope, id: string, others: seq<Act>): World {
    Execute(digest, Advance(digest, w, Spawn(tid, Complete(scope, id))), others)
  }

  lemma CalledReady(digest: Digest, w: World, tid: nat, scope: Scope, reg: Registration, others: seq<Act>)
    requires DbInv(w.db) && Ready(w.db, reg) && tid !in w.threads && Rests(tid, others)
    requires Calm(digest, Advance(digest, w, Spawn(tid, Complete(scope, reg.id))), others, reg)
    ensures var w' := Called(digest, w, tid, scope, reg.id, others);
      DbInv(w'.db) && Ready(w'.db, reg) && tid in w'.threads && w'.threads[tid] == Thread(Complete(scope, reg.id), CompleteGet)
  {
    var w1 := Advance(digest, w, Spawn(tid, Complete(scope, reg.id)));
    assert w1.db == w.db;
    ExecuteEvolves(digest, w1, others);
    RestingKept(digest, w1, others, tid);
    CalmKeeps(digest, w1, others, reg);
  }

  /** UploadContent's first statement on its creator's row: refused as Complete would be, or on to the put. */
  lemma UploadGetStep(digest: Digest, db: Db, t: Thread, input: CreateInput, created: nat, c: Choice)
    requires t.call.UploadContent? && t.pc.UploadGet? && Prepare(t.call.scope, input).Ok?
    requires var reg := Register(Prepare(t.call.scope, input).value, t.call.id, created);
      Awaiting(db, reg) && Declared(digest, reg, t.call.body)
    ensures Issue(db, t, c) == Nothing
    ensures var pc := Stepped(digest, db, t, c).pc;
      || pc == UploadPut(Register(Prepare(t.call.scope, input).value, t.call.id, created))
      || (pc == Done(Refusal(ErrNotFound)) && !CreatorMayComplete(t.call.scope, input))
  {
    UploadGetRuns(digest, db, t, c);
    CreateThenComplete(t.call.scope, input, t.call.id, created, db);
  }

  /** The put makes the row ready, and what follows leaves it so. */
  lemma UploadPutRound(digest: Digest, w: World, tid: nat, c: Choice, others: seq<Act>, reg: Registration)
    requires DbInv(w.db) && tid in w.threads && Rests(tid, others) && Awaiting(w.db, reg)
    requires w.threads[tid].call.UploadContent? && w.threads[tid].pc == UploadPut(reg) && |w.threads[tid].call.body| == reg.size
    requires Calm(digest, Advance(digest, w, Step(tid, c)), others, reg)
    ensures var w' := Round(digest, w, tid, c, others);
      DbInv(w'.db) && Ready(w'.db, reg) && tid in w'.threads && w'.threads[tid] == Thread(w.threads[tid].call, CompleteGet)
  {
    UploadPutRuns(digest, w.db, w.threads[tid], c);
    ExecKeepsDbInv(w.db, Issue(w.db, w.threads[tid], c));
    RoundLeads(digest, w, tid, c, others);
    CalmKeeps(digest, Advance(digest, w, Step(tid, c)), others, reg);
  }

  lemma UploadGetRound(digest: Digest, w: World, tid: nat, input: CreateInput, created: nat, c: Choice, others: seq<Act>)
    requires DbInv(w.db) && tid in w.threads && Rests(tid, others)
    requires var t := w.threads[tid]; t.call.UploadContent? && t.pc.UploadGet? && Prepare(t.call.scope, input).Ok?
    requires var t := w.threads[tid];
      var reg := Register(Prepare(t.call.scope, input).value, t.call.id, created);
      Awaiting(w.db, reg) && Declared(digest, reg, t.call.body) && Unrivalled(digest, Advance(digest, w, Step(tid, c)), others, reg)
    ensures var (t, w') := (w.threads[tid], Round(digest, w, tid, c, others));
      var reg := Register(Prepare(t.call.scope, input).value, t.call.id, created);
      && DbInv(w'.db) && Awaiting(w'.db, reg) && tid in w'.threads && w'.threads[tid].call == t.call
      && (|| w'.threads[tid].pc == UploadPut(reg)
          || (w'.threads[tid].pc == Done(Refusal(ErrNotFound)) && !CreatorMayComplete(t.call.scope, input)))
  {
    var t := w.threads[tid];
    UploadGetStep(digest, w.db, t, input, created, c);
    RoundLeads(digest, w, tid, c, others);
    UnrivalledKeeps(digest, Advance(digest, w, Step(tid, c)), others, Register(Prepare(t.call.scope, input).value, t.call.id, created));
  }

  /** UploadContent by the creator of a pending document, with a body of the declared length and digest: if nobody else completes
      the document, and nothing unfit is put at its key after the call's own put, then the call succeeds, and the event is logged,
      exactly if CreatorMayComplete; otherwise its answer is ErrNotFound. */
  lemma UploadRoundTrip(digest: Digest, w: World, tid: nat, scope: Scope, input: CreateInput, id: string, created: nat, body: seq<byte>,
                        c: Choice, first: seq<Act>, second: seq<Act>, third: seq<Act>, fourth: seq<Act>, fifth: seq<Act>)
    requires DbInv(w.db) && tid in w.threads && w.threads[tid] == Thread(UploadContent(scope, id, body), UploadGet)
    requires Prepare(scope, input).Ok?
    requires var reg := Register(Prepare(scope, input).value, id, created);
      && Awaiting(w.db, reg) && |body| == reg.size && digest(body) == reg.sha256
      && Unrivalled(digest, Advance(digest, w, Step(tid, c)), first, reg)
      && var w1 := Round(digest, w, tid, c, first);
         && Calm(digest, Advance(digest, w1, Step(tid, c)), second, reg)
         && var w2 := Round(digest, w1, tid, c, second);
            && Calm(digest, Advance(digest, w2, Step(tid, c)), third, reg)
            && Calm(digest, Advance(digest, Round(digest, w2, tid, c, third), Step(tid, c)), fourth, reg)
    requires Rests(tid, first) && Rests(tid, second) && Rests(tid, third) && Rests(tid, fourth) && Rests(tid, fifth)
    ensures var w2 := Round(digest, Round(digest, w, tid, c, first), tid, c, second);
      var w5 := Round(digest, Round(digest, Round(digest, w2, tid, c, third), tid, c, fourth), tid, c, fifth);
      var end := Advance(digest, w5, Step(tid, c));
      && tid in end.threads
      && end.threads[tid].pc == Done(if CreatorMayComplete(scope, input) then Completed(id) else Refusal(ErrNotFound))
      && (CreatorMayComplete(scope, input) ==> Arrived(w5.db, id) && Event(scope, id, UploadVerifiedQuarantined) in end.db.audit)
  {
    var reg := Register(Prepare(scope, input).value, id, created);
    var w1 := Round(digest, w, tid, c, first);
    UploadGetRound(digest, w, tid, input, created, c, first);
    if w1.threads[tid].pc.Done? {
      DoneRound(digest, w1, tid, c, second);
      var w2 := Round(digest, w1, tid, c, second);
      DoneRound(digest, w2, tid, c, third);
      RefusedForGood(digest, Round(digest, w2, tid, c, third), tid, c, fourth, fifth);
    } else {
      UploadPutRound(digest, w1, tid, c, second, reg);
      CompletesCalmly(digest, Round(digest, w1, tid, c, second), tid, UploadContent(scope, id, body), scope, input, id, created,
                      c, third, fourth, fifth);
    }
  }
}
