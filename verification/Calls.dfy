/** Every Go method as a thread: the statement its program counter issues next, and where its answer takes it. */
module Calls {
  import opened Schema
  import opened Access
  import opened Statements
  import opened Creation

  type Digest = seq<byte> -> string

  datatype Call =
    | Create(scope: Scope, input: CreateInput)
    | UploadContent(scope: Scope, id: string, body: seq<byte>)
    | Complete(scope: Scope, id: string)
    | RecordScan(scope: Scope, id: string, outcome: Outcome)
    | ProcessOne
    | Download(scope: Scope, id: string)
    | Evidence(scope: Scope, id: string, gate: Gate)
    | OpenEvidence(scope: Scope, id: string, gate: Gate)

  datatype Reply =
    | Refusal(failure: Failure)
    | Session(id: string, key: string)
    | Completed(id: string)
    | Recorded(id: string, outcome: Outcome)
    | Idle
    | Signed(id: string, key: string)
    | Checked(document: Registration)
    | Streamed(document: Registration, key: string, content: StoredObject)

  /** What a worker brings to its verdict: the end of its lease and the bytes it opened; a posted result brings neither. */
  datatype Work = Work(until: nat, bytes: seq<byte>)

  datatype Pc =
    | CreateLookup(request: Request)
    | CreateParty(request: Request)
    | CreateInsert(request: Request)
    | UploadGet
    | UploadPut(reg: Registration)
    | CompleteGet
    | CompleteVerify(reg: Registration, within: Partition)
    | CompleteUpdate(reg: Registration, within: Partition)
    | CompleteAudit
    | ScanClaim
    | ScanOpen(reg: Registration, until: nat)
    | ScanStream(reg: Registration, work: Work)
    | RecordUpdate(scope: Scope, id: string, outcome: Outcome, origin: Option<Work>)
    | RecordAudit(scope: Scope, id: string, outcome: Outcome)
    | DownloadGet
    | DownloadAudit(reg: Registration)
    | VersionCheck
    | VersionFetch(reg: Registration)
    | VersionAudit(reg: Registration, stored: Registration)
    | VersionOpen(reg: Registration, stored: Registration)
    | Done(reply: Reply)

  datatype Thread = Thread(call: Call, pc: Pc)

  /** What a step leaves to the world: a random id, the Party service's answer, the row LIMIT 1 returned,
      whether an object could be opened, and clamd's verdict. */
  datatype Choice = Choice(id: string, ttl: nat, partyExists: bool, pick: string, readable: bool, outcome: Outcome)

  function ScannerScope(reg: Registration): Scope {
    Scope(reg.tenant, reg.environment, "document-scanner", "file-storage-scanner", "scan-" + reg.id, "", "", "", "", "")
  }

  function StartRecording(scope: Scope, id: string, outcome: Outcome, origin: Option<Work>): Pc {
    if outcome.Unrecognised? then Done(Refusal(ErrConflict)) else RecordUpdate(scope, id, outcome, origin)
  }

  function Start(call: Call): Pc {
    match call
    case Create(scope, input) =>
      (match Prepare(scope, input)
       case Ok(request) => CreateLookup(request)
       case Err(e) => Done(Refusal(e)))
    case UploadContent(_, _, _) => UploadGet
    case Complete(_, _) => CompleteGet
    case RecordScan(scope, id, outcome) => StartRecording(scope, id, outcome, None)
    case ProcessOne => ScanClaim
    case Download(_, _) => DownloadGet
    case Evidence(_, _, _) => VersionCheck
    case OpenEvidence(_, _, _) => VersionCheck
  }

  function CheckedAction(gate: Gate): Action {
    if gate.PartyVersion? then EvidenceVersionChecked else BankAccountEvidenceChecked
  }

  function OpenedAction(gate: Gate): Action {
    if gate.PartyVersion? then CaseDownloadAuthorized else BankAccountDownloadAuthorized
  }

  /** The case download event is inserted only within the caller's partition. */
  function OpenedWithin(scope: Scope, gate: Gate): Option<Partition> {
    if gate.PartyVersion? then Some(Partition(scope.tenant, scope.environment)) else None
  }

  /** Bank-account events carry the account reference as their correlation. */
  function GateEvent(scope: Scope, id: string, gate: Gate, action: Action): AuditEvent {
    Event(if gate.PartyVersion? then scope else scope.(correlation := scope.bankAccountReference), id, action)
  }

  /** The statement a thread issues at its program counter; a counter only ever occurs in calls that have the fields it reads. */
  function Issue(db: Db, t: Thread, c: Choice): Stmt {
    match t.pc
    case CreateInsert(r) =>
      InsertDocument(Register(r, c.id, db.now), db.now + c.ttl, Event(r.scope, c.id, UploadAuthorized))
    case UploadPut(reg) =>
      if t.call.UploadContent? then PutObject(reg.objectKey, StoredObject(t.call.body, reg.sha256)) else Nothing
    case CompleteUpdate(reg, within) => Quarantine(reg.id, within)
    case CompleteAudit =>
      if t.call.Complete? || t.call.UploadContent? then
        AppendAudit(Event(t.call.scope, t.call.id, UploadVerifiedQuarantined), None)
      else Nothing
    case ScanClaim => ClaimOldest(c.pick)
    case RecordUpdate(scope, id, outcome, _) => RecordVerdict(id, Partition(scope.tenant, scope.environment), outcome)
    case RecordAudit(scope, id, outcome) => AppendAudit(Event(scope, id, MalwareScan(outcome)), None)
    case DownloadAudit(reg) =>
      if t.call.Download? then AppendAudit(Event(t.call.scope, t.call.id, DownloadAuthorized), None) else Nothing
    case VersionCheck =>
      if (t.call.Evidence? || t.call.OpenEvidence?) && CheckVersion(db, t.call.gate, t.call.scope, t.call.id).Ok? then
        AppendAudit(GateEvent(t.call.scope, t.call.id, t.call.gate, CheckedAction(t.call.gate)), None)
      else Nothing
    case VersionAudit(_, _) =>
      if t.call.OpenEvidence? then
        AppendAudit(GateEvent(t.call.scope, t.call.id, t.call.gate, OpenedAction(t.call.gate)), OpenedWithin(t.call.scope, t.call.gate))
      else Nothing
    case _ => Nothing
  }

  /** The same declared bytes: their number and their SHA-256. */
  predicate Declared(digest: Digest, reg: Registration, body: seq<byte>) {
    |body| == reg.size && digest(body) == reg.sha256
  }

  function FailWith(e: Failure): Pc {
    Done(Refusal(e))
  }

  /** Evidence ends with its check; OpenEvidence goes on to its second lookup. */
  function AfterCheck(call: Call, checked: Result<Row>): Pc {
    match checked
    case Err(e) => FailWith(e)
    case Ok(row) => if call.OpenEvidence? then VersionFetch(row.reg) else Done(Checked(row.reg))
  }

  /** How Create ends after its INSERT: the key it signs is always the one it made up. */
  function SessionOf(r: Request, id: string, upsert: Upsert): Reply {
    match upsert
    case Inserted => Session(id, ObjectKey(r.scope, r.input, id))
    case Refreshed(existing) => Session(existing, ObjectKey(r.scope, r.input, id))
    case Refused => Refusal(ErrConflict)
    case Violation => Refusal(ErrInternal)
  }

  /** The next program counter, from the database the statement saw. */
  ghost function Resume(digest: Digest, db: Db, t: Thread, c: Choice): Pc {
    match t.pc
    case CreateLookup(r) =>
      (match GetIdempotent(db, r)
       case Ok(row) => Done(Session(row.reg.id, row.reg.objectKey))
       case Err(e) =>
         if e != ErrNotFound then FailWith(e)
         else if r.input.ownerType == "PARTY" then CreateParty(r)
         else CreateInsert(r))
    case CreateParty(r) => if c.partyExists then CreateInsert(r) else FailWith(ErrConflict)
    case CreateInsert(r) => Done(SessionOf(r, c.id, Resolve(db, Register(r, c.id, db.now))))
    case UploadGet =>
      if !t.call.UploadContent? then t.pc
      else
        (match Get(db, t.call.scope, t.call.id)
         case Err(e) => FailWith(e)
         case Ok(row) =>
           if row.status != PendingUpload || !Declared(digest, row.reg, t.call.body) then FailWith(ErrConflict)
           else UploadPut(row.reg))
    case UploadPut(_) => CompleteGet
    case CompleteGet =>
      if !t.call.Complete? && !t.call.UploadContent? then t.pc
      else
        (match PlanCompletion(db, t.call.scope, t.call.id)
         case Err(e) => FailWith(e)
         case Ok((row, within)) => CompleteVerify(row.reg, within))
    case CompleteVerify(reg, within) => if Verified(db, reg) then CompleteUpdate(reg, within) else FailWith(ErrConflict)
    case CompleteUpdate(reg, within) => if Quarantinable(db, reg.id, within) then CompleteAudit else FailWith(ErrInternal)
    case CompleteAudit => if t.call.Complete? || t.call.UploadContent? then Done(Completed(t.call.id)) else t.pc
    case ScanClaim => if Oldest(db, c.pick) then ScanOpen(db.rows[c.pick].reg, db.now + LEASE) else Done(Idle)
    case ScanOpen(reg, until) =>
      if c.readable && reg.objectKey in db.objects then ScanStream(reg, Work(until, db.objects[reg.objectKey].bytes)) else FailWith(ErrInternal)
    case ScanStream(reg, work) => StartRecording(ScannerScope(reg), reg.id, c.outcome, Some(work))
    case RecordUpdate(scope, id, outcome, _) =>
      if Recordable(db, id, Partition(scope.tenant, scope.environment)) then RecordAudit(scope, id, outcome) else FailWith(ErrConflict)
    case RecordAudit(_, id, outcome) => Done(Recorded(id, outcome))
    case DownloadGet =>
      if !t.call.Download? then t.pc
      else
        (match Get(db, t.call.scope, t.call.id)
         case Err(e) => FailWith(e)
         case Ok(row) => if row.status == Available && row.scan == Clean then DownloadAudit(row.reg) else FailWith(ErrConflict))
    case DownloadAudit(reg) => Done(Signed(reg.id, reg.objectKey))
    case VersionCheck =>
      if !t.call.Evidence? && !t.call.OpenEvidence? then t.pc
      else AfterCheck(t.call, CheckVersion(db, t.call.gate, t.call.scope, t.call.id))
    case VersionFetch(reg) =>
      if !t.call.OpenEvidence? then t.pc
      else
        (match FetchVersion(db, t.call.gate, t.call.scope, t.call.id)
         case Err(e) => FailWith(e)
         case Ok(row) => VersionAudit(reg, row.reg))
    case VersionAudit(reg, stored) => VersionOpen(reg, stored)
    case VersionOpen(reg, stored) =>
      if stored.objectKey in db.objects then Done(Streamed(reg, stored.objectKey, db.objects[stored.objectKey])) else FailWith(ErrInternal)
    case Done(_) => t.pc
  }

  datatype World = World(db: Db, threads: map<nat, Thread>)

  const GENESIS := World(EMPTY_DB, map[])

  datatype Act =
    | Spawn(tid: nat, call: Call)
    | Step(tid: nat, choice: Choice)
    | Stop(tid: nat)                                  // the process dies, or a statement fails without effect
    | ClientPut(key: string, content: StoredObject)   // a PUT to a presigned URL
    | Elapse(seconds: nat)

  function NextStmt(w: World, a: Act): Stmt {
    match a
    case Step(tid, c) => if tid in w.threads then Issue(w.db, w.threads[tid], c) else Nothing
    case ClientPut(key, content) => PutObject(key, content)
    case Elapse(seconds) => Tick(seconds)
    case _ => Nothing
  }

  ghost function NextThreads(digest: Digest, w: World, a: Act): map<nat, Thread> {
    match a
    case Spawn(tid, call) => if tid in w.threads then w.threads else w.threads[tid := Thread(call, Start(call))]
    case Step(tid, c) =>
      if tid in w.threads then w.threads[tid := Thread(w.threads[tid].call, Resume(digest, w.db, w.threads[tid], c))] else w.threads
    case Stop(tid) =>
      if tid in w.threads && !w.threads[tid].pc.Done? then w.threads[tid := Thread(w.threads[tid].call, FailWith(ErrInternal))] else w.threads
    case _ => w.threads
  }

  ghost function Advance(digest: Digest, w: World, a: Act): World {
    World(Exec(w.db, NextStmt(w, a)), NextThreads(digest, w, a))
  }

  ghost function Execute(digest: Digest, w: World, acts: seq<Act>): World {
    if acts == [] then w else Advance(digest, Execute(digest, w, acts[..|acts| - 1]), acts[|acts| - 1])
  }

  ghost function Reachable(digest: Digest, acts: seq<Act>): World {
    Execute(digest, GENESIS, acts)
  }

  lemma {:induction false} ExecuteAppend(digest: Digest, w: World, first: seq<Act>, second: seq<Act>)
    ensures Execute(digest, w, first + second) == Execute(digest, Execute(digest, w, first), second)
  {
    if second == [] {
      assert first + second == first;
    } else {
      ExecuteAppend(digest, w, first, second[..|second| - 1]);
      assert (first + second)[..|first + second| - 1] == first + second[..|second| - 1];
    }
  }

  /** The statements a run of the threads issues, in order. */
  ghost function StmtsOf(digest: Digest, w: World, acts: seq<Act>): seq<Stmt> {
    if acts == [] then []
    else StmtsOf(digest, w, acts[..|acts| - 1]) + [NextStmt(Execute(digest, w, acts[..|acts| - 1]), acts[|acts| - 1])]
  }

  /** Every interleaving of threads is a run of statements, so what holds of all statement runs holds of the service. */
  lemma {:induction false} ThreadsRunStatements(digest: Digest, w: World, acts: seq<Act>)
    ensures Execute(digest, w, acts).db == Run(w.db, StmtsOf(digest, w, acts))
  {
    if acts == [] {
    } else {
      ThreadsRunStatements(digest, w, acts[..|acts| - 1]);
      var log := StmtsOf(digest, w, acts);
      assert log[..|log| - 1] == StmtsOf(digest, w, acts[..|acts| - 1]);
    }
  }

  /** The joint invariant holds, and the database only evolves, in every interleaving. */
  lemma ReachableDbInv(digest: Digest, acts: seq<Act>, more: seq<Act>)
    ensures DbInv(Reachable(digest, acts).db)
    ensures Evolves(Reachable(digest, acts).db, Reachable(digest, acts + more).db)
  {
    var w := Reachable(digest, acts);
    ThreadsRunStatements(digest, GENESIS, acts);
    RunKeepsDbInv(EMPTY_DB, StmtsOf(digest, GENESIS, acts));
    ExecuteAppend(digest, GENESIS, acts, more);
    ThreadsRunStatements(digest, w, more);
    RunEvolves(w.db, StmtsOf(digest, w, more));
  }
}
