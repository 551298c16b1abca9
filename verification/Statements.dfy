/** The SQL statements and object-store calls of the service, each one atomic, and what every run of them keeps. */
module Statements {
  import opened Schema

  datatype Partition = Partition(tenant: string, environment: string)

  datatype Stmt =
    | Nothing
    | InsertDocument(reg: Registration, expiresAt: nat, event: AuditEvent)
    | Quarantine(id: string, within: Partition)
    | ClaimOldest(pick: string)
    | RecordVerdict(id: string, within: Partition, outcome: Outcome)
    | AppendAudit(event: AuditEvent, only: Option<Partition>)
    | PutObject(key: string, content: StoredObject)
    | Tick(seconds: nat)

  predicate Within(reg: Registration, p: Partition) {
    reg.tenant == p.tenant && reg.environment == p.environment
  }

  /** What INSERT ... ON CONFLICT ... DO UPDATE ... WHERE does with a proposed row. */
  datatype Upsert = Inserted | Refreshed(id: string) | Refused | Violation

  /** The row that holds the proposed row's source key. */
  predicate HoldsSourceKey(db: Db, reg: Registration, id: string) {
    id in db.rows && SourceKeyOf(reg).Some? && SourceKeyOf(db.rows[id].reg) == SourceKeyOf(reg)
  }

  /** The WHERE clause of DO UPDATE. */
  predicate Refreshable(row: Row, reg: Registration) {
    && row.status == PendingUpload
    && row.reg.ownerType == reg.ownerType
    && row.reg.ownerId == reg.ownerId
    && row.reg.documentType == reg.documentType
    && row.reg.purpose == reg.purpose
    && row.reg.classification == reg.classification
    && row.reg.size == reg.size
  }

  /** A unique index other than the arbiter rejects the proposed row. */
  predicate Collides(db: Db, reg: Registration) {
    || reg.id in db.rows
    || exists id | id in db.rows :: db.rows[id].reg.objectKey == reg.objectKey || IdempotencyKeyOf(db.rows[id].reg) == IdempotencyKeyOf(reg)
  }

  ghost function Resolve(db: Db, reg: Registration): Upsert {
    if !CheckConstraints(reg) then Violation
    else if exists id :: HoldsSourceKey(db, reg, id) then
      var id :| HoldsSourceKey(db, reg, id);
      if Refreshable(db.rows[id], reg) then Refreshed(id) else Refused
    else if Collides(db, reg) then Violation
    else Inserted
  }

  /** The column defaults of a freshly inserted row. */
  function FreshRow(reg: Registration, expiresAt: nat): Row {
    Row(reg, PendingUpload, Pending, 0, None, None, expiresAt, reg.createdAt)
  }

  /** The rows the claim query may take. */
  predicate Claimable(db: Db, id: string) {
    && id in db.rows
    && var row := db.rows[id];
       && row.status == Quarantined
       && (row.scan == Pending || row.scan == Failed || (row.scan == Scanning && row.lease.Some? && row.lease.value < db.now))
       && row.attempts < MAX_ATTEMPTS
  }

  /** ORDER BY uploaded_at: a was uploaded no later than b (NULLS LAST). */
  predicate NoLater(a: Row, b: Row) {
    b.uploadedAt.None? || (a.uploadedAt.Some? && a.uploadedAt.value <= b.uploadedAt.value)
  }

  /** The row LIMIT 1 may return; equal upload times leave the choice open. */
  predicate Oldest(db: Db, id: string) {
    Claimable(db, id) && forall other | other in db.rows && Claimable(db, other) :: NoLater(db.rows[id], db.rows[other])
  }

  /** The WHERE clause of RecordScan's UPDATE. */
  predicate Recordable(db: Db, id: string, within: Partition) {
    && id in db.rows
    && Within(db.rows[id].reg, within)
    && db.rows[id].status == Quarantined
    && (db.rows[id].scan == Pending || db.rows[id].scan == Scanning || db.rows[id].scan == Failed)
  }

  /** The WHERE clause of Complete's UPDATE. */
  predicate Quarantinable(db: Db, id: string, within: Partition) {
    id in db.rows && Within(db.rows[id].reg, within) && db.rows[id].status == PendingUpload
  }

  predicate Auditable(db: Db, event: AuditEvent, only: Option<Partition>) {
    event.document in db.rows && (only.Some? ==> Within(db.rows[event.document].reg, only.value))
  }

  /** The row version a statement writes: every statement writes at most one. */
  ghost function Written(db: Db, s: Stmt): Option<Row> {
    match s
    case InsertDocument(reg, expiresAt, _) =>
      (match Resolve(db, reg)
       case Inserted => Some(FreshRow(reg, expiresAt))
       case Refreshed(id) => if id in db.rows then Some(db.rows[id].(expiresAt := expiresAt, updatedAt := db.now)) else None
       case _ => None)
    case Quarantine(id, within) =>
      if Quarantinable(db, id, within) then
        Some(db.rows[id].(status := Quarantined, uploadedAt := Some(db.now), updatedAt := db.now))
      else None
    case ClaimOldest(pick) =>
      if Oldest(db, pick) then
        Some(db.rows[pick].(scan := Scanning, attempts := db.rows[pick].attempts + 1, lease := Some(db.now + LEASE), updatedAt := db.now))
      else None
    case RecordVerdict(id, within, outcome) =>
      if Recordable(db, id, within) then
        Some(db.rows[id].(scan := ScanAfter(outcome), status := StatusAfter(outcome), lease := None, updatedAt := db.now))
      else None
    case _ => None
  }

  /** The audit event a statement appends, if any; the creating transaction inserts the row and its event together. */
  ghost function Logged(db: Db, s: Stmt): Option<AuditEvent> {
    match s
    case InsertDocument(reg, _, event) =>
      if Written(db, s).Some? then Some(event.(document := Written(db, s).value.reg.id)) else None
    case AppendAudit(event, only) => if Auditable(db, event, only) then Some(event) else None
    case _ => None
  }

  function PutRow(rows: map<string, Row>, written: Option<Row>): map<string, Row> {
    if written.Some? then rows[written.value.reg.id := written.value] else rows
  }

  ghost function Exec(db: Db, s: Stmt): Db {
    Db(PutRow(db.rows, Written(db, s)),
       if Logged(db, s).Some? then db.audit + [Logged(db, s).value] else db.audit,
       if s.PutObject? then db.objects[s.key := s.content] else db.objects,
       if s.Tick? then db.now + s.seconds else db.now)
  }

  ghost function Run(db: Db, log: seq<Stmt>): Db {
    if log == [] then db else Exec(Run(db, log[..|log| - 1]), log[|log| - 1])
  }

  /** The joint invariant of one row. */
  predicate RowInv(row: Row, now: nat) {
    && (row.status == PendingUpload ==> row.scan == Pending && row.attempts == 0 && row.lease.None? && row.uploadedAt.None?)
    && (row.status != PendingUpload ==> row.uploadedAt.Some? && row.uploadedAt.value <= now)
    && (row.status == Quarantined ==> row.scan == Pending || row.scan == Scanning || row.scan == Failed)
    && (row.scan == Scanning <==> row.lease.Some?)
    && (row.lease.Some? ==> row.attempts >= 1 && row.lease.value <= now + LEASE)
    && (row.scan == Pending ==> row.attempts == 0)
    && (row.status == Available <==> row.scan == Clean)
    && (row.status == Rejected <==> row.scan == Infected)
    && 0 <= row.attempts <= MAX_ATTEMPTS
    && row.status != Uploaded && row.status != Expired && row.scan != NotRequired
  }

  /** No unique index sees the two registrations as equal. */
  predicate Apart(a: Registration, b: Registration) {
    && IdempotencyKeyOf(a) != IdempotencyKeyOf(b)
    && (SourceKeyOf(a).Some? ==> SourceKeyOf(a) != SourceKeyOf(b))
    && a.objectKey != b.objectKey
  }

  ghost predicate UniqueKeys(db: Db) {
    forall a, b | a in db.rows && b in db.rows && a != b :: Apart(db.rows[a].reg, db.rows[b].reg)
  }

  ghost predicate RowsInv(db: Db) {
    forall id | id in db.rows :: RowInv(db.rows[id], db.now)
  }

  ghost predicate Keyed(db: Db) {
    forall id | id in db.rows :: db.rows[id].reg.id == id
  }

  ghost predicate Registered(db: Db) {
    Keyed(db) && forall id | id in db.rows :: CheckConstraints(db.rows[id].reg)
  }

  ghost predicate Audited(db: Db) {
    forall e | e in db.audit :: e.document in db.rows
  }

  ghost predicate DbInv(db: Db) {
    RowsInv(db) && Registered(db) && UniqueKeys(db) && Audited(db)
  }

  /** How far one row may move: along pending_upload, quarantined, terminal, and never out of a verdict. */
  predicate RowEvolves(row: Row, row': Row) {
    && row'.reg == row.reg
    && (row'.status == row.status
        || (row.status == PendingUpload && (row'.status == Quarantined || Terminal(row'.status)))
        || (row.status == Quarantined && Terminal(row'.status)))
    && (Terminal(row.status) ==> row' == row)
    && row.attempts <= row'.attempts
    && (row.status != PendingUpload ==> row'.uploadedAt == row.uploadedAt)
  }

  /** A written row is either an accepted insertion or a legal next version of the row with its id. */
  lemma WrittenRow(db: Db, s: Stmt)
    requires RowsInv(db) && Keyed(db)
    requires Written(db, s).Some?
    ensures var row := Written(db, s).value;
      && RowInv(row, db.now)
      && (if row.reg.id in db.rows then RowEvolves(db.rows[row.reg.id], row)
          else s.InsertDocument? && row == FreshRow(s.reg, s.expiresAt) && Resolve(db, s.reg) == Inserted)
  {
    if s.InsertDocument? && Resolve(db, s.reg).Refreshed? {
      assert HoldsSourceKey(db, s.reg, Resolve(db, s.reg).id);
    }
  }

  /** A new registration is apart from every registered one; an old one is rewritten as it was. */
  lemma WrittenRegistration(db: Db, s: Stmt)
    requires Registered(db) && Written(db, s).Some?
    ensures var reg := Written(db, s).value.reg;
      && CheckConstraints(reg)
      && (if reg.id in db.rows then reg == db.rows[reg.id].reg
          else forall a | a in db.rows :: Apart(reg, db.rows[a].reg) && Apart(db.rows[a].reg, reg))
  {
    var reg := Written(db, s).value.reg;
    if s.InsertDocument? {
      if Resolve(db, s.reg).Refreshed? {
        assert HoldsSourceKey(db, s.reg, Resolve(db, s.reg).id);
      } else {
        forall a | a in db.rows
          ensures Apart(reg, db.rows[a].reg) && Apart(db.rows[a].reg, reg)
        {
          assert !HoldsSourceKey(db, reg, a);
        }
      }
    }
  }

  /** No statement changes a registration. */
  lemma RegistrationKept(db: Db, s: Stmt)
    requires Keyed(db)
    ensures forall id | id in db.rows :: id in Exec(db, s).rows && Exec(db, s).rows[id].reg == db.rows[id].reg
  {}

  lemma ExecKeepsRegistered(db: Db, s: Stmt)
    requires Registered(db)
    ensures Registered(Exec(db, s))
  {
    if Written(db, s).Some? { WrittenRegistration(db, s); }
  }

  /** A registration put among others that are apart from it leaves them all apart. */
  lemma PutKeepsApart(rows: map<string, Row>, row: Row)
    requires forall a, b | a in rows && b in rows && a != b :: Apart(rows[a].reg, rows[b].reg)
    requires if row.reg.id in rows then row.reg == rows[row.reg.id].reg
             else forall a | a in rows :: Apart(row.reg, rows[a].reg) && Apart(rows[a].reg, row.reg)
    ensures var rows' := rows[row.reg.id := row];
      forall a, b | a in rows' && b in rows' && a != b :: Apart(rows'[a].reg, rows'[b].reg)
  {}

  lemma ExecKeepsUniqueKeys(db: Db, s: Stmt)
    requires Registered(db) && UniqueKeys(db)
    ensures Registered(Exec(db, s)) && UniqueKeys(Exec(db, s))
  {
    ExecKeepsRegistered(db, s);
    if Written(db, s).Some? {
      WrittenRegistration(db, s);
      PutKeepsApart(db.rows, Written(db, s).value);
    }
  }

  lemma ExecKeepsRowsInv(db: Db, s: Stmt)
    requires RowsInv(db) && Keyed(db)
    ensures RowsInv(Exec(db, s))
  {
    if Written(db, s).Some? { WrittenRow(db, s); }
  }

  /** Every statement keeps the joint invariant, whatever its arguments. */
  lemma ExecKeepsDbInv(db: Db, s: Stmt)
    requires DbInv(db)
    ensures DbInv(Exec(db, s))
  {
    ExecKeepsUniqueKeys(db, s);
    ExecKeepsRowsInv(db, s);
  }

  /** The joint invariant of every reachable database. */
  lemma {:induction false} RunKeepsDbInv(db: Db, log: seq<Stmt>)
    requires DbInv(db)
    ensures DbInv(Run(db, log))
  {
    if log == [] {
    } else {
      RunKeepsDbInv(db, log[..|log| - 1]);
      ExecKeepsDbInv(Run(db, log[..|log| - 1]), log[|log| - 1]);
    }
  }

  lemma {:induction false} RunAppend(db: Db, first: seq<Stmt>, second: seq<Stmt>)
    ensures Run(db, first + second) == Run(Run(db, first), second)
  {
    if second == [] {
      assert first + second == first;
    } else {
      RunAppend(db, first, second[..|second| - 1]);
      assert (first + second)[..|first + second| - 1] == first + second[..|second| - 1];
    }
  }

  predicate Evolves(db: Db, db': Db) {
    && (forall id | id in db.rows :: id in db'.rows && RowEvolves(db.rows[id], db'.rows[id]))
    && db.audit <= db'.audit
    && (forall key | key in db.objects :: key in db'.objects)
    && db.now <= db'.now
  }

  lemma ExecEvolves(db: Db, s: Stmt)
    requires DbInv(db)
    ensures Evolves(db, Exec(db, s))
  {
    if Written(db, s).Some? { WrittenRow(db, s); }
  }

  lemma EvolvesTransitive(a: Db, b: Db, c: Db)
    requires Evolves(a, b) && Evolves(b, c)
    ensures Evolves(a, c)
  {}

  /** Registrations never change, statuses only advance, a terminal row is frozen, the audit log only grows. */
  lemma {:induction false} RunEvolves(db: Db, log: seq<Stmt>)
    requires DbInv(db)
    ensures Evolves(db, Run(db, log))
  {
    if log == [] {
    } else {
      var init := log[..|log| - 1];
      RunEvolves(db, init);
      RunKeepsDbInv(db, init);
      ExecEvolves(Run(db, init), log[|log| - 1]);
      EvolvesTransitive(db, Run(db, init), Run(db, log));
    }
  }

  /** What a scan result writes, column by column: clean makes the document available, infected rejects it, failed leaves it in
      quarantine; the lease ends and nothing else changes. */
  lemma VerdictColumns(db: Db, id: string, within: Partition, outcome: Outcome)
    requires Keyed(db) && Recordable(db, id, within)
    ensures var (row, db') := (db.rows[id], Exec(db, RecordVerdict(id, within, outcome)));
      && db'.rows.Keys == db.rows.Keys
      && var row' := db'.rows[id];
         && (outcome == CleanOutcome ==> row'.status == Available && row'.scan == Clean)
         && (outcome == InfectedOutcome ==> row'.status == Rejected && row'.scan == Infected)
         && (outcome == FailedOutcome ==> row'.status == Quarantined && row'.scan == Failed)
         && row'.lease == None && row'.reg == row.reg && row'.attempts == row.attempts && row'.uploadedAt == row.uploadedAt
  {}

  /** Which rows a scan result finds: those in quarantine, of the caller's tenant and environment. */
  lemma RecordableExactly(db: Db, id: string, within: Partition)
    requires RowsInv(db)
    ensures Recordable(db, id, within) <==>
      && id in db.rows && db.rows[id].status == Quarantined
      && db.rows[id].reg.tenant == within.tenant && db.rows[id].reg.environment == within.environment
  {
    assert id in db.rows ==> RowInv(db.rows[id], db.now);
  }

  /** What a claim may take, exactly: a document in quarantine, with fewer than five attempts behind it and no lease still running. */
  lemma ClaimableExactly(db: Db, id: string)
    requires RowsInv(db)
    ensures Claimable(db, id) <==>
      && id in db.rows && db.rows[id].status == Quarantined && db.rows[id].attempts < 5
      && (db.rows[id].lease.Some? ==> db.rows[id].lease.value < db.now)
  {
    assert id in db.rows ==> RowInv(db.rows[id], db.now);
  }

  /** And the one it takes: nothing else it might take was uploaded earlier. */
  lemma OldestExactly(db: Db, id: string)
    requires RowsInv(db)
    ensures Oldest(db, id) <==>
      Claimable(db, id) && forall other | other in db.rows && Claimable(db, other) ::
        db.rows[id].uploadedAt.value <= db.rows[other].uploadedAt.value
  {
    assert forall other | other in db.rows :: RowInv(db.rows[other], db.now);
  }

  /** What a claim writes: a lease of three minutes and one attempt more, of five at most, and nothing else but the scan status. */
  lemma ClaimColumns(db: Db, id: string)
    requires Keyed(db) && Oldest(db, id)
    ensures var (row, row') := (db.rows[id], Exec(db, ClaimOldest(id)).rows[id]);
      && row.attempts < 5 && row'.attempts == row.attempts + 1
      && row'.scan == Scanning && row'.status == Quarantined && row'.lease == Some(db.now + 180)
      && row'.reg == row.reg && row'.uploadedAt == row.uploadedAt
  {}

  /** What Complete's UPDATE writes: the document is in quarantine, uploaded now, and its scan is still to come. */
  lemma QuarantineColumns(db: Db, id: string, within: Partition)
    requires RowsInv(db) && Keyed(db) && id in db.rows
    ensures var (row, row') := (db.rows[id], Exec(db, Quarantine(id, within)).rows[id]);
      if row.status == PendingUpload && row.reg.tenant == within.tenant && row.reg.environment == within.environment then
        && row'.status == Quarantined && row'.uploadedAt == Some(db.now) && row'.scan == Pending && row'.attempts == 0
        && row'.lease == None && row'.reg == row.reg
      else row' == row
  {
    assert RowInv(db.rows[id], db.now);
  }

  /** The registrations have one source: tenant, environment, application, source reference, document type and digest. */
  predicate SameSource(a: Registration, b: Registration) {
    && a.sourceReference.Some? && a.sourceReference == b.sourceReference && a.tenant == b.tenant && a.environment == b.environment
    && a.application == b.application && a.documentType == b.documentType && a.sha256 == b.sha256
  }

  /** They declare the same owner, purpose, classification and size. */
  predicate SameTerms(a: Registration, b: Registration) {
    && a.ownerType == b.ownerType && a.ownerId == b.ownerId && a.purpose == b.purpose
    && a.classification == b.classification && a.size == b.size
  }

  /** When the INSERT meets the row of its source: it refreshes that row if the row awaits its upload and declares the same, and
      is refused otherwise. */
  lemma ConflictExactly(db: Db, reg: Registration, id: string)
    requires UniqueKeys(db) && Keyed(db) && CheckConstraints(reg) && id in db.rows && SameSource(db.rows[id].reg, reg)
    ensures var row := db.rows[id];
      Resolve(db, reg) == if row.status == PendingUpload && SameTerms(row.reg, reg) then Refreshed(id) else Refused
  {
    assert HoldsSourceKey(db, reg, id);
    assert forall other | HoldsSourceKey(db, reg, other) :: other == id || Apart(db.rows[other].reg, db.rows[id].reg);
  }

  /** A refreshed row keeps everything but its expiry, and no other row is touched. */
  lemma RefreshColumns(db: Db, reg: Registration, expiresAt: nat, event: AuditEvent, id: string)
    requires Keyed(db) && Resolve(db, reg) == Refreshed(id)
    ensures var (row, db') := (db.rows[id], Exec(db, InsertDocument(reg, expiresAt, event)));
      && id in db.rows && db'.rows == db.rows[id := row.(expiresAt := expiresAt, updatedAt := db.now)]
      && row.status == PendingUpload && db'.audit == db.audit + [event.(document := id)]
  {}

  /** No unique index but the source's stands in the way: neither the id, nor the object key, nor the idempotency key is taken. */
  ghost predicate Free(db: Db, reg: Registration) {
    && reg.id !in db.rows
    && forall id | id in db.rows ::
         var r := db.rows[id].reg;
         && r.objectKey != reg.objectKey
         && !(r.tenant == reg.tenant && r.environment == reg.environment && r.application == reg.application
              && r.idempotencyKey == reg.idempotencyKey)
  }

  /** When it meets none: it inserts if nothing else is taken, and violates an index if something is. */
  lemma InsertsExactly(db: Db, reg: Registration)
    requires CheckConstraints(reg) && forall id | id in db.rows :: !SameSource(db.rows[id].reg, reg)
    ensures Resolve(db, reg) == if Free(db, reg) then Inserted else Violation
  {
    if id :| HoldsSourceKey(db, reg, id) {
      assert SourceKeyOf(db.rows[id].reg) == SourceKeyOf(reg);
      assert SameSource(db.rows[id].reg, reg);
    }
  }

  lemma InsertColumns(db: Db, reg: Registration, expiresAt: nat, event: AuditEvent)
    requires Resolve(db, reg) == Inserted
    ensures var db' := Exec(db, InsertDocument(reg, expiresAt, event));
      && reg.id in db'.rows && db'.rows[reg.id].reg == reg && db'.rows[reg.id].expiresAt == expiresAt
      && db'.rows[reg.id].status == PendingUpload && db'.rows[reg.id].scan == Pending && db'.rows[reg.id].attempts == 0
      && db'.rows[reg.id].lease == None && db'.rows[reg.id].uploadedAt == None
      && db'.audit == db.audit + [event.(document := reg.id)]
  {}
}
