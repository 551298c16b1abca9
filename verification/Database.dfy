/** The store as the service's methods use it: rows, audit log, objects and clock, updated in place one statement at a time. */
module Database {
  import opened Schema
  import opened Access
  import opened Statements
  import opened Creation
  import opened Calls
  import opened Threads
  import opened Rounds
  import opened Ordering
  import opened Paging
  import opened CaseList

  class Store {
    var rows: map<string, Row>
    var audit: seq<AuditEvent>
    var objects: map<string, StoredObject>
    var now: nat
    ghost const digest: Digest
    ghost var threads: map<nat, Thread>   // every call so far, and where it stands
    ghost var trace: seq<Act>             // how the store came to be as it is

    ghost function State(): Db
      reads this
    {
      Db(rows, audit, objects, now)
    }

    ghost function Current(): World
      reads this
    {
      World(State(), threads)
    }

    /** The store is one that some interleaving of calls reaches. */
    ghost predicate Valid()
      reads this
    {
      Current() == Reachable(digest, trace)
    }

    constructor (digest: Digest)
      ensures Valid() && this.digest == digest && threads == map[] && State() == EMPTY_DB
    {
      rows, audit, objects, now := map[], [], map[], 0;
      this.digest, threads, trace := digest, map[], [];
    }

    /** A call arrives. */
    ghost method Begin(tid: nat, call: Call)
      requires Valid() && tid !in threads
      modifies `threads, `trace
      ensures Valid() && trace == old(trace) + [Spawn(tid, call)]
      ensures threads == old(threads)[tid := Thread(call, Start(call))]
    {
      threads, trace := threads[tid := Thread(call, Start(call))], trace + [Spawn(tid, call)];
      assert trace[..|trace| - 1] == old(trace);
    }

    /** Between two statements: other calls, clients and the clock do whatever they do, and then either the next statement can
        run or it fails without effect. The body is the least that may happen; the contract is all that a caller knows. */
    method Await(ghost tid: nat) returns (ok: bool)
      requires Valid() && tid in threads && !threads[tid].pc.Done?
      modifies this
      ensures Valid() && tid in threads && old(trace) <= trace
      ensures threads[tid] == if ok then old(threads[tid]) else Thread(old(threads[tid].call), Done(Refusal(ErrInternal)))
      ensures exists others :: Rests(tid, others) && trace == old(trace) + others + if ok then [] else [Stop(tid)]
    {
      ok := *;
      assert Rests(tid, []);
      if ok {
        assert trace == trace + [] + [];
      } else {
        Ended(tid);
        assert trace == old(trace) + [] + [Stop(tid)];
      }
    }

    /** The statement just executed was the thread's next one. */
    ghost method Advanced(w: World, tid: nat, c: Choice)
      requires w == Reachable(digest, trace) && tid in w.threads && threads == w.threads
      requires State() == Exec(w.db, Issue(w.db, w.threads[tid], c))
      modifies `threads, `trace
      ensures Valid() && trace == old(trace) + [Step(tid, c)]
      ensures threads == w.threads[tid := Stepped(digest, w.db, w.threads[tid], c)]
    {
      threads, trace := w.threads[tid := Stepped(digest, w.db, w.threads[tid], c)], trace + [Step(tid, c)];
      assert trace[..|trace| - 1] == old(trace);
    }

    /** A statement failed, or the process ended. */
    ghost method Ended(tid: nat)
      requires Valid() && tid in threads && !threads[tid].pc.Done?
      modifies `threads, `trace
      ensures Valid() && trace == old(trace) + [Stop(tid)]
      ensures threads == old(threads)[tid := Thread(old(threads)[tid].call, Done(Refusal(ErrInternal)))]
    {
      threads, trace := threads[tid := Thread(threads[tid].call, Done(Refusal(ErrInternal)))], trace + [Stop(tid)];
      assert trace[..|trace| - 1] == old(trace);
    }

    /** getIdempotent's SELECT and hash comparison. */
    method GetIdempotent(r: Request) returns (result: Result<Row>)
      requires UniqueKeys(State())
      ensures result == Creation.GetIdempotent(State(), r)
    {
      if exists id | id in rows :: IdempotencyKeyOf(rows[id].reg) == IdempotencyKey(r.scope.tenant, r.scope.environment, r.scope.application, r.input.idempotencyKey) {
        var id :| id in rows && IdempotencyKeyOf(rows[id].reg) == IdempotencyKey(r.scope.tenant, r.scope.environment, r.scope.application, r.input.idempotencyKey);
        assert HoldsIdempotencyKey(State(), r, id);
        assert forall other | HoldsIdempotencyKey(State(), r, other) :: other == id || Apart(rows[other].reg, rows[id].reg);
        if rows[id].reg.requestHash != RequestHash(r.input) {
          return Err(ErrConflict);
        }
        return Ok(rows[id]);
      }
      return Err(ErrNotFound);
    }

    /** The creating transaction: INSERT ... ON CONFLICT DO UPDATE and its audit event. */
    method InsertDocument(reg: Registration, expiresAt: nat, event: AuditEvent) returns (result: Upsert)
      requires UniqueKeys(State()) && Keyed(State())
      modifies `rows, `audit
      ensures result == Resolve(old(State()), reg)
      ensures State() == Exec(old(State()), Stmt.InsertDocument(reg, expiresAt, event))
    {
      if !CheckConstraints(reg) {
        return Violation;
      }
      var key := SourceKeyOf(reg);
      if key.Some? && exists id | id in rows :: SourceKeyOf(rows[id].reg) == key {
        var id :| id in rows && SourceKeyOf(rows[id].reg) == key;
        OneHolder(State(), reg, id);
        if !Refreshable(rows[id], reg) {
          return Refused;
        }
        rows := rows[id := rows[id].(expiresAt := expiresAt, updatedAt := now)];
        audit := audit + [event.(document := id)];
        return Refreshed(id);
      }
      NoHolder(State(), reg);
      if reg.id in rows || exists id | id in rows :: rows[id].reg.objectKey == reg.objectKey || IdempotencyKeyOf(rows[id].reg) == IdempotencyKeyOf(reg) {
        return Violation;
      }
      rows := rows[reg.id := FreshRow(reg, expiresAt)];
      audit := audit + [event.(document := reg.id)];
      return Inserted;
    }

    /** get: the SELECT with or without a tenant, then the payment-access check. */
    method Get(scope: Scope, id: string) returns (result: Result<Row>)
      ensures result == Access.Get(State(), scope, id)
    {
      if id !in rows {
        return Err(ErrNotFound);
      }
      var row := rows[id];
      if scope.tenant == "" {
        var environment := scope.environment;
        if environment == "" {
          environment := "sandbox";
        }
        if row.reg.environment != environment {
          return Err(ErrNotFound);
        }
      } else if row.reg.tenant != scope.tenant || row.reg.environment != scope.environment {
        return Err(ErrNotFound);
      }
      var granted := CheckPaymentAccess(scope, row.reg);
      return if granted then Ok(row) else Err(ErrNotFound);
    }

    method CheckPaymentAccess(scope: Scope, d: Registration) returns (granted: bool)
      ensures granted == AccessGranted(State(), scope, d)
    {
      return AccessGranted(Db(rows, audit, objects, now), scope, d);
    }

    /** Complete's UPDATE. */
    method Quarantine(id: string, within: Partition) returns (found: bool)
      requires Keyed(State())
      modifies `rows
      ensures found == Quarantinable(old(State()), id, within)
      ensures State() == Exec(old(State()), Stmt.Quarantine(id, within))
    {
      found := id in rows && Within(rows[id].reg, within) && rows[id].status == PendingUpload;
      if found {
        rows := rows[id := rows[id].(status := Quarantined, uploadedAt := Some(now), updatedAt := now)];
      }
    }

    /** ORDER BY uploaded_at LIMIT 1. */
    static method FirstUploaded(db: Db, candidates: set<string>) returns (pick: string)
      requires candidates != {} && candidates <= db.rows.Keys
      ensures pick in candidates && forall other | other in candidates :: NoLater(db.rows[pick], db.rows[other])
    {
      pick :| pick in candidates;
      var rest := candidates - {pick};
      while rest != {}
        invariant pick in candidates && rest <= candidates
        invariant forall other | other in candidates - rest :: NoLater(db.rows[pick], db.rows[other])
        decreases |rest|
      {
        var other :| other in rest;
        rest := rest - {other};
        if !NoLater(db.rows[pick], db.rows[other]) {
          pick := other;
        }
      }
      assert candidates - rest == candidates;
    }

    /** The claim query; equal upload times leave the choice to the database. */
    method ClaimOldest() returns (claimed: Option<Row>)
      requires Keyed(State())
      modifies `rows
      ensures claimed.None? ==> (forall id | id in rows :: !Claimable(State(), id)) && State() == old(State())
      ensures claimed.Some? ==>
        && Oldest(old(State()), claimed.value.reg.id)
        && claimed.value.reg == old(rows)[claimed.value.reg.id].reg
        && State() == Exec(old(State()), Stmt.ClaimOldest(claimed.value.reg.id))
    {
      var db := Db(rows, audit, objects, now);
      var candidates := set id | id in rows && Claimable(db, id);
      if candidates == {} {
        assert forall id | id in rows && Claimable(db, id) :: id in candidates;
        return None;
      }
      var pick := FirstUploaded(db, candidates);
      rows := rows[pick := rows[pick].(scan := Scanning, attempts := rows[pick].attempts + 1, lease := Some(now + LEASE), updatedAt := now)];
      return Some(rows[pick]);
    }

    /** RecordScan's UPDATE. */
    method RecordVerdict(id: string, within: Partition, outcome: Outcome) returns (found: bool)
      requires Keyed(State())
      modifies `rows
      ensures found == Recordable(old(State()), id, within)
      ensures State() == Exec(old(State()), Stmt.RecordVerdict(id, within, outcome))
    {
      found := Recordable(Db(rows, audit, objects, now), id, within);
      if found {
        rows := rows[id := rows[id].(scan := ScanAfter(outcome), status := StatusAfter(outcome), lease := None, updatedAt := now)];
      }
    }

    /** INSERT INTO document_audit_events ... SELECT ... FROM documents. */
    method AppendAudit(event: AuditEvent, only: Option<Partition>)
      modifies `audit
      ensures State() == Exec(old(State()), Stmt.AppendAudit(event, only))
    {
      if event.document in rows && (only.None? || Within(rows[event.document].reg, only.value)) {
        audit := audit + [event];
      }
    }

    method PutObject(key: string, content: StoredObject)
      modifies `objects
      ensures State() == Exec(old(State()), Stmt.PutObject(key, content))
    {
      objects := objects[key := content];
    }

    /** Store.Verify: length and metadata of the stored object. */
    method Verify(reg: Registration) returns (ok: bool)
      ensures ok == Verified(State(), reg)
      ensures ok <==> reg.objectKey in objects && |objects[reg.objectKey].bytes| == reg.size && objects[reg.objectKey].sha256 == reg.sha256
    {
      ok := reg.objectKey in objects;
      if ok {
        var head := objects[reg.objectKey];
        ok := |head.bytes| == reg.size && head.sha256 == reg.sha256;
      }
    }

    /** The case list's query: the first 51 ids beyond the cursor. */
    method QueryCase(scope: Scope, application: string, party: string, after: string) returns (ids: seq<string>)
      ensures ids == Take(LIMIT, Beyond(CaseIds(State(), scope, application, party), after))
    {
      ghost var all := Beyond(CaseIds(State(), scope, application, party), after);
      var ahead := set id | id in rows && CaseBound(Db(rows, audit, objects, now), scope, application, party, id) && Less(after, id);
      assert ahead == set id | id in CaseIds(State(), scope, application, party) && Less(after, id);
      ids := [];
      while |ids| < LIMIT && ahead != {}
        invariant |ids| <= LIMIT && all == ids + Sorted(ahead)
        decreases |ahead|
      {
        assert exists id :: IsLeast(ahead, id) by { var least := LeastExists(ahead); }
        var id :| id in ahead && forall other | other in ahead :: other == id || Less(id, other);
        SortedFrom(ids, ahead, id);
        ids, ahead := ids + [id], ahead - {id};
      }
    }
  }

  lemma OneHolder(db: Db, reg: Registration, id: string)
    requires UniqueKeys(db) && CheckConstraints(reg) && HoldsSourceKey(db, reg, id)
    ensures Resolve(db, reg) == if Refreshable(db.rows[id], reg) then Refreshed(id) else Refused
  {}

  lemma NoHolder(db: Db, reg: Registration)
    requires CheckConstraints(reg)
    requires SourceKeyOf(reg).None? || forall id | id in db.rows :: SourceKeyOf(db.rows[id].reg) != SourceKeyOf(reg)
    ensures Resolve(db, reg) == if Collides(db, reg) then Violation else Inserted
  {}

  /** Taking the least id off the set puts it at the end of what was taken before. */
  lemma SortedFrom(taken: seq<string>, ahead: set<string>, id: string)
    requires IsLeast(ahead, id)
    ensures taken + Sorted(ahead) == (taken + [id]) + Sorted(ahead - {id})
  {
    LessTotal(id, Least(ahead));
  }
}
