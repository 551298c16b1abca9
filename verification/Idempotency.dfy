/** What callers get from Create when calls interleave, replay and collide. */
module Idempotency {
  import opened Schema
  import opened Statements
  import opened Creation
  import opened Calls
  import opened Threads
  import opened Steps

  predicate GotSession(t: Thread) {
    t.pc.Done? && t.pc.reply.Session?
  }

  lemma SessionAnswers(digest: Digest, db: Db, t: Thread)
    requires ThreadOk(digest, db, t) && GotSession(t)
    ensures t.call.Create? && Prepare(t.call.scope, t.call.input).Ok? && t.pc.reply.id in db.rows
    ensures Answers(db.rows[t.pc.reply.id].reg, Prepare(t.call.scope, t.call.input).value)
  {}

  /** The requests agree on the source of the document, or, without one, on the idempotency key. */
  predicate SameTarget(r: Request, q: Request) {
    && SourceKeyOf(Register(r, "", 0)) == SourceKeyOf(Register(q, "", 0))
    && (SourceKeyOf(Register(r, "", 0)).None? ==> IdempotencyKeyOf(Register(r, "", 0)) == IdempotencyKeyOf(Register(q, "", 0)))
  }

  /** Two rows that answer two requests are one row exactly when the requests have one target. */
  lemma AnswersAgree(db: Db, r: Request, q: Request, a: string, b: string)
    requires Keyed(db) && UniqueKeys(db) && a in db.rows && b in db.rows
    requires Answers(db.rows[a].reg, r) && Answers(db.rows[b].reg, q)
    ensures a == b <==> SameTarget(r, q)
  {
    assert a == b || Apart(db.rows[a].reg, db.rows[b].reg);
  }

  /** When sessions name one document: exactly when their requests have one target, in any interleaving. So the idempotency
      key alone decides only for requests without a source; with one, a key names as many documents as it was used with
      targets. */
  lemma SessionsAgree(digest: Digest, acts: seq<Act>, i: nat, j: nat)
    requires var w := Reachable(digest, acts);
      i in w.threads && j in w.threads && GotSession(w.threads[i]) && GotSession(w.threads[j])
    ensures var w := Reachable(digest, acts);
      var (s, t) := (w.threads[i], w.threads[j]);
      && s.call.Create? && t.call.Create? && Prepare(s.call.scope, s.call.input).Ok? && Prepare(t.call.scope, t.call.input).Ok?
      && var (r, q) := (Prepare(s.call.scope, s.call.input).value, Prepare(t.call.scope, t.call.input).value);
         (s.pc.reply.id == t.pc.reply.id <==> SameTarget(r, q))
  {
    ReachableOk(digest, acts);
    var w := Reachable(digest, acts);
    var (s, t) := (w.threads[i], w.threads[j]);
    SessionAnswers(digest, w.db, s);
    SessionAnswers(digest, w.db, t);
    AnswersAgree(w.db, Prepare(s.call.scope, s.call.input).value, Prepare(t.call.scope, t.call.input).value, s.pc.reply.id, t.pc.reply.id);
  }

  /** Idempotent create: whatever interleaves between lookup and insert, two successful Create calls with one request,
      idempotency key included, return one document; and no reachable state holds two rows with one key. */
  lemma SameRequestSameDocument(digest: Digest, acts: seq<Act>, i: nat, j: nat)
    requires var w := Reachable(digest, acts);
      && i in w.threads && j in w.threads && GotSession(w.threads[i]) && GotSession(w.threads[j])
      && w.threads[i].call.Create? && w.threads[j].call.Create?
      && Prepare(w.threads[i].call.scope, w.threads[i].call.input) == Prepare(w.threads[j].call.scope, w.threads[j].call.input)
    ensures UniqueKeys(Reachable(digest, acts).db)
    ensures Reachable(digest, acts).threads[i].pc.reply.id == Reachable(digest, acts).threads[j].pc.reply.id
  {
    ReachableDbInv(digest, acts, []);
    SessionsAgree(digest, acts, i, j);
  }

  /** A row that was inserted for a request answers every later replay of it, from its stored key. */
  lemma ReplayFindsRow(db: Db, db': Db, r: Request, id: string)
    requires DbInv(db) && DbInv(db') && Evolves(db, db')
    requires id in db.rows && db.rows[id].reg == Register(r, id, db.rows[id].reg.createdAt)
    ensures GetIdempotent(db', r) == Ok(db'.rows[id])
  {
    assert HoldsIdempotencyKey(db', r, id);
    forall other | HoldsIdempotencyKey(db', r, other)
      ensures other == id
    {
      assert other == id || Apart(db'.rows[other].reg, db'.rows[id].reg);
    }
  }

  /** A random id of the common length makes a key that no row has. */
  lemma FreshKeyUnused(w: World, r: Request, fresh_: string)
    requires Authored(w) && fresh_ !in w.db.rows && forall id | id in w.db.rows :: |id| == |fresh_|
    ensures forall id | id in w.db.rows :: w.db.rows[id].reg.objectKey != ObjectKey(r.scope, r.input, fresh_)
  {
    forall id | id in w.db.rows
      ensures w.db.rows[id].reg.objectKey != ObjectKey(r.scope, r.input, fresh_)
    {
      var author, r0 :| AuthoredBy(w, id, author, r0);
      KeysDistinct(r0, r, id, fresh_);
    }
  }

  /** Some row has this request's source, document type and digest: the INSERT will meet a conflict. */
  ghost predicate TargetTaken(db: Db, r: Request) {
    exists id :: HoldsSourceKey(db, Register(r, "", 0), id)
  }

  /** The session an INSERT ends with. */
  ghost predicate Ends(digest: Digest, w: World, tid: nat, c: Choice, reply: Reply) {
    tid in w.threads && w.threads[tid].pc.CreateInsert? && reply.Session? && Resume(digest, w.db, w.threads[tid], c) == Done(reply)
  }

  /** The key Create signs is the returned row's own key exactly when no row had the request's source, type and digest; if
      one had, the signed key is the key of no row at all. Ids are random and of one length, as newID makes them. */
  lemma SignedKeyOwned(digest: Digest, acts: seq<Act>, tid: nat, c: Choice, reply: Reply)
    requires Ends(digest, Reachable(digest, acts), tid, c, reply)
    requires var db := Reachable(digest, acts).db; c.id !in db.rows && forall id | id in db.rows :: |id| == |c.id|
    ensures var w := Reachable(digest, acts);
      var db' := After(w.db, w.threads[tid], c);
      && reply.id in db'.rows
      && (db'.rows[reply.id].reg.objectKey == reply.key <==> !TargetTaken(w.db, w.threads[tid].pc.request))
      && (TargetTaken(w.db, w.threads[tid].pc.request) ==> forall id | id in db'.rows :: db'.rows[id].reg.objectKey != reply.key)
  {
    ReachableOk(digest, acts);
    var w := Reachable(digest, acts);
    FreshKeyUnused(w, w.threads[tid].pc.request, c.id);
    InsertEnds(digest, w.db, w.threads[tid], c, reply);
  }

  lemma TakenRefreshes(db: Db, r: Request, id: string, now: nat)
    requires Resolve(db, Register(r, id, now)).Inserted? || Resolve(db, Register(r, id, now)).Refreshed?
    ensures Resolve(db, Register(r, id, now)).Refreshed? <==> TargetTaken(db, r)
  {
    assert forall other :: HoldsSourceKey(db, Register(r, id, now), other) <==> HoldsSourceKey(db, Register(r, "", 0), other);
  }

  lemma InsertEnds(digest: Digest, db: Db, t: Thread, c: Choice, reply: Reply)
    requires Keyed(db) && t.pc.CreateInsert? && reply.Session? && Resume(digest, db, t, c) == Done(reply)
    ensures reply.key == ObjectKey(t.pc.request.scope, t.pc.request.input, c.id)
    ensures
      if TargetTaken(db, t.pc.request) then
        && reply.id in db.rows && After(db, t, c).rows.Keys == db.rows.Keys
        && forall id | id in db.rows :: After(db, t, c).rows[id].reg == db.rows[id].reg
      else
        reply.id == c.id && reply.id in After(db, t, c).rows && After(db, t, c).rows[reply.id].reg.objectKey == reply.key
  {
    InsertRuns(digest, db, t, c);
    TakenRefreshes(db, t.pc.request, c.id, db.now);
    RegistrationKept(db, Issue(db, t, c));
  }

  /** What Create answers when nothing comes between its statements and the party exists. */
  ghost function ReplyTo(db: Db, r: Request, newId: string): Reply {
    match GetIdempotent(db, r)
    case Ok(row) => Session(row.reg.id, row.reg.objectKey)
    case Err(e) => if e != ErrNotFound then Refusal(e) else SessionOf(r, newId, Resolve(db, Register(r, newId, db.now)))
  }

  /** DO UPDATE does not store the request's idempotency key. */
  lemma DedupStoresNoKey(db: Db, r: Request, newId: string, now: nat, expiresAt: nat, event: AuditEvent)
    requires Keyed(db) && GetIdempotent(db, r) == Err(ErrNotFound) && Resolve(db, Register(r, newId, now)).Refreshed?
    ensures GetIdempotent(Exec(db, InsertDocument(Register(r, newId, now), expiresAt, event)), r) == Err(ErrNotFound)
  {
    var reg := Register(r, newId, now);
    var db' := Exec(db, InsertDocument(reg, expiresAt, event));
    RegistrationKept(db, InsertDocument(reg, expiresAt, event));
    assert HoldsSourceKey(db, reg, Resolve(db, reg).id);
    assert db'.rows.Keys == db.rows.Keys;
    assert forall id :: HoldsIdempotencyKey(db', r, id) ==> HoldsIdempotencyKey(db, r, id);
  }

  /** The row is stored under the request's own idempotency key and fingerprint. */
  predicate Stored(reg: Registration, r: Request) {
    IdempotencyKeyOf(reg) == IdempotencyKeyOf(Register(r, "", 0)) && reg.requestHash == RequestHash(r.input)
  }

  lemma StoredAnswers(db: Db, r: Request, id: string)
    requires UniqueKeys(db) && Keyed(db) && id in db.rows && IdempotencyKeyOf(db.rows[id].reg) == IdempotencyKeyOf(Register(r, "", 0))
    ensures GetIdempotent(db, r) == if db.rows[id].reg.requestHash == RequestHash(r.input) then Ok(db.rows[id]) else Err(ErrConflict)
  {
    assert HoldsIdempotencyKey(db, r, id);
    assert forall other | HoldsIdempotencyKey(db, r, other) :: other == id || Apart(db.rows[other].reg, db.rows[id].reg);
  }

  /** A row that answers the request decides what its INSERT does: it is refreshed while it awaits its upload. */
  lemma ConflictAnswers(db: Db, r: Request, id: string, newId: string)
    requires UniqueKeys(db) && Keyed(db) && id in db.rows && Answers(db.rows[id].reg, r) && SourceKeyOf(db.rows[id].reg).Some?
    requires CheckConstraints(Register(r, newId, db.now))
    ensures Resolve(db, Register(r, newId, db.now)) == if db.rows[id].status == PendingUpload then Refreshed(id) else Refused
  {
    var reg := Register(r, newId, db.now);
    assert HoldsSourceKey(db, reg, id);
    assert forall other | HoldsSourceKey(db, reg, other) :: other == id || Apart(db.rows[other].reg, db.rows[id].reg);
  }

  lemma AnsweredMeetsChecks(scope: Scope, input: CreateInput, reg: Registration, newId: string, now: nat)
    requires Prepare(scope, input).Ok? && Answers(reg, Prepare(scope, input).value) && CheckConstraints(reg)
    ensures CheckConstraints(Register(Prepare(scope, input).value, newId, now))
  {
    AcceptedMeetsChecks(scope, input, newId, now);
  }

  ghost predicate KeyFree(db: Db, r: Request) {
    forall id :: !HoldsIdempotencyKey(db, r, id)
  }

  lemma ReplayOfUsedKey(db: Db, r: Request, id: string, other: string, newId: string)
    requires UniqueKeys(db) && Keyed(db) && id in db.rows && HoldsIdempotencyKey(db, r, other)
    ensures var again := ReplyTo(db, r, newId); again.Session? && again.id == id <==> Stored(db.rows[id].reg, r)
  {
    StoredAnswers(db, r, other);
    assert other == id || Apart(db.rows[other].reg, db.rows[id].reg);
  }

  lemma ReplayOfFreeKey(db: Db, r: Request, id: string, newId: string)
    requires UniqueKeys(db) && Keyed(db) && id in db.rows && Answers(db.rows[id].reg, r) && KeyFree(db, r)
    requires CheckConstraints(Register(r, newId, db.now))
    ensures var again := ReplyTo(db, r, newId); again.Session? && again.id == id <==> db.rows[id].status == PendingUpload
  {
    assert !HoldsIdempotencyKey(db, r, id);
    ConflictAnswers(db, r, id, newId);
  }

  /** When a replay returns the document of its first answer: exactly when that row stores the request itself, or, after a
      deduplicated answer, while the row still awaits its upload and nobody else has used the idempotency key. */
  lemma ReplayExactly(db: Db, scope: Scope, input: CreateInput, id: string, newId: string)
    requires DbInv(db) && Prepare(scope, input).Ok? && id in db.rows && Answers(db.rows[id].reg, Prepare(scope, input).value)
    ensures var r := Prepare(scope, input).value;
      var again := ReplyTo(db, r, newId);
      again.Session? && again.id == id <==> Stored(db.rows[id].reg, r) || (KeyFree(db, r) && db.rows[id].status == PendingUpload)
  {
    var r := Prepare(scope, input).value;
    if other :| HoldsIdempotencyKey(db, r, other) {
      ReplayOfUsedKey(db, r, id, other, newId);
    } else {
      AnsweredMeetsChecks(scope, input, db.rows[id].reg, newId, db.now);
      ReplayOfFreeKey(db, r, id, newId);
      assert Stored(db.rows[id].reg, r) ==> HoldsIdempotencyKey(db, r, id);
    }
  }

  /** So an object put at a key no row has does not help any document complete. */
  lemma OrphanPutHelpsNobody(db: Db, key: string, content: StoredObject, id: string)
    requires id in db.rows && db.rows[id].reg.objectKey != key
    ensures Verified(Exec(db, PutObject(key, content)), db.rows[id].reg) <==> Verified(db, db.rows[id].reg)
  {}

  /** The row is stored under the tenant, environment, application and key of the request. */
  predicate UnderKey(reg: Registration, r: Request) {
    && reg.tenant == r.scope.tenant && reg.environment == r.scope.environment
    && reg.application == r.scope.application && reg.idempotencyKey == r.input.idempotencyKey
  }

  /** Two requests that ask the same, field by field; only the key may differ. */
  predicate SameInput(a: CreateInput, b: CreateInput) {
    && a.partyId == b.partyId && a.ownerType == b.ownerType && a.ownerId == b.ownerId
    && a.sourceReference == b.sourceReference && a.consentReference == b.consentReference
    && a.documentType == b.documentType && a.purpose == b.purpose && a.classification == b.classification
    && a.filename == b.filename && a.contentType == b.contentType && a.sha256 == b.sha256
    && a.retentionCategory == b.retentionCategory && a.size == b.size && a.retainUntil == b.retainUntil
  }

  /** An unused key: the lookup finds nothing exactly if no row is stored under it. */
  lemma KeyUnusedExactly(db: Db, r: Request)
    ensures GetIdempotent(db, r) == Err(ErrNotFound) <==> forall id | id in db.rows :: !UnderKey(db.rows[id].reg, r)
  {
    assert forall id | id in db.rows :: HoldsIdempotencyKey(db, r, id) <==> UnderKey(db.rows[id].reg, r);
  }

  /** A used key: the lookup answers with the row exactly if the request it was made for asked the same, and else conflicts. */
  lemma KeyUsedExactly(w: World, r: Request, id: string, author: nat, q: Request)
    requires Keyed(w.db) && UniqueKeys(w.db) && id in w.db.rows && UnderKey(w.db.rows[id].reg, r) && AuthoredBy(w, id, author, q)
    ensures GetIdempotent(w.db, r) == if SameInput(q.input, r.input) then Ok(w.db.rows[id]) else Err(ErrConflict)
  {
    StoredAnswers(w.db, r, id);
    assert q.input.idempotencyKey == r.input.idempotencyKey;
    assert SameInput(q.input, r.input) <==> q.input == r.input;
    assert RequestHash(q.input) == RequestHash(r.input) ==> SameInput(q.input, r.input);
  }

  /** Replay or conflict, in every reachable world: a call whose key is used ends at its lookup, with a session for the row if
      the call that made the row asked the same, field by field, with ErrConflict otherwise, and with nothing written. */
  lemma UsedKeyAnswers(digest: Digest, acts: seq<Act>, tid: nat, id: string, author: nat, q: Request, c: Choice)
    requires var w := Reachable(digest, acts);
      && tid in w.threads && w.threads[tid].pc.CreateLookup?
      && id in w.db.rows && UnderKey(w.db.rows[id].reg, w.threads[tid].pc.request) && AuthoredBy(w, id, author, q)
    ensures var w := Reachable(digest, acts);
      && After(w.db, w.threads[tid], c) == w.db
      && Stepped(digest, w.db, w.threads[tid], c).pc ==
           Done(if SameInput(q.input, w.threads[tid].pc.request.input) then Session(id, w.db.rows[id].reg.objectKey) else Refusal(ErrConflict))
  {
    var w := Reachable(digest, acts);
    ReachableDbInv(digest, acts, []);
    KeyUsedExactly(w, w.threads[tid].pc.request, id, author, q);
    ReplayRuns(digest, w.db, w.threads[tid], c);
  }

  /** Create's answer after its INSERT, exactly: a session for the row of its source if that row awaits its upload and declares the
      same, ErrConflict if it does not; with no such row, a session for the new id, or a plain error if another index or a CHECK
      is in the way. The key in the session is the one made for the new id in every case. */
  lemma InsertAnswersExactly(digest: Digest, db: Db, t: Thread, c: Choice)
    requires UniqueKeys(db) && Keyed(db) && t.pc.CreateInsert?
    ensures var reg := Register(t.pc.request, c.id, db.now);
      var pc := Stepped(digest, db, t, c).pc;
      if !CheckConstraints(reg) then pc == Done(Refusal(ErrInternal))
      else
        && (forall id | id in db.rows && SameSource(db.rows[id].reg, reg) ::
              pc == Done(if db.rows[id].status == PendingUpload && SameTerms(db.rows[id].reg, reg) then Session(id, reg.objectKey)
                         else Refusal(ErrConflict)))
        && ((forall id | id in db.rows :: !SameSource(db.rows[id].reg, reg)) ==>
              pc == Done(if Free(db, reg) then Session(c.id, reg.objectKey) else Refusal(ErrInternal)))
  {
    var reg := Register(t.pc.request, c.id, db.now);
    InsertRuns(digest, db, t, c);
    if CheckConstraints(reg) {
      forall id | id in db.rows && SameSource(db.rows[id].reg, reg)
        ensures Resolve(db, reg) ==
          if db.rows[id].status == PendingUpload && SameTerms(db.rows[id].reg, reg) then Refreshed(id) else Refused
      {
        ConflictExactly(db, reg, id);
      }
      if forall id | id in db.rows :: !SameSource(db.rows[id].reg, reg) { InsertsExactly(db, reg); }
    }
  }

  /** And there always is such a call. */
  lemma RowHasAuthor(digest: Digest, acts: seq<Act>, id: string) returns (author: nat, q: Request)
    requires id in Reachable(digest, acts).db.rows
    ensures AuthoredBy(Reachable(digest, acts), id, author, q)
  {
    ReachableOk(digest, acts);
    author, q :| AuthoredBy(Reachable(digest, acts), id, author, q);
  }
}
