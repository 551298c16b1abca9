/** Content integrity at every key that only UploadContent writes to, in every interleaving. */
module Integrity {
  import opened Schema
  import opened Statements
  import opened Creation
  import opened Calls
  import opened Threads
  import opened Steps

  /** No client wrote to this key through a presigned URL; other keys are free. */
  predicate ProxyOnly(acts: seq<Act>, key: string) {
    forall a | a in acts :: !(a.ClientPut? && a.key == key)
  }

  /** An object at the key lies under some row's key. */
  ghost predicate Owned(db: Db, key: string) {
    key in db.objects ==> exists id :: id in db.rows && db.rows[id].reg.objectKey == key
  }

  predicate Holds(digest: Digest, db: Db, reg: Registration) {
    reg.objectKey in db.objects ==>
      db.objects[reg.objectKey].sha256 == reg.sha256 && Declared(digest, reg, db.objects[reg.objectKey].bytes)
  }

  ghost predicate Matching(digest: Digest, db: Db, key: string) {
    forall id | id in db.rows && db.rows[id].reg.objectKey == key :: Holds(digest, db, db.rows[id].reg)
  }

  predicate StreamOk(digest: Digest, t: Thread, key: string) {
    t.pc.Done? && t.pc.reply.Streamed? && t.pc.reply.key == key ==> Declared(digest, t.pc.reply.document, t.pc.reply.content.bytes)
  }

  ghost predicate Intact(digest: Digest, w: World, key: string) {
    Owned(w.db, key) && Matching(digest, w.db, key) && forall tid | tid in w.threads :: StreamOk(digest, w.threads[tid], key)
  }

  predicate Puts(s: Stmt, key: string) {
    s.PutObject? && s.key == key
  }

  lemma OtherStepOwned(db: Db, s: Stmt, key: string)
    requires Keyed(db) && Owned(db, key) && !Puts(s, key)
    ensures Owned(Exec(db, s), key)
  {
    RegistrationKept(db, s);
    if key in db.objects {
      var id :| id in db.rows && db.rows[id].reg.objectKey == key;
      assert id in Exec(db, s).rows;
    }
  }

  /** A statement that does not write to the key leaves its promise alone; a new row's key is unused. */
  lemma OtherStepMatching(digest: Digest, db: Db, s: Stmt, key: string)
    requires Registered(db) && Owned(db, key) && Matching(digest, db, key) && !Puts(s, key)
    ensures Matching(digest, Exec(db, s), key)
  {
    if Written(db, s).Some? {
      WrittenRegistration(db, s);
    }
  }

  /** The proxy writes bytes it has hashed, under the key of the row that declares them. */
  lemma PutStepIntact(digest: Digest, db: Db, reg: Registration, body: seq<byte>)
    requires DbInv(db) && Known(db, reg) && Declared(digest, reg, body)
    ensures var db' := Exec(db, PutObject(reg.objectKey, StoredObject(body, reg.sha256)));
      Owned(db', reg.objectKey) && Matching(digest, db', reg.objectKey)
  {
    var db' := Exec(db, PutObject(reg.objectKey, StoredObject(body, reg.sha256)));
    assert db'.rows[reg.id].reg.objectKey == reg.objectKey;
    forall id | id in db'.rows && db'.rows[id].reg.objectKey == reg.objectKey
      ensures Holds(digest, db', db'.rows[id].reg)
    {
      assert id == reg.id || Apart(db.rows[id].reg, db.rows[reg.id].reg);
    }
  }

  predicate HasStreamed(t: Thread) {
    t.pc.Done? && t.pc.reply.Streamed?
  }

  /** Nothing but the open hands bytes to a reader. */
  lemma OthersStreamNothing(digest: Digest, db: Db, t: Thread, c: Choice)
    requires !t.pc.VersionOpen? && HasStreamed(Stepped(digest, db, t, c))
    ensures Stepped(digest, db, t, c) == t
  {}

  /** Bytes handed to a reader are the row's bytes as they were at the open. */
  lemma StreamStep(digest: Digest, db: Db, t: Thread, c: Choice, key: string)
    requires Keyed(db) && ThreadOk(digest, db, t) && Matching(digest, db, key) && StreamOk(digest, t, key)
    ensures StreamOk(digest, Stepped(digest, db, t, c), key)
  {
    if t.pc.VersionOpen? {
      OpenRuns(digest, db, t, c);
      assert db.rows[t.pc.stored.id].reg == t.pc.stored;
    } else if HasStreamed(Stepped(digest, db, t, c)) {
      OthersStreamNothing(digest, db, t, c);
    }
  }

  /** Only an UploadContent thread puts, and it puts the bytes it has checked against the row it has read. */
  lemma PutIssuer(digest: Digest, db: Db, t: Thread, c: Choice)
    requires ThreadOk(digest, db, t) && Issue(db, t, c).PutObject?
    ensures t.pc.UploadPut? && t.call.UploadContent? && Known(db, t.pc.reg) && Declared(digest, t.pc.reg, t.call.body)
    ensures Issue(db, t, c) == PutObject(t.pc.reg.objectKey, StoredObject(t.call.body, t.pc.reg.sha256))
  {}

  lemma StmtKeepsIntact(digest: Digest, w: World, a: Act, key: string)
    requires WorldOk(digest, w) && Owned(w.db, key) && Matching(digest, w.db, key) && !(a.ClientPut? && a.key == key)
    ensures Owned(Exec(w.db, NextStmt(w, a)), key) && Matching(digest, Exec(w.db, NextStmt(w, a)), key)
  {
    if Puts(NextStmt(w, a), key) {
      var t := w.threads[a.tid];
      PutIssuer(digest, w.db, t, a.choice);
      PutStepIntact(digest, w.db, t.pc.reg, t.call.body);
    } else {
      OtherStepOwned(w.db, NextStmt(w, a), key);
      OtherStepMatching(digest, w.db, NextStmt(w, a), key);
    }
  }

  lemma StartStreamsNothing(call: Call)
    ensures !HasStreamed(Thread(call, Start(call)))
  {}

  lemma AdvanceKeepsStreamOk(digest: Digest, w: World, a: Act, key: string, tid: nat)
    requires Keyed(w.db) && ThreadsOk(digest, w) && Intact(digest, w, key) && tid in Advance(digest, w, a).threads
    ensures StreamOk(digest, Advance(digest, w, a).threads[tid], key)
  {
    if a.Step? && a.tid == tid {
      StreamStep(digest, w.db, w.threads[tid], a.choice, key);
    } else if a.Spawn? {
      StartStreamsNothing(a.call);
    }
  }

  lemma AdvanceKeepsIntact(digest: Digest, w: World, a: Act, key: string)
    requires WorldOk(digest, w) && Intact(digest, w, key) && !(a.ClientPut? && a.key == key)
    ensures Intact(digest, Advance(digest, w, a), key)
  {
    StmtKeepsIntact(digest, w, a, key);
    forall tid | tid in Advance(digest, w, a).threads
      ensures StreamOk(digest, Advance(digest, w, a).threads[tid], key)
    {
      AdvanceKeepsStreamOk(digest, w, a, key, tid);
    }
  }

  lemma {:induction false} ProxyIntact(digest: Digest, acts: seq<Act>, key: string)
    requires ProxyOnly(acts, key)
    ensures Intact(digest, Reachable(digest, acts), key)
  {
    if acts == [] {
    } else {
      assert acts[|acts| - 1] in acts;
      ProxyIntact(digest, acts[..|acts| - 1], key);
      ReachableOk(digest, acts[..|acts| - 1]);
      AdvanceKeepsIntact(digest, Reachable(digest, acts[..|acts| - 1]), acts[|acts| - 1], key);
    }
  }

  /** Every uploaded document has an object, whoever put it there: Complete verified it and nothing deletes. */
  ghost predicate Present(db: Db) {
    forall id | Arrived(db, id) :: db.rows[id].reg.objectKey in db.objects
  }

  lemma ArrivalStatement(db: Db, s: Stmt, id: string)
    requires RowsInv(db) && Keyed(db) && !Arrived(db, id) && Arrived(Exec(db, s), id)
    ensures s.Quarantine? && s.id == id
  {}

  lemma QuarantineIssuer(digest: Digest, db: Db, t: Thread, c: Choice)
    requires ThreadOk(digest, db, t) && Issue(db, t, c).Quarantine?
    ensures Issue(db, t, c).id in db.rows && db.rows[Issue(db, t, c).id].reg.objectKey in db.objects
  {}

  lemma AdvanceKeepsPresent(digest: Digest, w: World, a: Act, id: string)
    requires WorldOk(digest, w) && Present(w.db) && Arrived(Advance(digest, w, a).db, id)
    ensures Advance(digest, w, a).db.rows[id].reg.objectKey in Advance(digest, w, a).db.objects
  {
    RegistrationKept(w.db, NextStmt(w, a));
    if !Arrived(w.db, id) {
      ArrivalStatement(w.db, NextStmt(w, a), id);
      QuarantineIssuer(digest, w.db, w.threads[a.tid], a.choice);
    }
  }

  lemma {:induction false} UploadedHasObject(digest: Digest, acts: seq<Act>)
    ensures Present(Reachable(digest, acts).db)
  {
    if acts == [] {
    } else {
      UploadedHasObject(digest, acts[..|acts| - 1]);
      ReachableOk(digest, acts[..|acts| - 1]);
      forall id | Arrived(Reachable(digest, acts).db, id)
        ensures Reachable(digest, acts).db.rows[id].reg.objectKey in Reachable(digest, acts).db.objects
      {
        AdvanceKeepsPresent(digest, Reachable(digest, acts[..|acts| - 1]), acts[|acts| - 1], id);
      }
    }
  }

  /** What a client last wrote to the key, if no put of the proxy has replaced it since. */
  ghost function LastClientPut(digest: Digest, acts: seq<Act>, key: string): Option<StoredObject> {
    if acts == [] then None
    else
      var init, a := acts[..|acts| - 1], acts[|acts| - 1];
      if a.ClientPut? && a.key == key then Some(a.content)
      else if Puts(NextStmt(Reachable(digest, init), a), key) then None
      else LastClientPut(digest, init, key)
  }

  /** The key holds what a client wrote last, or else only what its rows declare. */
  ghost predicate Tracks(digest: Digest, db: Db, key: string, last: Option<StoredObject>) {
    if last.Some? then key in db.objects && db.objects[key] == last.value
    else Owned(db, key) && Matching(digest, db, key)
  }

  lemma ClientPutTracked(digest: Digest, db: Db, key: string, content: StoredObject)
    ensures Tracks(digest, Exec(db, PutObject(key, content)), key, Some(content))
  {}

  lemma OtherStepTracked(digest: Digest, db: Db, s: Stmt, key: string, last: Option<StoredObject>)
    requires Registered(db) && Tracks(digest, db, key, last) && !Puts(s, key)
    ensures Tracks(digest, Exec(db, s), key, last)
  {
    if last.None? {
      OtherStepOwned(db, s, key);
      OtherStepMatching(digest, db, s, key);
    }
  }

  lemma ProxyPutTracked(digest: Digest, w: World, a: Act, key: string)
    requires WorldOk(digest, w) && !a.ClientPut? && Puts(NextStmt(w, a), key)
    ensures Tracks(digest, Exec(w.db, NextStmt(w, a)), key, None)
  {
    var t := w.threads[a.tid];
    PutIssuer(digest, w.db, t, a.choice);
    PutStepIntact(digest, w.db, t.pc.reg, t.call.body);
  }

  lemma {:induction false} KeyTracked(digest: Digest, acts: seq<Act>, key: string)
    ensures Tracks(digest, Reachable(digest, acts).db, key, LastClientPut(digest, acts, key))
  {
    if acts == [] {
    } else {
      var init, a := acts[..|acts| - 1], acts[|acts| - 1];
      var w := Reachable(digest, init);
      ReachableOk(digest, init);
      if a.ClientPut? && a.key == key {
        ClientPutTracked(digest, w.db, key, a.content);
      } else if Puts(NextStmt(w, a), key) {
        ProxyPutTracked(digest, w, a, key);
      } else {
        KeyTracked(digest, init, key);
        OtherStepTracked(digest, w.db, NextStmt(w, a), key, LastClientPut(digest, init, key));
      }
    }
  }

  /** Content integrity, exactly: an uploaded document has bytes of the declared length and digest at its key if and only if
      the last write to the key was not a client's, or was a client's with such bytes. */
  lemma DeclaredExactly(digest: Digest, acts: seq<Act>, id: string)
    requires Arrived(Reachable(digest, acts).db, id)
    ensures var (db, reg) := (Reachable(digest, acts).db, Reachable(digest, acts).db.rows[id].reg);
      var last := LastClientPut(digest, acts, reg.objectKey);
      && reg.objectKey in db.objects
      && (Declared(digest, reg, db.objects[reg.objectKey].bytes) <==> last.None? || Declared(digest, reg, last.value.bytes))
  {
    var (db, reg) := (Reachable(digest, acts).db, Reachable(digest, acts).db.rows[id].reg);
    KeyTracked(digest, acts, reg.objectKey);
    UploadedHasObject(digest, acts);
    assert LastClientPut(digest, acts, reg.objectKey).None? ==> Holds(digest, db, reg);
  }

  lemma {:induction false} ProxyWritesLast(digest: Digest, acts: seq<Act>, key: string)
    requires ProxyOnly(acts, key)
    ensures LastClientPut(digest, acts, key).None?
  {
    if acts == [] {
    } else {
      assert acts[|acts| - 1] in acts;
      ProxyWritesLast(digest, acts[..|acts| - 1], key);
    }
  }

  /** So a document whose key no client wrote to has, once past its upload, bytes of the declared length and digest there, late
      duplicate puts of the proxy included. */
  lemma ContentIntegrity(digest: Digest, acts: seq<Act>, id: string)
    requires Arrived(Reachable(digest, acts).db, id) && ProxyOnly(acts, Reachable(digest, acts).db.rows[id].reg.objectKey)
    ensures var db := Reachable(digest, acts).db;
      && db.rows[id].reg.objectKey in db.objects
      && Declared(digest, db.rows[id].reg, db.objects[db.rows[id].reg.objectKey].bytes)
      && Verified(db, db.rows[id].reg)
  {
    var db := Reachable(digest, acts).db;
    DeclaredExactly(digest, acts, id);
    ProxyWritesLast(digest, acts, db.rows[id].reg.objectKey);
    ProxyIntact(digest, acts, db.rows[id].reg.objectKey);
  }

  lemma StreamedBytes(digest: Digest, db: Db, t: Thread)
    requires ThreadOk(digest, db, t) && HasStreamed(t) && StreamOk(digest, t, t.pc.reply.key)
    ensures t.call.OpenEvidence? && t.pc.reply.document.id == t.call.id
    ensures digest(t.pc.reply.content.bytes) == t.call.gate.digest && |t.pc.reply.content.bytes| == t.pc.reply.document.size
  {}

  /** Bytes streamed for evidence from a key no client wrote to hash to the digest the reader asked for. */
  lemma StreamedMatchesRequest(digest: Digest, acts: seq<Act>, tid: nat)
    requires tid in Reachable(digest, acts).threads && HasStreamed(Reachable(digest, acts).threads[tid])
    requires ProxyOnly(acts, Reachable(digest, acts).threads[tid].pc.reply.key)
    ensures var t := Reachable(digest, acts).threads[tid];
      && t.call.OpenEvidence? && t.pc.reply.document.id == t.call.id
      && digest(t.pc.reply.content.bytes) == t.call.gate.digest
      && |t.pc.reply.content.bytes| == t.pc.reply.document.size
  {
    ProxyIntact(digest, acts, Reachable(digest, acts).threads[tid].pc.reply.key);
    ReachableOk(digest, acts);
    StreamedBytes(digest, Reachable(digest, acts).db, Reachable(digest, acts).threads[tid]);
  }
}
