/** How runs are put together: an action more, a thread's step more, a whole Create call more. */
module Runs {
  import opened Schema
  import opened Statements
  import opened Creation
  import opened Calls
  import opened Threads
  import opened Steps
  import opened Idempotency

  lemma Extend(digest: Digest, acts: seq<Act>, a: Act)
    ensures Reachable(digest, acts + [a]) == Advance(digest, Reachable(digest, acts), a)
  {
    assert (acts + [a])[..|acts|] == acts;
  }

  /** The run has come to the world w with this one thread, added or moved. */
  ghost predicate With(digest: Digest, acts: seq<Act>, w: World, tid: nat, t: Thread) {
    Reachable(digest, acts) == World(w.db, w.threads[tid := t])
  }

  lemma Join(digest: Digest, acts: seq<Act>, tid: nat, call: Call)
    requires tid !in Reachable(digest, acts).threads
    ensures With(digest, acts + [Spawn(tid, call)], Reachable(digest, acts), tid, Thread(call, Start(call)))
  {
    Extend(digest, acts, Spawn(tid, call));
  }

  /** The thread's next statement. */
  lemma Go(digest: Digest, acts: seq<Act>, w: World, tid: nat, t: Thread, c: Choice)
    requires With(digest, acts, w, tid, t)
    ensures With(digest, acts + [Step(tid, c)], World(Exec(w.db, Issue(w.db, t, c)), w.threads), tid, Stepped(digest, w.db, t, c))
  {
    Extend(digest, acts, Step(tid, c));
    assert w.threads[tid := t][tid := Stepped(digest, w.db, t, c)] == w.threads[tid := Stepped(digest, w.db, t, c)];
  }

  /** A statement that only reads. */
  lemma Look(digest: Digest, acts: seq<Act>, w: World, tid: nat, t: Thread, c: Choice)
    requires With(digest, acts, w, tid, t) && Issue(w.db, t, c) == Nothing
    ensures With(digest, acts + [Step(tid, c)], w, tid, Stepped(digest, w.db, t, c))
  {
    Go(digest, acts, w, tid, t, c);
  }

  lemma Put(digest: Digest, acts: seq<Act>, key: string, content: StoredObject)
    ensures var w := Reachable(digest, acts);
      Reachable(digest, acts + [ClientPut(key, content)]) == World(Exec(w.db, PutObject(key, content)), w.threads)
  {
    Extend(digest, acts, ClientPut(key, content));
  }

  /** Lookup and party check of a Create call under an idempotency key nobody has used. */
  lemma RunChecks(digest: Digest, acts: seq<Act>, w: World, tid: nat, call: Call, r: Request, c: Choice) returns (acts': seq<Act>)
    requires With(digest, acts, w, tid, Thread(call, CreateLookup(r))) && c.partyExists && KeyFree(w.db, r)
    ensures With(digest, acts', w, tid, Thread(call, CreateInsert(r)))
  {
    LookupRuns(digest, w.db, Thread(call, CreateLookup(r)), c);
    Look(digest, acts, w, tid, Thread(call, CreateLookup(r)), c);
    acts' := acts + [Step(tid, c)];
    if r.input.ownerType == "PARTY" {
      PartyRuns(digest, w.db, Thread(call, CreateParty(r)), c);
      Look(digest, acts', w, tid, Thread(call, CreateParty(r)), c);
      acts' := acts' + [Step(tid, c)];
    }
  }

  /** The database after an INSERT of this request with this id. */
  ghost function Inserting(db: Db, r: Request, c: Choice): Db {
    Exec(db, InsertDocument(Register(r, c.id, db.now), db.now + c.ttl, Event(r.scope, c.id, UploadAuthorized)))
  }

  lemma RunInsert(digest: Digest, acts: seq<Act>, w: World, tid: nat, call: Call, r: Request, c: Choice)
    requires With(digest, acts, w, tid, Thread(call, CreateInsert(r)))
    ensures With(digest, acts + [Step(tid, c)], World(Inserting(w.db, r, c), w.threads), tid,
                 Thread(call, Done(SessionOf(r, c.id, Resolve(w.db, Register(r, c.id, w.db.now))))))
  {
    InsertRuns(digest, w.db, Thread(call, CreateInsert(r)), c);
    Go(digest, acts, w, tid, Thread(call, CreateInsert(r)), c);
  }

  lemma FreeKeyReply(db: Db, r: Request, newId: string)
    requires KeyFree(db, r)
    ensures GetIdempotent(db, r) == Err(ErrNotFound) && ReplyTo(db, r, newId) == SessionOf(r, newId, Resolve(db, Register(r, newId, db.now)))
  {}

  lemma LookupMisses(db: Db, r: Request)
    requires GetIdempotent(db, r) == Err(ErrNotFound)
    ensures KeyFree(db, r)
  {}

  /** What a Create call with nothing in between makes of the database. */
  ghost function Creating(db: Db, r: Request, c: Choice): Db {
    if KeyFree(db, r) then Inserting(db, r, c) else db
  }

  lemma JoinCreate(digest: Digest, acts: seq<Act>, tid: nat, scope: Scope, input: CreateInput)
    requires tid !in Reachable(digest, acts).threads && Prepare(scope, input).Ok?
    ensures With(digest, acts + [Spawn(tid, Create(scope, input))], Reachable(digest, acts), tid,
                 Thread(Create(scope, input), CreateLookup(Prepare(scope, input).value)))
  {
    Join(digest, acts, tid, Create(scope, input));
  }

  /** The lookup finds the key in use, and its answer is the call's. */
  lemma RunReplay(digest: Digest, acts: seq<Act>, w: World, tid: nat, call: Call, r: Request, c: Choice)
    requires With(digest, acts, w, tid, Thread(call, CreateLookup(r))) && !KeyFree(w.db, r)
    ensures With(digest, acts + [Step(tid, c)], w, tid, Thread(call, Done(ReplyTo(w.db, r, c.id))))
  {
    if GetIdempotent(w.db, r) == Err(ErrNotFound) { LookupMisses(w.db, r); }
    ReplayRuns(digest, w.db, Thread(call, CreateLookup(r)), c);
    Look(digest, acts, w, tid, Thread(call, CreateLookup(r)), c);
  }

  /** A Create call from start to end, with nothing in between and its party confirmed: whatever the database, the thread ends
      with the reply ReplyTo describes. */
  lemma RunCreate(digest: Digest, acts: seq<Act>, tid: nat, scope: Scope, input: CreateInput, c: Choice) returns (acts': seq<Act>)
    requires tid !in Reachable(digest, acts).threads && Prepare(scope, input).Ok? && c.partyExists
    ensures var (w, r) := (Reachable(digest, acts), Prepare(scope, input).value);
      With(digest, acts', World(Creating(w.db, r, c), w.threads), tid, Thread(Create(scope, input), Done(ReplyTo(w.db, r, c.id))))
  {
    var w, call, r := Reachable(digest, acts), Create(scope, input), Prepare(scope, input).value;
    JoinCreate(digest, acts, tid, scope, input);
    var begun := acts + [Spawn(tid, call)];
    if KeyFree(w.db, r) {
      acts' := RunChecks(digest, begun, w, tid, call, r, c);
      RunInsert(digest, acts', w, tid, call, r, c);
      FreeKeyReply(w.db, r, c.id);
      acts' := acts' + [Step(tid, c)];
    } else {
      RunReplay(digest, begun, w, tid, call, r, c);
      acts' := begun + [Step(tid, c)];
    }
  }

  /** When a replay returns the document of the first session, for the calls themselves: from any reachable world in which a
      Create call has a session, the same call made again, with nothing in between, has a session for the same document
      exactly if the row stores the request itself, or still awaits its upload while nobody has used the idempotency key. */
  lemma RunAgain(digest: Digest, acts: seq<Act>, i: nat, tid: nat, c: Choice) returns (acts': seq<Act>)
    requires var w := Reachable(digest, acts);
      i in w.threads && GotSession(w.threads[i]) && w.threads[i].call.Create? && tid !in w.threads && c.partyExists
    ensures var (w, w', t) := (Reachable(digest, acts), Reachable(digest, acts'), Reachable(digest, acts).threads[i]);
      && Prepare(t.call.scope, t.call.input).Ok? && t.pc.reply.id in w.db.rows
      && tid in w'.threads && w'.threads[tid].call == t.call
      && var (r, row) := (Prepare(t.call.scope, t.call.input).value, w.db.rows[t.pc.reply.id]);
         var same := GotSession(w'.threads[tid]) && w'.threads[tid].pc.reply.id == t.pc.reply.id;
         (same <==> Stored(row.reg, r) || (KeyFree(w.db, r) && row.status == PendingUpload))
  {
    var w := Reachable(digest, acts);
    var t := w.threads[i];
    ReachableOk(digest, acts);
    SessionAnswers(digest, w.db, t);
    ReplayExactly(w.db, t.call.scope, t.call.input, t.pc.reply.id, c.id);
    acts' := RunCreate(digest, acts, tid, t.call.scope, t.call.input, c);
  }
}
