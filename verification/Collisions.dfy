/** Runs of several Create calls: a deduplicated session, one key for two documents, and a case whose list hides what is there. */
module Collisions {
  import opened Schema
  import opened Access
  import opened Statements
  import opened Creation
  import opened Calls
  import opened Threads
  import opened Idempotency
  import opened Runs
  import opened Witnesses
  import opened Ordering
  import opened Paging
  import opened CaseList

  /** A Create call to come, with the id it will draw. */
  datatype Opening = Opening(scope: Scope, input: CreateInput, c: Choice)

  predicate Accepted(o: Opening) {
    Prepare(o.scope, o.input).Ok? && Prepare(o.scope, o.input).value.scope.environment in ENVIRONMENTS && o.c.partyExists
  }

  function RequestOf(o: Opening): Request
    requires Accepted(o)
  {
    Prepare(o.scope, o.input).value
  }

  function RegOf(o: Opening): Registration
    requires Accepted(o)
  {
    Register(RequestOf(o), o.c.id, 0)
  }

  /** The second request is for the first one's document, under a key of its own. */
  predicate Duplicates(a: Opening, b: Opening) {
    && Accepted(a) && Accepted(b) && |a.c.id| == |b.c.id| && a.c.id != b.c.id
    && SourceKeyOf(RegOf(a)).Some? && SourceKeyOf(RegOf(a)) == SourceKeyOf(RegOf(b))
    && Alike(RegOf(a), RequestOf(b).input)
    && IdempotencyKeyOf(RegOf(a)) != IdempotencyKeyOf(RegOf(b))
  }

  /** One document, with this registration. */
  predicate OneDocument(db: Db, reg: Registration) {
    db.rows.Keys == {reg.id} && db.rows[reg.id].reg == reg && db.now == 0
  }

  lemma DuplicateKeyFree(db: Db, a: Opening, b: Opening)
    requires Duplicates(a, b) && db.rows == map[a.c.id := FreshRow(RegOf(a), a.c.ttl)]
    ensures KeyFree(db, RequestOf(b))
  {}

  lemma DuplicateReply(db: Db, a: Opening, b: Opening)
    requires Duplicates(a, b) && db.now == 0 && db.rows == map[a.c.id := FreshRow(RegOf(a), a.c.ttl)]
    ensures KeyFree(db, RequestOf(b))
    ensures Resolve(db, RegOf(b)) == Refreshed(a.c.id)
  {
    DuplicateKeyFree(db, a, b);
    AcceptedChecked(b);
    assert Answers(db.rows[a.c.id].reg, RequestOf(b));
    ConflictAnswers(db, RequestOf(b), a.c.id, b.c.id);
  }

  lemma DuplicateRows(db: Db, a: Opening, b: Opening)
    requires Duplicates(a, b) && db.now == 0 && db.rows == map[a.c.id := FreshRow(RegOf(a), a.c.ttl)]
    requires Resolve(db, RegOf(b)) == Refreshed(a.c.id)
    ensures OneDocument(Inserting(db, RequestOf(b), b.c), RegOf(a))
  {}

  /** Deduplication: any two such requests, one after the other, end with a session for the first document whose signed key no
      row has. */
  lemma DedupRun(digest: Digest, a: Opening, b: Opening) returns (acts: seq<Act>)
    requires Duplicates(a, b)
    ensures var w := Reachable(digest, acts);
      && OneDocument(w.db, RegOf(a)) && (forall tid | tid in w.threads :: tid < 2)
      && 1 in w.threads && w.threads[1] == Thread(Create(b.scope, b.input), Done(Session(a.c.id, RegOf(b).objectKey)))
      && forall id | id in w.db.rows :: w.db.rows[id].reg.objectKey != RegOf(b).objectKey
  {
    acts := RunToCreated(digest, a.scope, a.input, a.c);
    var db := Reachable(digest, acts).db;
    DuplicateReply(db, a, b);
    FreeKeyReply(db, RequestOf(b), b.c.id);
    DuplicateRows(db, a, b);
    KeysDistinct(RequestOf(a), RequestOf(b), a.c.id, b.c.id);
    acts := RunCreate(digest, acts, 1, b.scope, b.input, b.c);
  }

  /** A request apart from every row inserts its own. */
  lemma NewReply(db: Db, r: Request, id: string)
    requires CheckConstraints(Register(r, id, db.now)) && id !in db.rows
    requires forall other | other in db.rows :: Apart(Register(r, id, db.now), db.rows[other].reg)
    ensures KeyFree(db, r) && Resolve(db, Register(r, id, db.now)) == Inserted
  {
    assert forall other :: !HoldsSourceKey(db, Register(r, id, db.now), other);
  }

  lemma NewRows(db: Db, r: Request, c: Choice)
    requires Resolve(db, Register(r, c.id, db.now)) == Inserted
    ensures var db' := Inserting(db, r, c);
      db'.rows == db.rows[c.id := FreshRow(Register(r, c.id, db.now), db.now + c.ttl)] && db'.now == db.now
  {}

  lemma AcceptedChecked(o: Opening)
    requires Accepted(o)
    ensures CheckConstraints(RegOf(o))
  {
    AcceptedMeetsChecks(o.scope, o.input, o.c.id, 0);
  }

  lemma OtherReply(db: Db, a: Opening, d: Opening)
    requires Accepted(a) && Accepted(d) && OneDocument(db, RegOf(a)) && Apart(RegOf(d), RegOf(a)) && d.c.id != a.c.id
    ensures KeyFree(db, RequestOf(d)) && ReplyTo(db, RequestOf(d), d.c.id) == Session(d.c.id, RegOf(d).objectKey)
  {
    AcceptedChecked(d);
    NewReply(db, RequestOf(d), d.c.id);
    FreeKeyReply(db, RequestOf(d), d.c.id);
  }

  /** One idempotency key, two documents: after the deduplicated session, a request for something else under the same key is
      answered with a document of its own. */
  lemma OneKeyTwoDocumentsRun(digest: Digest, a: Opening, b: Opening, d: Opening) returns (acts: seq<Act>)
    requires Duplicates(a, b) && Accepted(d) && Apart(RegOf(d), RegOf(a)) && d.c.id != a.c.id
    requires IdempotencyKeyOf(RegOf(d)) == IdempotencyKeyOf(RegOf(b))
    ensures var w := Reachable(digest, acts);
      && 1 in w.threads && w.threads[1] == Thread(Create(b.scope, b.input), Done(Session(a.c.id, RegOf(b).objectKey)))
      && 2 in w.threads && w.threads[2] == Thread(Create(d.scope, d.input), Done(Session(d.c.id, RegOf(d).objectKey)))
  {
    acts := DedupRun(digest, a, b);
    OtherReply(Reachable(digest, acts).db, a, d);
    acts := RunCreate(digest, acts, 2, d.scope, d.input, d.c);
  }

  /** Requests that do not collide. */
  ghost predicate Separate(os: seq<Opening>) {
    && (forall o | o in os :: Accepted(o))
    && (forall i, j | 0 <= i < |os| && 0 <= j < |os| && i != j :: os[i].c.id != os[j].c.id && Apart(RegOf(os[i]), RegOf(os[j])))
  }

  /** The database holds this request's document. */
  predicate Holds(db: Db, o: Opening) {
    Accepted(o) && o.c.id in db.rows && db.rows[o.c.id].reg == RegOf(o)
  }

  /** The database holds exactly the documents of these requests. */
  ghost predicate HoldsExactly(db: Db, os: seq<Opening>) {
    && db.now == 0
    && (forall id | id in db.rows :: exists i :: 0 <= i < |os| && os[i].c.id == id)
    && (forall i | 0 <= i < |os| :: Holds(db, os[i]))
  }

  lemma EveryRowNamed(db: Db, init: seq<Opening>, o: Opening, id: string)
    requires HoldsExactly(db, init) && (id in db.rows || id == o.c.id)
    ensures exists i :: 0 <= i < |init + [o]| && (init + [o])[i].c.id == id
  {
    var os := init + [o];
    if id == o.c.id {
      assert os[|init|].c.id == id;
    } else {
      var i :| 0 <= i < |init| && init[i].c.id == id;
      assert os[i].c.id == id;
    }
  }

  lemma HoldsOneMore(db: Db, init: seq<Opening>, o: Opening, db': Db, row: Row)
    requires Accepted(o) && HoldsExactly(db, init)
    requires o.c.id !in db.rows && row.reg == RegOf(o) && db'.rows == db.rows[o.c.id := row] && db'.now == 0
    ensures HoldsExactly(db', init + [o])
  {
    var os := init + [o];
    forall id | id in db'.rows
      ensures exists i :: 0 <= i < |os| && os[i].c.id == id
    {
      EveryRowNamed(db, init, o, id);
    }
    forall i | 0 <= i < |os|
      ensures Holds(db', os[i])
    {
      if i < |init| { OneStillHeld(db, init[i], o, db', row); }
    }
  }

  lemma OneStillHeld(db: Db, p: Opening, o: Opening, db': Db, row: Row)
    requires Holds(db, p) && o.c.id !in db.rows && db'.rows == db.rows[o.c.id := row]
    ensures Holds(db', p)
  {}

  lemma ApartFromAll(db: Db, init: seq<Opening>, o: Opening)
    requires (forall p | p in init :: Accepted(p)) && Accepted(o) && HoldsExactly(db, init)
    requires forall p | p in init :: p.c.id != o.c.id && Apart(RegOf(o), RegOf(p))
    ensures o.c.id !in db.rows && forall id | id in db.rows :: Apart(RegOf(o), db.rows[id].reg)
  {
    forall id | id in db.rows
      ensures id != o.c.id && Apart(RegOf(o), db.rows[id].reg)
    {
      var i :| 0 <= i < |init| && init[i].c.id == id;
      assert init[i] in init;
    }
  }

  lemma RunOneMore(digest: Digest, acts: seq<Act>, init: seq<Opening>, o: Opening) returns (acts': seq<Act>)
    requires (forall p | p in init :: Accepted(p) && p.c.id != o.c.id) && Accepted(o)
    requires forall p | p in init :: Apart(RegOf(o), RegOf(p))
    requires HoldsExactly(Reachable(digest, acts).db, init) && forall tid | tid in Reachable(digest, acts).threads :: tid < |init|
    ensures HoldsExactly(Reachable(digest, acts').db, init + [o])
    ensures forall tid | tid in Reachable(digest, acts').threads :: tid < |init| + 1
  {
    var db := Reachable(digest, acts).db;
    ApartFromAll(db, init, o);
    AcceptedChecked(o);
    NewReply(db, RequestOf(o), o.c.id);
    NewRows(db, RequestOf(o), o.c);
    HoldsOneMore(db, init, o, Inserting(db, RequestOf(o), o.c), FreshRow(RegOf(o), o.c.ttl));
    acts' := RunCreate(digest, acts, |init|, o.scope, o.input, o.c);
  }

  /** Any such requests can be created one after the other. */
  lemma {:induction false} RunCreates(digest: Digest, os: seq<Opening>) returns (acts: seq<Act>)
    requires Separate(os)
    ensures HoldsExactly(Reachable(digest, acts).db, os)
    ensures forall tid | tid in Reachable(digest, acts).threads :: tid < |os|
  {
    if os == [] {
      acts := [];
    } else {
      var init, o := os[..|os| - 1], os[|os| - 1];
      assert init + [o] == os;
      SeparateInit(os);
      acts := RunCreates(digest, init);
      acts := RunOneMore(digest, acts, init, o);
    }
  }

  lemma SeparateInit(os: seq<Opening>)
    requires Separate(os) && os != []
    ensures Separate(os[..|os| - 1])
    ensures forall p | p in os[..|os| - 1] :: p in os && p.c.id != os[|os| - 1].c.id && Apart(RegOf(os[|os| - 1]), RegOf(p))
  {}

  /** The document is one of the case's. */
  predicate OfCase(reg: Registration, sc: Scope, application: string, party: string) {
    && reg.tenant == sc.tenant && reg.environment == sc.environment && reg.sourceReference == Some(application)
    && reg.ownerType == "PARTY" && reg.ownerId == party && reg.party == Some(party)
  }

  function IdsOf(os: seq<Opening>): seq<string> {
    seq(|os|, i requires 0 <= i < |os| => os[i].c.id)
  }

  predicate CaseDocument(o: Opening, sc: Scope, application: string, party: string) {
    Accepted(o) && o.c.id != "" && OfCase(RegOf(o), sc, application, party)
  }

  ghost predicate CaseDocuments(os: seq<Opening>, sc: Scope, application: string, party: string) {
    forall o | o in os :: CaseDocument(o, sc, application, party)
  }

  lemma CaseHas(db: Db, os: seq<Opening>, sc: Scope, application: string, party: string, i: nat)
    requires i < |os| && CaseDocument(os[i], sc, application, party) && Holds(db, os[i])
    ensures os[i].c.id in CaseIds(db, sc, application, party) && Less("", os[i].c.id)
  {}

  lemma CaseHasNoOther(db: Db, os: seq<Opening>, sc: Scope, application: string, party: string, id: string)
    requires CaseDocuments(os, sc, application, party) && HoldsExactly(db, os) && id in CaseIds(db, sc, application, party)
    ensures id in IdsOf(os)
  {
    var i :| 0 <= i < |os| && os[i].c.id == id;
    assert IdsOf(os)[i] == id;
  }

  lemma CaseEnumerated(db: Db, os: seq<Opening>, sc: Scope, application: string, party: string)
    requires CaseDocuments(os, sc, application, party) && HoldsExactly(db, os) && Increasing(IdsOf(os))
    ensures Beyond(CaseIds(db, sc, application, party), "") == IdsOf(os)
  {
    var ids := IdsOf(os);
    var ahead := set id | id in CaseIds(db, sc, application, party) && Less("", id);
    forall i | 0 <= i < |ids|
      ensures ids[i] in ahead
    {
      CaseHas(db, os, sc, application, party, i);
    }
    forall id | id in ahead
      ensures id in ids
    {
      CaseHasNoOther(db, os, sc, application, party, id);
    }
    SortedUnique(ids, ahead);
  }

  /** An id in the first window hidden, and the last of more than 51 ids is out of the walk's reach. */
  lemma WalkStops(ids: seq<string>, v: string -> bool, h: nat)
    requires h < LIMIT < |ids| && Increasing(ids) && !v(ids[h])
    ensures ids[|ids| - 1] !in WalkAll(ids, v)
  {
    HiddenWalkExact(ids, v);
    WindowStartStep(FirstHidden(ids, v));
    assert LastRead(ids, v) == LIMIT;
    FilterKeeps(v, ids[..LIMIT]);
    forall i | 0 <= i < LIMIT ensures ids[i] != ids[|ids| - 1] { LessTotal(ids[i], ids[|ids| - 1]); }
  }

  /** More than 51 case documents, in the order of their ids. */
  ghost predicate Many(os: seq<Opening>, sc: Scope, application: string, party: string) {
    CaseDocuments(os, sc, application, party) && LIMIT < |os| && Increasing(IdsOf(os)) && CaseScope(sc, application, party)
  }

  /** One of the first 51 is a receipt that happens to carry the case's reference, and the last one is in plain sight. */
  predicate OneHidden(os: seq<Opening>, h: nat, sc: Scope, application: string) {
    && h < LIMIT < |os| && Accepted(os[h]) && Accepted(os[|os| - 1])
    && RegOf(os[h]).purpose == MANUAL_BANK_PAYMENT && sc.paymentReference != application
    && Listed(sc, application, RegOf(os[|os| - 1]))
  }

  function Unchanged(ids: set<string>, n: nat): seq<set<string>> {
    seq(n, _ => ids)
  }

  lemma WalkMisses(ids: set<string>, list: seq<string>, v: string -> bool, h: nat)
    requires Beyond(ids, "") == list && h < LIMIT < |list| && Increasing(list) && !v(list[h])
    ensures var walked := Walk(Unchanged(ids, Pages(list, v)), v, ""); walked.ended && list[|list| - 1] !in walked.data
  {
    FixedWalk(ids, v, "", Unchanged(ids, Pages(list, v)));
    WalkStops(list, v, h);
  }

  lemma ReceiptHidden(db: Db, os: seq<Opening>, h: nat, sc: Scope, application: string)
    requires HoldsExactly(db, os) && OneHidden(os, h, sc, application)
    ensures !Shown(db, sc, application)(IdsOf(os)[h])
  {}

  lemma LastShown(db: Db, os: seq<Opening>, h: nat, sc: Scope, application: string)
    requires HoldsExactly(db, os) && OneHidden(os, h, sc, application)
    ensures Shown(db, sc, application)(os[|os| - 1].c.id)
  {}

  lemma LastInCase(db: Db, os: seq<Opening>, sc: Scope, application: string, party: string)
    requires CaseDocuments(os, sc, application, party) && os != [] && HoldsExactly(db, os)
    ensures os[|os| - 1].c.id in CaseIds(db, sc, application, party)
  {
    CaseHas(db, os, sc, application, party, |os| - 1);
  }

  /** A client that follows every cursor comes to an end and is not shown this document. */
  ghost predicate WalkedPast(db: Db, os: seq<Opening>, sc: Scope, application: string, party: string, id: string) {
    var ids, v := CaseIds(db, sc, application, party), Shown(db, sc, application);
    var walked := Walk(Unchanged(ids, Pages(IdsOf(os), v)), v, "");
    walked.ended && id !in walked.data
  }

  lemma LastWalkedPast(db: Db, os: seq<Opening>, h: nat, sc: Scope, application: string, party: string)
    requires Beyond(CaseIds(db, sc, application, party), "") == IdsOf(os) && Increasing(IdsOf(os))
    requires h < LIMIT < |os| && !Shown(db, sc, application)(IdsOf(os)[h])
    ensures WalkedPast(db, os, sc, application, party, os[|os| - 1].c.id)
  {
    WalkMisses(CaseIds(db, sc, application, party), IdsOf(os), Shown(db, sc, application), h);
  }

  /** The list can end early: for any such documents there is a run after which a client that follows every cursor is never
      shown the last one, although the lookup by its id shows it. */
  lemma HiddenWalkRun(digest: Digest, os: seq<Opening>, h: nat, sc: Scope, application: string, party: string) returns (acts: seq<Act>)
    requires Separate(os) && Many(os, sc, application, party) && OneHidden(os, h, sc, application)
    ensures WalkedPast(Reachable(digest, acts).db, os, sc, application, party, os[|os| - 1].c.id)
    ensures CaseUpload(Reachable(digest, acts).db, sc, application, party, os[|os| - 1].c.id).Ok?
  {
    acts := RunCreates(digest, os);
    ReachableDbInv(digest, acts, []);
    var db := Reachable(digest, acts).db;
    CaseEnumerated(db, os, sc, application, party);
    ReceiptHidden(db, os, h, sc, application);
    LastWalkedPast(db, os, h, sc, application, party);
    LastInCase(db, os, sc, application, party);
    LastShown(db, os, h, sc, application);
    ListAgreesWithLookup(db, sc, application, party, os[|os| - 1].c.id);
  }
}
