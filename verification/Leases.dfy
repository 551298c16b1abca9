/** When a scan lease excludes a second worker, and exactly when it does not. */
module Leases {
  import opened Schema
  import opened Statements
  import opened Calls
  import opened Threads
  import opened Steps
  import opened Queue

  datatype Hold = Hold(id: string, until: nat)

  /** The document a live worker is scanning, and the end of the lease it took. */
  function HoldOf(t: Thread): Option<Hold> {
    match t.pc
    case ScanOpen(reg, until) => Some(Hold(reg.id, until))
    case ScanStream(reg, work) => Some(Hold(reg.id, work.until))
    case RecordUpdate(_, id, _, Some(work)) => Some(Hold(id, work.until))
    case _ => None
  }

  /** The row is leased to this hold. */
  predicate LeasedTo(db: Db, h: Hold) {
    h.id in db.rows && db.rows[h.id].status == Quarantined && db.rows[h.id].scan == Scanning && db.rows[h.id].lease == Some(h.until)
  }

  /** The row has its verdict, whoever gave it; a worker still at it does no harm. */
  predicate Ruled(db: Db, id: string) {
    id in db.rows && Terminal(db.rows[id].status)
  }

  /** A failure was recorded or posted: the row is up for the next claim. */
  predicate Freed(db: Db, id: string) {
    id in db.rows && db.rows[id].status == Quarantined && db.rows[id].scan == Failed && db.rows[id].lease.None?
  }

  /** The worker holds the document. */
  predicate HeldBy(w: World, i: nat, d: string) {
    i in w.threads && HoldOf(w.threads[i]).Some? && HoldOf(w.threads[i]).value.id == d
  }

  /** The document has at most one live worker. */
  ghost predicate OneWorker(w: World, d: string) {
    forall i, j | HeldBy(w, i, d) && HeldBy(w, j, d) :: i == j
  }

  /** A claim that takes the document although a worker holds it. */
  ghost predicate Doubles(w: World, a: Act, d: string) {
    && a.Step? && NextStmt(w, a) == ClaimOldest(d) && Oldest(w.db, d)
    && exists i :: HeldBy(w, i, d)
  }

  /** A posted "failed" result lands on the document while a worker holds it. */
  ghost predicate FreesHeld(w: World, a: Act, d: string) {
    && a.Step? && a.tid in w.threads
    && var pc := w.threads[a.tid].pc;
       && pc.RecordUpdate? && pc.id == d && pc.origin.None? && !Terminal(StatusAfter(pc.outcome))
       && Recordable(w.db, d, Partition(pc.scope.tenant, pc.scope.environment))
       && exists i :: HeldBy(w, i, d)
  }

  /** What a hold may find of its row: its own lease, the verdict, or a failure. */
  predicate Found(db: Db, h: Hold) {
    LeasedTo(db, h) || Ruled(db, h.id) || Freed(db, h.id)
  }

  /** Every holder's row is as such a hold may find it. */
  ghost predicate Orderly(w: World, d: string) {
    OneWorker(w, d) && forall i | HeldBy(w, i, d) :: Found(w.db, HoldOf(w.threads[i]).value)
  }

  /** And no failure has come from outside. */
  ghost predicate Exclusive(w: World, d: string) {
    OneWorker(w, d) && forall i | HeldBy(w, i, d) :: LeasedTo(w.db, HoldOf(w.threads[i]).value) || Ruled(w.db, d)
  }

  /** A live worker on the undecided document is within its lease. */
  ghost predicate Timely(w: World, d: string) {
    forall i | HeldBy(w, i, d) :: w.db.now <= HoldOf(w.threads[i]).value.until || Ruled(w.db, d)
  }

  /** Every worker on the document records or dies within its lease, and no posted failure lands on it while it is held. */
  ghost predicate TimelyRun(digest: Digest, acts: seq<Act>, d: string) {
    acts == [] ||
      (TimelyRun(digest, acts[..|acts| - 1], d) && Timely(Reachable(digest, acts), d)
       && !FreesHeld(Reachable(digest, acts[..|acts| - 1]), acts[|acts| - 1], d))
  }

  /** No action of the run claims the document while it is held. */
  ghost predicate NeverDoubled(digest: Digest, acts: seq<Act>, d: string) {
    acts == [] ||
      (NeverDoubled(digest, acts[..|acts| - 1], d) && !Doubles(Reachable(digest, acts[..|acts| - 1]), acts[|acts| - 1], d))
  }

  /** At no moment of the run has the document two live workers. */
  ghost predicate AlwaysOneWorker(digest: Digest, acts: seq<Act>, d: string) {
    OneWorker(Reachable(digest, acts), d) && (acts == [] || AlwaysOneWorker(digest, acts[..|acts| - 1], d))
  }

  predicate Scans(pc: Pc) {
    pc.ScanClaim? || pc.ScanOpen? || pc.ScanStream? || pc.RecordUpdate?
  }

  /** A worker's step either begins a hold by a claim, keeps it, or ends it. */
  lemma WorkerStep(digest: Digest, db: Db, t: Thread, c: Choice)
    requires Keyed(db) && Scans(t.pc)
    ensures var h := HoldOf(Stepped(digest, db, t, c)); h.Some? ==>
      || (h == HoldOf(t) && !t.pc.RecordUpdate?)
      || (t.pc.ScanClaim? && Oldest(db, c.pick) && h.value == Hold(c.pick, db.now + LEASE))
  {}

  lemma OthersHoldNothing(digest: Digest, db: Db, t: Thread, c: Choice)
    requires !Scans(t.pc)
    ensures HoldOf(Stepped(digest, db, t, c)).None?
  {}

  lemma ClaimLeases(db: Db, pick: string)
    requires Keyed(db) && Oldest(db, pick)
    ensures LeasedTo(Exec(db, ClaimOldest(pick)), Hold(pick, db.now + LEASE))
  {}

  /** The worker holds a document, and this is not its recording. */
  predicate KeepsHold(w: World, a: Act, i: nat) {
    i in w.threads && HoldOf(w.threads[i]).Some? && !(a.Step? && a.tid == i && w.threads[i].pc.RecordUpdate?)
  }

  /** A hold of the next world was there before, or is a claim's. */
  lemma HoldOrigin(digest: Digest, w: World, a: Act, i: nat)
    requires Keyed(w.db) && i in Advance(digest, w, a).threads && HoldOf(Advance(digest, w, a).threads[i]).Some?
    ensures var h := HoldOf(Advance(digest, w, a).threads[i]).value;
      || (KeepsHold(w, a, i) && HoldOf(w.threads[i]) == Some(h))
      || (a.Step? && a.tid == i && NextStmt(w, a) == ClaimOldest(h.id) && Oldest(w.db, h.id) && h.until == w.db.now + LEASE)
  {
    if a.Step? && a.tid == i {
      var t := w.threads[i];
      if Scans(t.pc) { WorkerStep(digest, w.db, t, a.choice); } else { OthersHoldNothing(digest, w.db, t, a.choice); }
    }
  }

  /** What an action may do to a row that a worker goes on holding, if it is no second claim: nothing, decide it, or free it. */
  lemma HeldUntouched(w: World, a: Act, i: nat, d: string)
    requires OneWorker(w, d) && !Doubles(w, a, d) && KeepsHold(w, a, i) && HeldBy(w, i, d)
    ensures var s := NextStmt(w, a);
      && !(s.ClaimOldest? && Oldest(w.db, s.pick) && s.pick == d)
      && (s.RecordVerdict? && s.id == d && Recordable(w.db, d, s.within) ==> Terminal(StatusAfter(s.outcome)) || FreesHeld(w, a, d))
  {
    if a.Step? && a.tid in w.threads && w.threads[a.tid].pc.RecordUpdate? && w.threads[a.tid].pc.id == d {
      assert w.threads[a.tid].pc.origin.Some? ==> HeldBy(w, a.tid, d);
    }
  }

  lemma RuledStays(db: Db, s: Stmt, id: string)
    requires RowsInv(db) && Keyed(db) && Ruled(db, id)
    ensures Ruled(Exec(db, s), id)
  {
    if Written(db, s).Some? { WrittenRow(db, s); }
  }

  /** A lease ends only by a claim or a result. */
  lemma LeaseStays(db: Db, s: Stmt, h: Hold)
    requires RowsInv(db) && Keyed(db) && LeasedTo(db, h) && !(s.ClaimOldest? && Oldest(db, s.pick) && s.pick == h.id)
    ensures Found(Exec(db, s), h)
    ensures Freed(Exec(db, s), h.id) ==>
      s.RecordVerdict? && s.id == h.id && Recordable(db, h.id, s.within) && !Terminal(StatusAfter(s.outcome))
  {}

  lemma FreedStays(db: Db, s: Stmt, id: string)
    requires RowsInv(db) && Keyed(db) && Freed(db, id) && !(s.ClaimOldest? && Oldest(db, s.pick) && s.pick == id)
    ensures Freed(Exec(db, s), id) || Ruled(Exec(db, s), id)
  {}

  /** A row that is leased, decided or freed stays one of these under every statement but a claim. */
  lemma FoundStays(db: Db, s: Stmt, h: Hold)
    requires RowsInv(db) && Keyed(db) && Found(db, h) && !(s.ClaimOldest? && Oldest(db, s.pick) && s.pick == h.id)
    ensures Found(Exec(db, s), h)
    ensures Freed(Exec(db, s), h.id) && !Freed(db, h.id) ==>
      s.RecordVerdict? && s.id == h.id && Recordable(db, h.id, s.within) && !Terminal(StatusAfter(s.outcome))
  {
    if Ruled(db, h.id) {
      RuledStays(db, s, h.id);
    } else if Freed(db, h.id) {
      FreedStays(db, s, h.id);
    } else {
      LeaseStays(db, s, h);
    }
  }

  lemma HeldFound(w: World, a: Act, i: nat, h: Hold)
    requires RowsInv(w.db) && Keyed(w.db) && OneWorker(w, h.id) && !Doubles(w, a, h.id)
    requires KeepsHold(w, a, i) && HoldOf(w.threads[i]) == Some(h) && Found(w.db, h)
    ensures var db' := Exec(w.db, NextStmt(w, a));
      Found(db', h) && (Freed(db', h.id) && !Freed(w.db, h.id) ==> FreesHeld(w, a, h.id))
  {
    HeldUntouched(w, a, i, h.id);
    FoundStays(w.db, NextStmt(w, a), h);
  }

  lemma NewHoldLeased(w: World, a: Act, h: Hold)
    requires Keyed(w.db) && NextStmt(w, a) == ClaimOldest(h.id) && Oldest(w.db, h.id) && h.until == w.db.now + LEASE
    ensures LeasedTo(Exec(w.db, NextStmt(w, a)), h)
  {
    ClaimLeases(w.db, h.id);
  }

  /** Every hold of the next world finds its row as it may, and freed only if it was or is being freed. */
  lemma HoldFound(digest: Digest, w: World, a: Act, i: nat, h: Hold)
    requires RowsInv(w.db) && Keyed(w.db) && Orderly(w, h.id) && !Doubles(w, a, h.id)
    requires i in Advance(digest, w, a).threads && HoldOf(Advance(digest, w, a).threads[i]) == Some(h)
    ensures var db' := Exec(w.db, NextStmt(w, a));
      && Found(db', h)
      && (Freed(db', h.id) ==> FreesHeld(w, a, h.id) || (HeldBy(w, i, h.id) && Freed(w.db, h.id)))
  {
    HoldOrigin(digest, w, a, i);
    if KeepsHold(w, a, i) && HoldOf(w.threads[i]) == Some(h) { HeldFound(w, a, i, h); } else { NewHoldLeased(w, a, h); }
  }

  /** A second worker comes only by a second claim. */
  lemma AdvanceKeepsOneWorker(digest: Digest, w: World, a: Act, d: string)
    requires Keyed(w.db) && OneWorker(w, d) && !Doubles(w, a, d)
    ensures OneWorker(Advance(digest, w, a), d)
  {
    forall i, j | HeldBy(Advance(digest, w, a), i, d) && HeldBy(Advance(digest, w, a), j, d)
      ensures i == j
    {
      HoldOrigin(digest, w, a, i);
      HoldOrigin(digest, w, a, j);
      assert HeldBy(w, i, d) || (a.Step? && a.tid == i && NextStmt(w, a) == ClaimOldest(d) && Oldest(w.db, d));
      assert HeldBy(w, j, d) || (a.Step? && a.tid == j && NextStmt(w, a) == ClaimOldest(d) && Oldest(w.db, d));
    }
  }

  lemma AdvanceKeepsOrderly(digest: Digest, w: World, a: Act, d: string)
    requires RowsInv(w.db) && Keyed(w.db) && Orderly(w, d) && !Doubles(w, a, d)
    ensures Orderly(Advance(digest, w, a), d)
  {
    AdvanceKeepsOneWorker(digest, w, a, d);
    forall i | HeldBy(Advance(digest, w, a), i, d)
      ensures Found(Advance(digest, w, a).db, HoldOf(Advance(digest, w, a).threads[i]).value)
    {
      HoldFound(digest, w, a, i, HoldOf(Advance(digest, w, a).threads[i]).value);
    }
  }

  /** As long as no claim doubles up, the document has one worker at most, who finds the row leased to it, decided or freed. */
  lemma {:induction false} UndoubledOrderly(digest: Digest, acts: seq<Act>, d: string)
    requires NeverDoubled(digest, acts, d)
    ensures Orderly(Reachable(digest, acts), d)
  {
    if acts == [] {
    } else {
      var init := acts[..|acts| - 1];
      UndoubledOrderly(digest, init, d);
      ReachableDbInv(digest, init, []);
      AdvanceKeepsOrderly(digest, Reachable(digest, init), acts[|acts| - 1], d);
    }
  }

  /** A claim of a held document gives it a second worker. */
  lemma DoublingAddsWorker(digest: Digest, w: World, a: Act, d: string)
    requires Keyed(w.db) && Doubles(w, a, d)
    ensures !OneWorker(Advance(digest, w, a), d)
  {
    var i :| HeldBy(w, i, d);
    ClaimStarts(digest, w, a, d);
    assert HeldBy(Advance(digest, w, a), i, d);
  }

  lemma ClaimStarts(digest: Digest, w: World, a: Act, d: string)
    requires Keyed(w.db) && a.Step? && NextStmt(w, a) == ClaimOldest(d) && Oldest(w.db, d)
    ensures a.tid in w.threads && HoldOf(w.threads[a.tid]).None? && HeldBy(Advance(digest, w, a), a.tid, d)
  {
    var t := w.threads[a.tid];
    var pc := t.pc;
    match pc
    case ScanClaim => ClaimHits(digest, w.db, t.call, a.choice);
    case _ =>
  }

  /** Exclusion, exactly and for each document: at no moment of a run does it have two live workers, if and only if no action
      of the run is a claim that takes it while a worker holds it. */
  lemma {:induction false} OneWorkerExactly(digest: Digest, acts: seq<Act>, d: string)
    ensures AlwaysOneWorker(digest, acts, d) <==> NeverDoubled(digest, acts, d)
  {
    if acts == [] {
    } else {
      var init, a := acts[..|acts| - 1], acts[|acts| - 1];
      OneWorkerExactly(digest, init, d);
      if NeverDoubled(digest, init, d) { NextExactly(digest, init, a, d); }
    }
  }

  lemma NextExactly(digest: Digest, init: seq<Act>, a: Act, d: string)
    requires NeverDoubled(digest, init, d)
    ensures OneWorker(Advance(digest, Reachable(digest, init), a), d) <==> !Doubles(Reachable(digest, init), a, d)
  {
    var w := Reachable(digest, init);
    ReachableDbInv(digest, init, []);
    if Doubles(w, a, d) {
      DoublingAddsWorker(digest, w, a, d);
    } else {
      UndoubledOrderly(digest, init, d);
      AdvanceKeepsOneWorker(digest, w, a, d);
    }
  }

  /** And when the next claim may do that: as long as none has, a held document is up for another claim if and only if it is
      undecided, has attempts left, and its worker is late or a failure has freed it. */
  lemma OverlapExactly(digest: Digest, acts: seq<Act>, i: nat, d: string)
    requires NeverDoubled(digest, acts, d) && HeldBy(Reachable(digest, acts), i, d)
    ensures var w := Reachable(digest, acts);
      && d in w.db.rows
      && (Claimable(w.db, d) <==>
            && !Ruled(w.db, d) && w.db.rows[d].attempts < MAX_ATTEMPTS
            && (Freed(w.db, d) || HoldOf(w.threads[i]).value.until < w.db.now))
  {
    UndoubledOrderly(digest, acts, d);
    assert Found(Reachable(digest, acts).db, HoldOf(Reachable(digest, acts).threads[i]).value);
  }

  /** While its worker is in time and nothing has freed it, a held document cannot be claimed. */
  lemma TimelyNotDoubled(w: World, a: Act, d: string)
    requires Exclusive(w, d) && Timely(w, d)
    ensures !Doubles(w, a, d)
  {}

  lemma AdvanceKeepsExclusive(digest: Digest, w: World, a: Act, d: string)
    requires RowsInv(w.db) && Keyed(w.db) && Exclusive(w, d) && Timely(w, d) && !FreesHeld(w, a, d)
    ensures Exclusive(Advance(digest, w, a), d)
  {
    TimelyNotDoubled(w, a, d);
    AdvanceKeepsOneWorker(digest, w, a, d);
    forall i | HeldBy(Advance(digest, w, a), i, d)
      ensures LeasedTo(Advance(digest, w, a).db, HoldOf(Advance(digest, w, a).threads[i]).value) || Ruled(Advance(digest, w, a).db, d)
    {
      HoldFound(digest, w, a, i, HoldOf(Advance(digest, w, a).threads[i]).value);
    }
  }

  /** Lease exclusion, document by document: if every worker on it ends within its own lease and no posted failure lands on it
      while it is held, it never has two live workers, and its worker's lease is the one on the row until it is decided.
      Posted clean and infected results may come at any time, and what happens to other documents does not matter. */
  lemma {:induction false} LeaseExclusion(digest: Digest, acts: seq<Act>, d: string)
    requires TimelyRun(digest, acts, d)
    ensures Exclusive(Reachable(digest, acts), d)
  {
    if acts == [] {
    } else {
      var init := acts[..|acts| - 1];
      LeaseExclusion(digest, init, d);
      ReachableDbInv(digest, init, []);
      assert Timely(Reachable(digest, init), d) by { if init == [] { assert Reachable(digest, init) == GENESIS; } }
      AdvanceKeepsExclusive(digest, Reachable(digest, init), acts[|acts| - 1], d);
    }
  }

  /** Without the assumptions exclusion fails: a held document that is the oldest claimable one gets a second worker. */
  lemma SecondWorker(digest: Digest, w: World, i: nat, q: nat, c: Choice)
    requires i in w.threads && HoldOf(w.threads[i]).Some?
    requires Keyed(w.db) && q !in w.threads && c.pick == HoldOf(w.threads[i]).value.id && Oldest(w.db, c.pick)
    ensures var w' := Execute(digest, w, [Spawn(q, ProcessOne)] + [Step(q, c)]);
      && i in w'.threads && q in w'.threads && i != q
      && HoldOf(w'.threads[i]) == HoldOf(w.threads[i])
      && HoldOf(w'.threads[q]).Some? && HoldOf(w'.threads[q]).value.id == HoldOf(w'.threads[i]).value.id
      && !OneWorker(w', c.pick)
  {
    var w1 := Advance(digest, w, Spawn(q, ProcessOne));
    ExecuteAppend(digest, w, [Spawn(q, ProcessOne)], [Step(q, c)]);
    assert Execute(digest, w, []) == w && [Spawn(q, ProcessOne)][..0] == [];
    assert Execute(digest, w, [Spawn(q, ProcessOne)]) == w1;
    assert Execute(digest, w1, []) == w1 && [Step(q, c)][..0] == [];
    assert w1.threads[q] == Thread(ProcessOne, ScanClaim) && w1.db == w.db;
    ClaimHits(digest, w.db, ProcessOne, c);
    var w' := Execute(digest, w, [Spawn(q, ProcessOne)] + [Step(q, c)]);
    assert HeldBy(w', i, c.pick) && HeldBy(w', q, c.pick);
  }

  /** Recording is not fenced by the lease: a worker's verdict is accepted as long as the document is undecided,
      whoever holds the lease by then. */
  lemma StaleVerdictAccepted(digest: Digest, db: Db, t: Thread, c: Choice)
    requires DbInv(db) && ThreadOk(digest, db, t) && t.pc.RecordUpdate? && t.pc.id in db.rows
    requires Within(db.rows[t.pc.id].reg, Partition(t.pc.scope.tenant, t.pc.scope.environment))
    ensures Resume(digest, db, t, c) == RecordAudit(t.pc.scope, t.pc.id, t.pc.outcome) <==> db.rows[t.pc.id].status == Quarantined
  {}

  /** An external "failed" result frees a held document at once, without ending its worker. */
  lemma ExternalFailureFrees(db: Db, h: Hold, within: Partition)
    requires LeasedTo(db, h) && Keyed(db) && Within(db.rows[h.id].reg, within) && db.rows[h.id].attempts < MAX_ATTEMPTS
    ensures Claimable(Exec(db, RecordVerdict(h.id, within, FailedOutcome)), h.id)
  {}

  /** No starvation, for the threads of any run: as long as a waiting document is not decided, nor claimed, so that its attempts
      stay the same, the workers have asked for work at most as often as the documents uploaded no later may be claimed. */
  lemma WorkersDoNotStarve(digest: Digest, acts: seq<Act>, more: seq<Act>, d: string, t: nat)
    requires var (w, w') := (Reachable(digest, acts), Reachable(digest, acts + more));
      && Waiting(w.db, d, t) && LegalRun(w.db, StmtsOf(digest, w, more))
      && Attempts(w'.db, d) == Attempts(w.db, d) && Decided(w'.db, d) == 0
    ensures var (w, w') := (Reachable(digest, acts), Reachable(digest, acts + more));
      Waiting(w'.db, d, t) && Queries(StmtsOf(digest, w, more)) + Ahead(w'.db, d, t) <= Ahead(w.db, d, t)
  {
    var w := Reachable(digest, acts);
    ReachableDbInv(digest, acts, []);
    ExecuteAppend(digest, GENESIS, acts, more);
    ThreadsRunStatements(digest, w, more);
    AttemptsCountClaims(w.db, StmtsOf(digest, w, more), d);
    NoStarvation(w.db, StmtsOf(digest, w, more), d, t);
  }
}
