/** The scan queue over whole runs: attempts, verdicts, termination, quiescence and the no-starvation bound. */
module Queue {
  import opened Schema
  import opened Statements

  ghost function Sum(m: map<string, nat>): nat
    decreases |m|
  {
    if m == map[] then 0
    else
      var k :| k in m;
      m[k] + Sum(m - {k})
  }

  function WeightAt(m: map<string, nat>, k: string): nat {
    if k in m then m[k] else 0
  }

  lemma {:induction false} SumSplit(m: map<string, nat>, k: string)
    requires k in m
    ensures Sum(m) == m[k] + Sum(m - {k})
    decreases |m|
  {
    var j :| j in m && Sum(m) == m[j] + Sum(m - {j});
    if j != k {
      SumSplit(m - {j}, k);
      SumSplit(m - {k}, j);
      assert m - {j} - {k} == m - {k} - {j};
    }
  }

  lemma SumUpdate(m: map<string, nat>, k: string, v: nat)
    ensures Sum(m[k := v]) == Sum(m) - WeightAt(m, k) + v
    ensures WeightAt(m, k) <= Sum(m)
  {
    SumSplit(m[k := v], k);
    if k in m {
      SumSplit(m, k);
      assert m[k := v] - {k} == m - {k};
    } else {
      assert m[k := v] - {k} == m;
    }
  }

  /** The statement takes a lease: the claim query found a row. */
  ghost predicate Claims(db: Db, s: Stmt) {
    s.ClaimOldest? && Oldest(db, s.pick)
  }

  /** The statement brings a document into quarantine. */
  ghost predicate Uploads(db: Db, s: Stmt) {
    s.Quarantine? && Quarantinable(db, s.id, s.within)
  }

  /** The statement gives a document its verdict. */
  ghost predicate Decides(db: Db, s: Stmt, id: string) {
    s.RecordVerdict? && s.id == id && Recordable(db, id, s.within) && Terminal(StatusAfter(s.outcome))
  }

  ghost function ClaimsOf(db: Db, log: seq<Stmt>, id: string): nat {
    if log == [] then 0
    else
      var before := Run(db, log[..|log| - 1]);
      var s := log[|log| - 1];
      ClaimsOf(db, log[..|log| - 1], id) + if Claims(before, s) && s.pick == id then 1 else 0
  }

  ghost function AllClaims(db: Db, log: seq<Stmt>): nat {
    if log == [] then 0
    else AllClaims(db, log[..|log| - 1]) + if Claims(Run(db, log[..|log| - 1]), log[|log| - 1]) then 1 else 0
  }

  ghost function AllUploads(db: Db, log: seq<Stmt>): nat {
    if log == [] then 0
    else AllUploads(db, log[..|log| - 1]) + if Uploads(Run(db, log[..|log| - 1]), log[|log| - 1]) then 1 else 0
  }

  ghost function Verdicts(db: Db, log: seq<Stmt>, id: string): nat {
    if log == [] then 0
    else Verdicts(db, log[..|log| - 1], id) + if Decides(Run(db, log[..|log| - 1]), log[|log| - 1], id) then 1 else 0
  }

  function Attempts(db: Db, id: string): int {
    if id in db.rows then db.rows[id].attempts else 0
  }

  lemma AttemptsStep(db: Db, s: Stmt, id: string)
    requires RowsInv(db) && Keyed(db)
    ensures Attempts(Exec(db, s), id) == Attempts(db, id) + if Claims(db, s) && s.pick == id then 1 else 0
  {}

  /** scan_attempts counts exactly the leases taken on a document. */
  lemma {:induction false} AttemptsCountClaims(db: Db, log: seq<Stmt>, id: string)
    requires DbInv(db)
    ensures Attempts(Run(db, log), id) == Attempts(db, id) + ClaimsOf(db, log, id)
  {
    if log == [] {
    } else {
      AttemptsCountClaims(db, log[..|log| - 1], id);
      RunKeepsDbInv(db, log[..|log| - 1]);
      AttemptsStep(Run(db, log[..|log| - 1]), log[|log| - 1], id);
    }
  }

  /** One if the document has its verdict, zero otherwise. */
  function Decided(db: Db, id: string): nat {
    if id in db.rows && Terminal(db.rows[id].status) then 1 else 0
  }

  lemma DecidedStep(db: Db, s: Stmt, id: string)
    requires RowsInv(db) && Keyed(db)
    ensures Decided(Exec(db, s), id) == Decided(db, id) + if Decides(db, s, id) then 1 else 0
  {}

  /** Verdict finality: a document is decided by exactly one statement of the run, or was decided before it; never by two, and never undone. */
  lemma {:induction false} OneVerdict(db: Db, log: seq<Stmt>, id: string)
    requires DbInv(db)
    ensures Decided(db, id) + Verdicts(db, log, id) == Decided(Run(db, log), id)
  {
    if log == [] {
    } else {
      OneVerdict(db, log[..|log| - 1], id);
      RunKeepsDbInv(db, log[..|log| - 1]);
      DecidedStep(Run(db, log[..|log| - 1]), log[|log| - 1], id);
    }
  }

  /** Once a verdict has landed every later result is refused and changes nothing. */
  lemma LateResultRefused(db: Db, log: seq<Stmt>, id: string, within: Partition, outcome: Outcome)
    requires DbInv(db) && id in db.rows && Terminal(db.rows[id].status)
    ensures !Recordable(Run(db, log), id, within)
    ensures Exec(Run(db, log), RecordVerdict(id, within, outcome)) == Run(db, log)
  {
    RunEvolves(db, log);
  }

  ghost function Weigh(rows: map<string, Row>, w: Row -> nat): map<string, nat> {
    map id | id in rows :: w(rows[id])
  }

  /** What the written row weighed before the statement. */
  function WeightBefore(db: Db, row: Row, w: Row -> nat): nat {
    if row.reg.id in db.rows then w(db.rows[row.reg.id]) else 0
  }

  /** One statement moves a weighted sum by the change in the one row it writes. */
  lemma WeighStep(db: Db, s: Stmt, w: Row -> nat)
    requires Keyed(db)
    ensures Written(db, s).None? ==> Exec(db, s).rows == db.rows
    ensures Written(db, s).Some? ==>
      var row := Written(db, s).value;
      var was := WeightBefore(db, row, w);
      was <= Sum(Weigh(db.rows, w)) && Sum(Weigh(Exec(db, s).rows, w)) == Sum(Weigh(db.rows, w)) - was + w(row)
  {
    if Written(db, s).Some? {
      var row := Written(db, s).value;
      SumUpdate(Weigh(db.rows, w), row.reg.id, w(row));
      assert Weigh(Exec(db, s).rows, w) == Weigh(db.rows, w)[row.reg.id := w(row)];
    }
  }

  /** The leases a row may still give out. */
  function LeasesLeft(row: Row): nat {
    if row.status == Quarantined && row.attempts < MAX_ATTEMPTS then MAX_ATTEMPTS - row.attempts else 0
  }

  ghost function Budget(db: Db): nat {
    Sum(Weigh(db.rows, LeasesLeft))
  }

  lemma LeasesStep(db: Db, s: Stmt)
    requires RowsInv(db) && Keyed(db) && Written(db, s).Some?
    ensures LeasesLeft(Written(db, s).value) + (if Claims(db, s) then 1 else 0)
         <= WeightBefore(db, Written(db, s).value, LeasesLeft) + if Uploads(db, s) then MAX_ATTEMPTS else 0
  {}

  lemma BudgetStep(db: Db, s: Stmt)
    requires RowsInv(db) && Keyed(db)
    ensures Budget(Exec(db, s)) + (if Claims(db, s) then 1 else 0) <= Budget(db) + if Uploads(db, s) then MAX_ATTEMPTS else 0
  {
    WeighStep(db, s, LeasesLeft);
    if Written(db, s).Some? { LeasesStep(db, s); }
  }

  /** Claiming terminates: every lease taken is paid from the budget, and only an upload refills it, by five. */
  lemma {:induction false} ClaimsWithinBudget(db: Db, log: seq<Stmt>)
    requires DbInv(db)
    ensures AllClaims(db, log) + Budget(Run(db, log)) <= Budget(db) + MAX_ATTEMPTS * AllUploads(db, log)
  {
    if log == [] {
    } else {
      ClaimsWithinBudget(db, log[..|log| - 1]);
      RunKeepsDbInv(db, log[..|log| - 1]);
      BudgetStep(Run(db, log[..|log| - 1]), log[|log| - 1]);
    }
  }

  /** The claim query finds a row whenever one is claimable. */
  lemma {:induction false} OldestAmong(db: Db, ids: set<string>) returns (first: string)
    requires ids != {} && ids <= db.rows.Keys
    ensures first in ids && forall other | other in ids :: NoLater(db.rows[first], db.rows[other])
  {
    first :| first in ids;
    if ids != {first} {
      var rest := OldestAmong(db, ids - {first});
      if !NoLater(db.rows[first], db.rows[rest]) {
        first := rest;
      }
    }
  }

  lemma OldestExists(db: Db, id: string) returns (first: string)
    requires Claimable(db, id)
    ensures Oldest(db, first)
  {
    var ids := set i | i in db.rows && Claimable(db, i);
    assert id in ids;
    first := OldestAmong(db, ids);
  }

  /** The row waits for an upload, has its verdict, is out of attempts, or is leased for the moment. */
  predicate Settled(row: Row, now: nat) {
    || row.status == PendingUpload
    || Terminal(row.status)
    || (row.status == Quarantined && row.attempts == MAX_ATTEMPTS)
    || (row.status == Quarantined && row.scan == Scanning && row.lease.Some? && now <= row.lease.value)
  }

  /** The queue is idle exactly when every row is settled; once all leases have run out the last case of Settled is gone. */
  lemma Quiescence(db: Db)
    requires DbInv(db)
    ensures (forall id | id in db.rows :: !Claimable(db, id)) <==> (forall id | id in db.rows :: Settled(db.rows[id], db.now))
  {}

  /** The claim query as PostgreSQL runs it: it returns an oldest claimable row, or there is none. */
  ghost predicate Legal(db: Db, s: Stmt) {
    s.ClaimOldest? ==> Oldest(db, s.pick) || forall id | id in db.rows :: !Claimable(db, id)
  }

  ghost predicate LegalRun(db: Db, log: seq<Stmt>) {
    log == [] || (LegalRun(db, log[..|log| - 1]) && Legal(Run(db, log[..|log| - 1]), log[|log| - 1]))
  }

  function Queries(log: seq<Stmt>): nat {
    if log == [] then 0 else Queries(log[..|log| - 1]) + if log[|log| - 1].ClaimOldest? then 1 else 0
  }

  /** The leases a row uploaded no later than time t, and not the waiting document, may still take. */
  function AheadWeight(d: string, t: nat): Row -> nat {
    (row: Row) => if row.reg.id != d && row.uploadedAt.Some? && row.uploadedAt.value <= t then LeasesLeft(row) else 0
  }

  ghost function Ahead(db: Db, d: string, t: nat): nat {
    Sum(Weigh(db.rows, AheadWeight(d, t)))
  }

  /** The document waits in the queue, and the clock has passed the instant it was uploaded. */
  predicate Waiting(db: Db, d: string, t: nat) {
    Claimable(db, d) && db.rows[d].uploadedAt == Some(t) && t < db.now
  }

  lemma WaitingKept(db: Db, s: Stmt, d: string, t: nat)
    requires Keyed(db) && Waiting(db, d, t)
    requires !Decides(db, s, d) && !(Claims(db, s) && s.pick == d)
    ensures Waiting(Exec(db, s), d, t)
  {}

  lemma AheadStep(db: Db, s: Stmt, d: string, t: nat)
    requires RowsInv(db) && Keyed(db) && Waiting(db, d, t) && Written(db, s).Some?
    requires !(Claims(db, s) && s.pick == d)
    ensures AheadWeight(d, t)(Written(db, s).value) + (if s.ClaimOldest? then 1 else 0)
         <= WeightBefore(db, Written(db, s).value, AheadWeight(d, t))
  {}

  lemma WaitingStep(db: Db, s: Stmt, d: string, t: nat)
    requires RowsInv(db) && Keyed(db) && Waiting(db, d, t) && Legal(db, s)
    requires !Decides(db, s, d) && !(Claims(db, s) && s.pick == d)
    ensures Waiting(Exec(db, s), d, t)
    ensures Ahead(Exec(db, s), d, t) + (if s.ClaimOldest? then 1 else 0) <= Ahead(db, d, t)
  {
    WaitingKept(db, s, d, t);
    WeighStep(db, s, AheadWeight(d, t));
    if Written(db, s).Some? { AheadStep(db, s, d, t); }
  }

  /** No starvation: while a waiting document is neither claimed nor decided, the claim query has run at most as often
      as the other documents uploaded no later may still be claimed, whatever failures, expiries and uploads happen. */
  lemma {:induction false} NoStarvation(db: Db, log: seq<Stmt>, d: string, t: nat)
    requires DbInv(db) && LegalRun(db, log)
    requires Waiting(db, d, t)
    requires ClaimsOf(db, log, d) == 0 && Decided(Run(db, log), d) == 0
    ensures Waiting(Run(db, log), d, t)
    ensures Queries(log) + Ahead(Run(db, log), d, t) <= Ahead(db, d, t)
  {
    if log == [] {
    } else {
      var init := log[..|log| - 1];
      OneVerdict(db, log, d);
      OneVerdict(db, init, d);
      NoStarvation(db, init, d, t);
      RunKeepsDbInv(db, init);
      WaitingStep(Run(db, init), log[|log| - 1], d, t);
    }
  }
}
