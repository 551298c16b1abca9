/** The case list against the point lookup, its walk over a living database, and independence of other partitions. */
module CaseList {
  import opened Schema
  import opened Access
  import opened Statements
  import opened Gates
  import opened Grants
  import opened Ordering
  import opened Paging

  /** The filter CaseUploads applies to each row it read (case.go:25). */
  predicate Listed(scope: Scope, application: string, d: Registration) {
    && (d.purpose != MANUAL_BANK_PAYMENT || scope.paymentReference == application)
    && (d.purpose != MANUAL_BANK_STATEMENT || scope.statementReference == application)
    && (d.purpose != BANK_ACCOUNT_VERIFICATION ||
          (ValidBankAccountScope(scope) && scope.bankAccountReference == application
           && scope.bankAccountOwnerId == d.ownerId && scope.bankAccountOwnerType == d.ownerType))
  }

  predicate CaseScope(scope: Scope, application: string, party: string) {
    scope.tenant != "" && scope.environment != "" && scope.subject != "" && scope.application != "" && application != "" && party != ""
  }

  /** The ids the query selects, cursor and limit aside. */
  function CaseIds(db: Db, scope: Scope, application: string, party: string): set<string> {
    set id | id in db.rows && CaseBound(db, scope, application, party, id)
  }

  /** The filter by id. */
  function Shown(db: Db, scope: Scope, application: string): string -> bool {
    (id: string) => id in db.rows && Listed(scope, application, db.rows[id].reg)
  }

  /** CaseUploads: the ids it returns, in order. */
  ghost function CaseUploads(db: Db, scope: Scope, application: string, party: string, after: string): Result<seq<string>> {
    if !CaseScope(scope, application, party) then Err(ErrEvidenceScope)
    else Ok(Filter(Shown(db, scope, application), Take(LIMIT, Beyond(CaseIds(db, scope, application, party), after))))
  }

  /** List and lookup agree: a row passes the list's query and filter exactly when CaseUpload by its id succeeds. */
  lemma ListAgreesWithLookup(db: Db, scope: Scope, application: string, party: string, id: string)
    requires Keyed(db) && CaseScope(scope, application, party)
    ensures id in CaseIds(db, scope, application, party) && Shown(db, scope, application)(id)
       <==> CaseUpload(db, scope, application, party, id).Ok?
  {}

  /** The list of a case, exactly: ErrEvidenceScope if anything that names the case or its reader is missing; otherwise, in
      increasing order, the party's rows of that source beyond the cursor which the scope is entitled to, of the first 51. */
  lemma ListExactly(db: Db, sc: Scope, application: string, party: string, after: string)
    requires Keyed(db)
    ensures var listed := CaseUploads(db, sc, application, party, after);
      if sc.tenant == "" || sc.environment == "" || sc.subject == "" || sc.application == "" || application == "" || party == "" then
        listed == Err(ErrEvidenceScope)
      else
        && listed.Ok? && Increasing(listed.value)
        && forall id :: id in listed.value <==>
             PartyRow(db, sc, party, Some(application), id) && Entitled(sc, db.rows[id].reg) && Less(after, id)
             && |Between(PartyIds(db, sc, application, party), after, id)| < 51
  {
    if CaseScope(sc, application, party) {
      var ids := CaseIds(db, sc, application, party);
      var window := Take(LIMIT, Beyond(ids, after));
      assert ids == PartyIds(db, sc, application, party);
      BeyondEnumerates(ids, after);
      FilterExactly(Shown(db, sc, application), window);
      forall id
        ensures id in Filter(Shown(db, sc, application), window) <==>
          PartyRow(db, sc, party, Some(application), id) && Entitled(sc, db.rows[id].reg) && Less(after, id)
          && |Between(ids, after, id)| < 51
      {
        WindowExactly(ids, after, id);
        ListAgreesWithLookup(db, sc, application, party, id);
        CaseUploadExactly(db, sc, application, party, id);
      }
    }
  }

  /** The party's rows of that source. */
  function PartyIds(db: Db, sc: Scope, application: string, party: string): set<string> {
    set id | id in db.rows && PartyRow(db, sc, party, Some(application), id)
  }

  /** A case grant's scope is shown exactly the unrestricted documents of the case. */
  lemma CaseRouteShowsUnrestricted(db: Db, p: Principal, environment: string, ask: Ask, g: Grant, id: string)
    requires AuthorizeCase(p, environment, ask, g).Some? && id in db.rows && ask.reference != ""
    ensures Shown(db, AuthorizeCase(p, environment, ask, g).value, ask.reference)(id) <==> !Restricted(db.rows[id].reg.purpose)
  {}

  /** A case only ever gains documents, and what the filter shows of it stays shown. */
  lemma CaseGrows(db: Db, db': Db, scope: Scope, application: string, party: string)
    requires Evolves(db, db')
    ensures CaseIds(db, scope, application, party) <= CaseIds(db', scope, application, party)
    ensures forall id | id in db.rows :: Shown(db, scope, application)(id) == Shown(db', scope, application)(id)
  {}

  ghost predicate Growing(dbs: seq<Db>) {
    forall i, j | 0 <= i <= j < |dbs| :: Evolves(dbs[i], dbs[j])
  }

  ghost function Snapshots(dbs: seq<Db>, scope: Scope, application: string, party: string): seq<set<string>> {
    seq(|dbs|, i requires 0 <= i < |dbs| => CaseIds(dbs[i], scope, application, party))
  }

  /** The list route over a living database: if no document of the case is hidden from the scope, a finished walk lists every
      document the case had when it began, each once and in increasing order, whatever was inserted meanwhile. */
  lemma CaseWalkComplete(dbs: seq<Db>, last: Db, scope: Scope, application: string, party: string)
    requires dbs != [] && Growing(dbs) && last == dbs[|dbs| - 1]
    requires forall id | id in CaseIds(last, scope, application, party) :: id != "" && Shown(last, scope, application)(id)
    ensures var w := Walk(Snapshots(dbs, scope, application, party), Shown(last, scope, application), "");
      && Increasing(w.data)
      && (forall id | id in w.data :: id in CaseIds(last, scope, application, party))
      && (w.ended ==> forall id | id in CaseIds(dbs[0], scope, application, party) :: id in w.data)
  {
    var snapshots := Snapshots(dbs, scope, application, party);
    forall s | s in snapshots
      ensures CaseIds(dbs[0], scope, application, party) <= s <= CaseIds(last, scope, application, party)
    {
      var i :| 0 <= i < |dbs| && s == CaseIds(dbs[i], scope, application, party);
      CaseGrows(dbs[0], dbs[i], scope, application, party);
      CaseGrows(dbs[i], last, scope, application, party);
    }
    StableTraversal(snapshots, Shown(last, scope, application), "");
  }

  /** The two databases hold the same rows in the partition. */
  ghost predicate AgreeOn(a: Db, b: Db, p: Partition) {
    && (forall id | id in a.rows && Within(a.rows[id].reg, p) :: id in b.rows && b.rows[id] == a.rows[id])
    && (forall id | id in b.rows && Within(b.rows[id].reg, p) :: id in a.rows && a.rows[id] == b.rows[id])
  }

  /** Partition independence: under a scope with a tenant, no reader's answer depends on any row outside its tenant and
      environment. */
  lemma PartitionIndependent(a: Db, b: Db, scope: Scope, id: string, application: string, party: string, gate: Gate)
    requires scope.tenant != "" && Keyed(a) && Keyed(b) && AgreeOn(a, b, Partition(scope.tenant, scope.environment))
    ensures Get(a, scope, id) == Get(b, scope, id)
    ensures CaseUpload(a, scope, application, party, id) == CaseUpload(b, scope, application, party, id)
    ensures BankAccountDocument(a, scope, id) == BankAccountDocument(b, scope, id)
    ensures CheckVersion(a, gate, scope, id) == CheckVersion(b, gate, scope, id)
    ensures FetchVersion(a, gate, scope, id) == FetchVersion(b, gate, scope, id)
    ensures CaseIds(a, scope, application, party) == CaseIds(b, scope, application, party)
  {}

  /** The list returns the same under both databases. */
  lemma PartitionIndependentList(a: Db, b: Db, scope: Scope, application: string, party: string, after: string)
    requires scope.tenant != "" && Keyed(a) && Keyed(b) && AgreeOn(a, b, Partition(scope.tenant, scope.environment))
    ensures CaseUploads(a, scope, application, party, after) == CaseUploads(b, scope, application, party, after)
  {
    PartitionIndependent(a, b, scope, "", application, party, BankAccountVersion(""));
    var ids := CaseIds(a, scope, application, party);
    BeyondEnumerates(ids, after);
    var window := Take(LIMIT, Beyond(ids, after));
    forall id | id in window
      ensures Shown(a, scope, application)(id) == Shown(b, scope, application)(id)
    {
      assert id in Beyond(ids, after) && id in ids && id in CaseIds(b, scope, application, party);
    }
    FilterAgrees(Shown(a, scope, application), Shown(b, scope, application), window);
  }

  lemma {:induction false} FilterAgrees(v: string -> bool, u: string -> bool, ids: seq<string>)
    requires forall id | id in ids :: v(id) == u(id)
    ensures Filter(v, ids) == Filter(u, ids)
  {
    if ids == [] {
    } else {
      FilterAgrees(v, u, ids[1..]);
    }
  }

  /** Complete's and RecordScan's updates touch the addressed row alone, and only inside the caller's partition. */
  lemma UpdatesStayInside(db: Db, s: Stmt, id: string)
    requires Keyed(db) && (s.Quarantine? || s.RecordVerdict?) && id in db.rows
    requires id != s.id || !Within(db.rows[id].reg, s.within)
    ensures id in Exec(db, s).rows && Exec(db, s).rows[id] == db.rows[id] && Exec(db, s).rows.Keys == db.rows.Keys
  {}

  /** What the two updates write depends on their partition and the clock alone: on databases that agree on these they find or
      miss alike, write the same row, and leave the databases agreeing. */
  lemma WritersIndependent(a: Db, b: Db, s: Stmt)
    requires s.Quarantine? || s.RecordVerdict?
    requires Keyed(a) && Keyed(b) && a.now == b.now && AgreeOn(a, b, s.within)
    ensures Written(a, s) == Written(b, s)
    ensures AgreeOn(Exec(a, s), Exec(b, s), s.within)
  {}
}
