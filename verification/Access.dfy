/** Who may read a document: get, checkPaymentAccess and the version checks built on them. */
module Access {
  import opened Text
  import opened Schema

  /** internal/documents/bank_account.go, validBankAccountScope. */
  predicate ValidBankAccountScope(s: Scope) {
    && !Blank(s.bankAccountReference) && |s.bankAccountReference| <= 128
    && !Blank(s.bankAccountOwnerId) && |s.bankAccountOwnerId| <= 128
    && s.subject != "" && s.application != ""
    && (s.environment == "sandbox" || s.environment == "production")
    && (|| (s.bankAccountOwnerType == "PARTY" && s.tenant != "")
        || (s.bankAccountOwnerType == "LEGAL_ENTITY" && s.tenant == ""))
  }

  /** The lookup by public_id, tenant_id, environment and source_reference that both gates issue. */
  predicate SourceBound(db: Db, id: string, tenant: string, environment: string, reference: string) {
    && id in db.rows
    && var reg := db.rows[id].reg;
       reg.tenant == tenant && reg.environment == environment && reg.sourceReference == Some(reference)
  }

  /** checkPaymentAccess; its only refusal is ErrNotFound. */
  predicate AccessGranted(db: Db, sc: Scope, d: Registration) {
    if d.purpose == BANK_ACCOUNT_VERIFICATION then
      && ValidBankAccountScope(sc)
      && d.ownerId == sc.bankAccountOwnerId
      && d.ownerType == sc.bankAccountOwnerType
      && SourceBound(db, d.id, sc.tenant, sc.environment, sc.bankAccountReference)
      && db.rows[d.id].reg.ownerType == sc.bankAccountOwnerType
      && db.rows[d.id].reg.ownerId == sc.bankAccountOwnerId
    else if d.purpose != MANUAL_BANK_PAYMENT && d.purpose != MANUAL_BANK_STATEMENT then true
    else
      var reference := if d.purpose == MANUAL_BANK_STATEMENT then sc.statementReference else sc.paymentReference;
      && reference != "" && sc.tenant != "" && sc.environment != ""
      && SourceBound(db, d.id, sc.tenant, sc.environment, reference)
  }

  /** The row get selects, before its access check. */
  predicate Selected(db: Db, scope: Scope, id: string) {
    && id in db.rows
    && var reg := db.rows[id].reg;
       if scope.tenant == "" then
         reg.environment == (if scope.environment == "" then "sandbox" else scope.environment)
       else
         reg.tenant == scope.tenant && reg.environment == scope.environment
  }

  /** get: select the row, then check payment access. */
  function Get(db: Db, scope: Scope, id: string): Result<Row> {
    if Selected(db, scope, id) && AccessGranted(db, scope, db.rows[id].reg) then Ok(db.rows[id]) else Err(ErrNotFound)
  }

  /** The case binding CaseUpload selects on before it calls get. */
  predicate CaseBound(db: Db, scope: Scope, application: string, party: string, id: string) {
    && SourceBound(db, id, scope.tenant, scope.environment, application)
    && var reg := db.rows[id].reg;
       reg.ownerType == "PARTY" && reg.ownerId == party && reg.party == Some(party)
  }

  function CaseUpload(db: Db, scope: Scope, application: string, party: string, id: string): Result<Row> {
    if scope.tenant == "" || scope.environment == "" || scope.subject == "" || scope.application == "" || application == "" || party == "" then
      Err(ErrEvidenceScope)
    else if !CaseBound(db, scope, application, party, id) then Err(ErrNotFound)
    else Get(db, scope, id)
  }

  /** The row BankAccountDocument and BankAccountEvidence select. */
  predicate BankAccountBound(db: Db, scope: Scope, id: string) {
    && SourceBound(db, id, scope.tenant, scope.environment, scope.bankAccountReference)
    && var reg := db.rows[id].reg;
       && reg.ownerType == scope.bankAccountOwnerType
       && reg.ownerId == scope.bankAccountOwnerId
       && reg.purpose == BANK_ACCOUNT_VERIFICATION
  }

  function BankAccountDocument(db: Db, scope: Scope, id: string): Result<Row> {
    if !ValidBankAccountScope(scope) then Err(ErrEvidenceScope)
    else if !BankAccountBound(db, scope, id) then Err(ErrNotFound)
    else Get(db, scope, id)
  }

  /** Which version check a call asks for: a party's document (with the source it must come from) or a bank account's. */
  datatype Gate =
    | PartyVersion(party: string, digest: string, resource: Option<string>)
    | BankAccountVersion(digest: string)

  predicate CleanVersion(row: Row, digest: string) {
    row.status == Available && row.scan == Clean && row.reg.sha256 == digest
  }

  /** The refusals that precede any query. */
  function GateScope(gate: Gate, scope: Scope, id: string): Result<()> {
    match gate
    case PartyVersion(party, digest, resource) =>
      if resource.Some? && (Blank(resource.value) || |resource.value| > 128) then Err(ErrConflict)
      else if Blank(scope.tenant) || Blank(scope.environment) || Blank(scope.subject) || Blank(scope.application) then Err(ErrEvidenceScope)
      else if Blank(id) || Blank(party) || !IsSha256(digest) then Err(ErrConflict)
      else Ok(())
    case BankAccountVersion(digest) =>
      if !ValidBankAccountScope(scope) || !IsSha256(digest) then Err(ErrEvidenceScope) else Ok(())
  }

  /** The row the locking SELECT of a version check finds. */
  predicate VersionBound(db: Db, gate: Gate, scope: Scope, id: string) {
    match gate
    case PartyVersion(party, digest, resource) =>
      && id in db.rows
      && var reg := db.rows[id].reg;
         && reg.tenant == scope.tenant && reg.environment == scope.environment
         && reg.ownerType == "PARTY" && reg.ownerId == party && reg.party == Some(party)
         && (resource.None? || reg.sourceReference == resource)
    case BankAccountVersion(digest) => BankAccountBound(db, scope, id)
  }

  /** verifyEvidence and BankAccountEvidence as far as their decision goes. */
  function CheckVersion(db: Db, gate: Gate, scope: Scope, id: string): Result<Row> {
    if GateScope(gate, scope, id).Err? then Err(GateScope(gate, scope, id).error)
    else if !VersionBound(db, gate, scope, id) then Err(ErrNotFound)
    else
      var row := db.rows[id];
      if gate.PartyVersion? && !AccessGranted(db, scope, row.reg) then Err(ErrNotFound)
      else if !CleanVersion(row, gate.digest) then Err(ErrConflict)
      else Ok(row)
  }

  /** The second lookup of OpenEvidence and OpenBankAccountEvidence. */
  function FetchVersion(db: Db, gate: Gate, scope: Scope, id: string): Result<Row> {
    match gate
    case PartyVersion(_, _, _) => Get(db, scope, id)
    case BankAccountVersion(_) => BankAccountDocument(db, scope, id)
  }

  /** The reference of the given purpose that a scope carries, if it may carry one. */
  function ReferenceFor(sc: Scope, purpose: string): Option<string> {
    if purpose == BANK_ACCOUNT_VERIFICATION then (if ValidBankAccountScope(sc) then Some(sc.bankAccountReference) else None)
    else if purpose == MANUAL_BANK_PAYMENT then NullIfEmpty(sc.paymentReference)
    else if purpose == MANUAL_BANK_STATEMENT then NullIfEmpty(sc.statementReference)
    else None
  }

  predicate Restricted(purpose: string) {
    purpose == BANK_ACCOUNT_VERIFICATION || purpose == MANUAL_BANK_PAYMENT || purpose == MANUAL_BANK_STATEMENT
  }

  /** Some reader hands out the document. */
  predicate Reads(db: Db, gate: Gate, scope: Scope, application: string, party: string, id: string) {
    || Get(db, scope, id).Ok?
    || CaseUpload(db, scope, application, party, id).Ok?
    || BankAccountDocument(db, scope, id).Ok?
    || CheckVersion(db, gate, scope, id).Ok?
    || FetchVersion(db, gate, scope, id).Ok?
  }

  /** Every reader hands out a restricted document only under a scope that carries its own source reference, of its own kind. */
  lemma Confinement(db: Db, gate: Gate, scope: Scope, application: string, party: string, id: string)
    requires forall i | i in db.rows :: db.rows[i].reg.id == i
    requires id in db.rows && Restricted(db.rows[id].reg.purpose)
    requires Reads(db, gate, scope, application, party, id)
    ensures db.rows[id].reg.sourceReference.Some?
    ensures ReferenceFor(scope, db.rows[id].reg.purpose) == db.rows[id].reg.sourceReference
  {}
}
