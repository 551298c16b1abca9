/** Create up to its INSERT: the scope checks, the normalisation, the validation and the row it proposes. */
module Creation {
  import opened Text
  import opened Schema
  import opened Access
  import opened Statements

  /** The purposes that need a grant's own reference (service.go:81-89). */
  predicate GrantCovers(scope: Scope, input: CreateInput) {
    && (input.purpose == BANK_ACCOUNT_VERIFICATION ==>
          && ValidBankAccountScope(scope)
          && scope.bankAccountReference == input.sourceReference
          && scope.bankAccountOwnerType == ToUpper(input.ownerType)
          && scope.bankAccountOwnerId == input.ownerId)
    && (input.purpose == MANUAL_BANK_PAYMENT ==> scope.paymentReference != "" && scope.paymentReference == input.sourceReference)
    && (input.purpose == MANUAL_BANK_STATEMENT ==> scope.statementReference != "" && scope.statementReference == input.sourceReference)
  }

  /** The rewriting of the request (service.go:90-105). */
  function Normalise(input: CreateInput): CreateInput {
    var trimmed := input.(
      filename := Base(TrimSpace(input.filename)),
      sha256 := ToLower(TrimSpace(input.sha256)),
      idempotencyKey := TrimSpace(input.idempotencyKey),
      ownerType := ToUpper(TrimSpace(input.ownerType)),
      ownerId := TrimSpace(input.ownerId));
    var owned :=
      if trimmed.ownerType == "" && trimmed.partyId != "" then trimmed.(ownerType := "PARTY", ownerId := trimmed.partyId)
      else trimmed;
    owned.(partyId := if owned.ownerType == "PARTY" then owned.ownerId else "")
  }

  /** Service accounts take their tenant from a "ten_" source reference; a missing environment means sandbox. */
  function ResolveScope(scope: Scope, input: CreateInput): Scope {
    scope.(
      tenant := if scope.tenant == "" && HasPrefix(input.sourceReference, "ten_") then input.sourceReference else scope.tenant,
      environment := if scope.environment == "" then "sandbox" else scope.environment)
  }

  /** The validation that ends in ErrConflict (service.go:115). */
  predicate Acceptable(scope: Scope, input: CreateInput) {
    && (scope.tenant != "" || (input.purpose == BANK_ACCOUNT_VERIFICATION && ValidBankAccountScope(scope)))
    && scope.environment != "" && scope.subject != "" && scope.application != ""
    && input.ownerType in OWNER_TYPES && input.ownerId != "" && |input.ownerId| <= 128
    && input.documentType != "" && input.purpose != "" && input.retentionCategory != ""
    && input.filename != "" && |input.filename| <= 255
    && input.idempotencyKey != "" && |input.idempotencyKey| <= 128
    && input.contentType in CONTENT_TYPES && input.classification in CLASSIFICATIONS
    && 1 <= input.size <= MAX_SIZE && IsSha256(input.sha256)
  }

  /** A request as Create goes on with it. */
  datatype Request = Request(scope: Scope, input: CreateInput)

  function Prepare(scope: Scope, input: CreateInput): Result<Request> {
    if !GrantCovers(scope, input) then Err(ErrEvidenceScope)
    else
      var in' := Normalise(input);
      var scope' := ResolveScope(scope, in');
      if Acceptable(scope', in') then Ok(Request(scope', in')) else Err(ErrConflict)
  }

  /** The request hash: SHA-256 of the request without its key, represented by what it hashes. */
  function RequestHash(input: CreateInput): CreateInput {
    input.(idempotencyKey := "")
  }

  function ObjectKey(scope: Scope, input: CreateInput, id: string): string {
    scope.environment + "/" + scope.tenant + "/" + ToLower(input.ownerType) + "/" + input.ownerId + "/" + id + "/original"
  }

  /** The row the INSERT proposes. */
  function Register(r: Request, id: string, now: nat): Registration {
    Registration(
      id, r.scope.tenant, r.scope.environment, NullIfEmpty(r.input.partyId), r.input.ownerType, r.input.ownerId,
      r.scope.application, NullIfEmpty(r.input.sourceReference), NullIfEmpty(r.input.consentReference),
      r.input.documentType, r.input.purpose, r.input.classification, r.input.filename, r.input.contentType,
      r.input.size, r.input.sha256, ObjectKey(r.scope, r.input, id), r.input.retentionCategory, r.input.retainUntil,
      r.scope.subject, now, r.input.idempotencyKey, RequestHash(r.input))
  }

  /** The row getIdempotent selects. */
  predicate HoldsIdempotencyKey(db: Db, r: Request, id: string) {
    && id in db.rows
    && IdempotencyKeyOf(db.rows[id].reg) == IdempotencyKey(r.scope.tenant, r.scope.environment, r.scope.application, r.input.idempotencyKey)
  }

  ghost function GetIdempotent(db: Db, r: Request): Result<Row> {
    if exists id :: HoldsIdempotencyKey(db, r, id) then
      var id :| HoldsIdempotencyKey(db, r, id);
      if db.rows[id].reg.requestHash == RequestHash(r.input) then Ok(db.rows[id]) else Err(ErrConflict)
    else Err(ErrNotFound)
  }

  function Event(r: Scope, id: string, action: Action): AuditEvent {
    AuditEvent(id, action, r.subject, r.application, r.correlation)
  }

  /** Complete between its get and its UPDATE: the row it goes on with, and the partition it will update in. */
  function PlanCompletion(db: Db, scope: Scope, id: string): Result<(Row, Partition)> {
    var row :- Get(db, scope, id);
    if row.status != PendingUpload then Err(ErrConflict)
    else
      var resolved := if scope.tenant == "" then scope.(tenant := row.reg.tenant, environment := row.reg.environment) else scope;
      if (resolved.tenant == "" && !(row.reg.purpose == BANK_ACCOUNT_VERIFICATION && ValidBankAccountScope(resolved))) || resolved.environment == "" then
        Err(ErrNotFound)
      else Ok((row, Partition(resolved.tenant, resolved.environment)))
  }

  /** Store.Verify: the object is there, has the declared length and carries the declared digest as metadata. */
  predicate Verified(db: Db, reg: Registration) {
    && reg.objectKey in db.objects
    && |db.objects[reg.objectKey].bytes| == reg.size
    && db.objects[reg.objectKey].sha256 == reg.sha256
  }

  /** Every accepted request proposes a row that meets the CHECK constraints, except perhaps the one on environment. */
  lemma AcceptedMeetsChecks(scope: Scope, input: CreateInput, id: string, now: nat)
    requires Prepare(scope, input).Ok?
    ensures var r := Prepare(scope, input).value;
      CheckConstraints(Register(r, id, now)) <==> r.scope.environment in ENVIRONMENTS
  {}

  /** The creator's own scope passes Complete's checks on the row it created. */
  predicate CreatorMayComplete(scope: Scope, input: CreateInput) {
    && (scope.tenant != "" ==> scope.environment != "")
    && (input.purpose == MANUAL_BANK_PAYMENT || input.purpose == MANUAL_BANK_STATEMENT ==> scope.tenant != "")
    && (input.purpose == BANK_ACCOUNT_VERIFICATION ==>
          && TrimSpace(input.ownerId) == input.ownerId
          && (scope.tenant == "" ==> !HasPrefix(input.sourceReference, "ten_")))
  }

  /** A bank-account grant names its owner type in capitals, so normalising the request leaves it alone. */
  lemma BankOwnerKept(scope: Scope, input: CreateInput)
    requires GrantCovers(scope, input) && input.purpose == BANK_ACCOUNT_VERIFICATION
    ensures Normalise(input).ownerType == scope.bankAccountOwnerType
    ensures Normalise(input).ownerId == TrimSpace(scope.bankAccountOwnerId)
  {
    UpperOfTrim(input.ownerType, scope.bankAccountOwnerType);
  }

  /** Create, then Complete under the creating scope: the checks pass exactly for CreatorMayComplete, and then the UPDATE
      finds the row; db is any database in which the row is still as it was inserted. */
  lemma CreateThenComplete(scope: Scope, input: CreateInput, id: string, now: nat, db: Db)
    requires Prepare(scope, input).Ok?
    requires id in db.rows && db.rows[id].reg == Register(Prepare(scope, input).value, id, now) && db.rows[id].status == PendingUpload
    ensures PlanCompletion(db, scope, id).Ok? <==> CreatorMayComplete(scope, input)
    ensures PlanCompletion(db, scope, id).Ok? ==>
      && PlanCompletion(db, scope, id).value.0 == db.rows[id]
      && Quarantinable(db, id, PlanCompletion(db, scope, id).value.1)
  {
    var r := Prepare(scope, input).value;
    assert r.input == Normalise(input) && r.scope == ResolveScope(scope, r.input);
    assert |BANK_ACCOUNT_VERIFICATION| == 25 && |MANUAL_BANK_PAYMENT| == 19 && |MANUAL_BANK_STATEMENT| == 21;
    if input.purpose == BANK_ACCOUNT_VERIFICATION { BankOwnerKept(scope, input); }
  }

  /** Two ids of one length never share an object key, whatever slashes the owner id contains. */
  lemma KeysDistinct(a: Request, b: Request, id: string, other: string)
    requires |id| == |other| && id != other
    ensures ObjectKey(a.scope, a.input, id) != ObjectKey(b.scope, b.input, other)
  {
    var s, t := ObjectKey(a.scope, a.input, id), ObjectKey(b.scope, b.input, other);
    var n := |id| + |"/original"|;
    assert s[|s| - n..][..|id|] == id;
    assert t[|t| - n..][..|id|] == other;
  }
}
