/** The tables, the request records and the constraints the migrations put on them. */
module Schema {

  datatype Option<+T> = None | Some(value: T)

  datatype Status = PendingUpload | Uploaded | Quarantined | Available | Rejected | Expired

  datatype ScanStatus = Pending | Scanning | Clean | Infected | Failed | NotRequired

  /** The outcome string a scan result carries; Unrecognised is any other text. */
  datatype Outcome = CleanOutcome | InfectedOutcome | FailedOutcome | Unrecognised(text: string)

  datatype Scope = Scope(
    tenant: string,
    environment: string,
    subject: string,
    application: string,
    correlation: string,
    paymentReference: string,
    statementReference: string,
    bankAccountReference: string,
    bankAccountOwnerType: string,
    bankAccountOwnerId: string)

  datatype CreateInput = CreateInput(
    partyId: string,
    ownerType: string,
    ownerId: string,
    sourceReference: string,
    consentReference: string,
    documentType: string,
    purpose: string,
    classification: string,
    filename: string,
    contentType: string,
    sha256: string,
    retentionCategory: string,
    idempotencyKey: string,
    size: int,
    retainUntil: Option<nat>)

  /** The columns an INSERT fills and no later statement assigns. */
  datatype Registration = Registration(
    id: string,
    tenant: string,
    environment: string,
    party: Option<string>,
    ownerType: string,
    ownerId: string,
    application: string,
    sourceReference: Option<string>,
    consentReference: Option<string>,
    documentType: string,
    purpose: string,
    classification: string,
    filename: string,
    contentType: string,
    size: int,
    sha256: string,
    objectKey: string,
    retentionCategory: string,
    retainUntil: Option<nat>,
    createdBy: string,
    createdAt: nat,
    idempotencyKey: string,
    requestHash: CreateInput)

  /** A row of documents: its registration and the columns the lifecycle updates. */
  datatype Row = Row(
    reg: Registration,
    status: Status,
    scan: ScanStatus,
    attempts: int,
    lease: Option<nat>,
    uploadedAt: Option<nat>,
    expiresAt: nat,
    updatedAt: nat)

  datatype Action =
    | UploadAuthorized
    | UploadVerifiedQuarantined
    | MalwareScan(outcome: Outcome)
    | DownloadAuthorized
    | EvidenceVersionChecked
    | CaseDownloadAuthorized
    | BankAccountEvidenceChecked
    | BankAccountDownloadAuthorized

  datatype AuditEvent = AuditEvent(document: string, action: Action, subject: string, application: string, correlation: string)

  type byte = b: int | 0 <= b < 256

  /** An object in the bucket: its bytes (ContentLength is their number) and the sha256 metadata of the PUT. */
  datatype StoredObject = StoredObject(bytes: seq<byte>, sha256: string)

  datatype Db = Db(rows: map<string, Row>, audit: seq<AuditEvent>, objects: map<string, StoredObject>, now: nat)

  const EMPTY_DB := Db(map[], [], map[], 0)

  datatype Failure = ErrNotFound | ErrConflict | ErrEvidenceScope | ErrInvalidCursor | ErrInternal

  datatype Result<+T> = Ok(value: T) | Err(error: Failure) {
    predicate IsFailure() { Err? }
    function PropagateFailure<U>(): Result<U>
      requires Err?
    {
      Err(error)
    }
    function Extract(): T
      requires Ok?
    {
      value
    }
  }

  const BANK_ACCOUNT_VERIFICATION := "bank_account_verification"
  const MANUAL_BANK_PAYMENT := "manual_bank_payment"
  const MANUAL_BANK_STATEMENT := "manual_bank_statement"

  const OWNER_TYPES := {"PARTY", "LEGAL_ENTITY", "ORGANISATIONAL_UNIT", "CASE", "PRODUCT_RESOURCE", "REGULATORY_RECORD"}
  const CLASSIFICATIONS := {"INTERNAL", "CONFIDENTIAL", "RESTRICTED"}
  const CONTENT_TYPES := {"application/pdf", "image/jpeg", "image/png", "text/csv"}
  const ENVIRONMENTS := {"local", "dev", "sandbox", "staging", "production"}

  const MAX_SIZE := 52428800
  const MAX_ATTEMPTS := 5
  /** interval '3 minutes', in seconds. */
  const LEASE := 180

  /** The pattern ^[0-9a-f]{64}$. */
  predicate IsSha256(s: string) {
    |s| == 64 && forall c | c in s :: '0' <= c <= '9' || 'a' <= c <= 'f'
  }

  function NullIfEmpty(s: string): Option<string> {
    if s == "" then None else Some(s)
  }

  /** The CHECK constraints a row must meet to be inserted. */
  predicate CheckConstraints(reg: Registration) {
    && reg.environment in ENVIRONMENTS
    && reg.classification in CLASSIFICATIONS
    && 0 < reg.size <= MAX_SIZE
    && IsSha256(reg.sha256)
    && reg.ownerType in OWNER_TYPES
    && (if reg.ownerType == "PARTY" then reg.party == Some(reg.ownerId) else reg.party.None?)
  }

  /** The key of documents_source_document_hash_key; a NULL source_reference never collides. */
  datatype SourceKey = SourceKey(tenant: string, environment: string, application: string, reference: string, documentType: string, sha256: string)

  function SourceKeyOf(reg: Registration): Option<SourceKey> {
    match reg.sourceReference
    case None => None
    case Some(reference) => Some(SourceKey(reg.tenant, reg.environment, reg.application, reference, reg.documentType, reg.sha256))
  }

  /** The key of documents_idempotency_idx. */
  datatype IdempotencyKey = IdempotencyKey(tenant: string, environment: string, application: string, key: string)

  function IdempotencyKeyOf(reg: Registration): IdempotencyKey {
    IdempotencyKey(reg.tenant, reg.environment, reg.application, reg.idempotencyKey)
  }

  predicate Terminal(status: Status) {
    status == Available || status == Rejected
  }

  function StatusAfter(outcome: Outcome): Status {
    match outcome
    case CleanOutcome => Available
    case InfectedOutcome => Rejected
    case _ => Quarantined
  }

  function ScanAfter(outcome: Outcome): ScanStatus {
    match outcome
    case CleanOutcome => Clean
    case InfectedOutcome => Infected
    case _ => Failed
  }
}
