/** The scopes the HTTP layer mints from tokens and grants, and what each kind of scope can ever read. */
module Grants {
  import opened Text
  import opened Schema
  import opened Access
  import opened Statements
  import opened Creation
  import opened Calls
  import opened Threads

  datatype Principal = Principal(subject: string, tenant: string, environment: string, application: string, authorizedParty: string)

  /** What a route takes from the request; the bank-account route may name no tenant. */
  datatype Ask = Ask(reference: string, tenant: string, id: string, digest: string, intent: string, correlation: string)

  /** The owning service's answer: a case, payment or bank-account grant. */
  datatype Grant = Grant(
    reference: string,
    tenant: string,
    environment: string,
    partyId: string,
    ownerType: string,
    ownerId: string,
    actor: string,
    intent: string,
    documentId: string,
    sha256: string)

  datatype Route = GenericRoute | CaseRoute | ReceiptRoute | StatementRoute | BankAccountRoute

  /** server.go, value: the trimmed value, or the fallback when it is blank. */
  function Value(v: string, fallback: string): string {
    if !Blank(v) then TrimSpace(v) else fallback
  }

  /** server.go, scope: no reference is ever taken from a header or body. */
  function TokenScope(p: Principal, ask: Ask): Scope {
    Scope(p.tenant, p.environment, p.subject, Value(p.application, p.authorizedParty),
          if ask.correlation == "" then "cor_missing" else ask.correlation, "", "", "", "", "")
  }

  /** The fields every grant must echo. */
  predicate Echoes(g: Grant, ask: Ask, p: Principal, environment: string) {
    && g.reference == ask.reference && g.tenant == ask.tenant && g.environment == environment
    && g.actor == p.subject && g.intent == ask.intent && g.documentId == ask.id && g.sha256 == ask.digest
  }

  predicate PlainSegment(s: string) {
    s != "" && '/' !in s && '\\' !in s && '?' !in s && '#' !in s
  }

  /** case_access.go, authorizeCase. */
  function AuthorizeCase(p: Principal, environment: string, ask: Ask, g: Grant): Option<Scope> {
    if p.subject == "" || p.environment != environment || environment == "" || ask.tenant == "" then None
    else if !Echoes(g, ask, p, environment) || g.partyId == "" then None
    else
      var sc := TokenScope(p, ask).(tenant := g.tenant, correlation := ask.reference);
      if sc.application == "" then None else Some(sc)
  }

  /** payment_access.go, authorizeBankEvidence. */
  function AuthorizeBankEvidence(p: Principal, environment: string, ask: Ask, g: Grant, statement: bool): Option<Scope> {
    if p.subject == "" || p.tenant != "" || p.application != "" || p.environment != environment
       || (environment != "sandbox" && environment != "production") || ask.tenant == "" || !PlainSegment(ask.reference) then None
    else if !Echoes(g, ask, p, environment) || g.partyId == "" then None
    else
      var sc := TokenScope(p, ask).(tenant := g.tenant, correlation := g.reference, paymentReference := g.reference);
      var sc' := if statement then sc.(paymentReference := "", statementReference := g.reference) else sc;
      if sc'.application == "" then None else Some(sc')
  }

  /** bank_account_access.go, authorizeBankAccount. */
  function AuthorizeBankAccount(p: Principal, environment: string, ask: Ask, g: Grant): Option<Scope> {
    if p.subject == "" || p.tenant != "" || p.application != "" || p.authorizedParty == "" || p.environment != environment
       || (environment != "sandbox" && environment != "production") || |ask.reference| > 128 || !PlainSegment(ask.reference) then None
    else if TrimSpace(ask.tenant) != ask.tenant || |ask.tenant| > 128 then None
    else if !Echoes(g, ask, p, environment) || g.ownerId == "" || |g.ownerId| > 128 || TrimSpace(g.ownerId) != g.ownerId then None
    else if !((ask.tenant == "" && g.ownerType == "legal_entity") || (ask.tenant != "" && g.ownerType == "party")) then None
    else
      Some(TokenScope(p, ask).(
        tenant := g.tenant, correlation := g.reference, bankAccountReference := g.reference,
        bankAccountOwnerType := ToUpper(g.ownerType), bankAccountOwnerId := g.ownerId))
  }

  function Mint(route: Route, p: Principal, environment: string, ask: Ask, g: Grant): Option<Scope> {
    match route
    case GenericRoute => Some(TokenScope(p, ask))
    case CaseRoute => AuthorizeCase(p, environment, ask, g)
    case ReceiptRoute => AuthorizeBankEvidence(p, environment, ask, g, false)
    case StatementRoute => AuthorizeBankEvidence(p, environment, ask, g, true)
    case BankAccountRoute => AuthorizeBankAccount(p, environment, ask, g)
  }

  /** The one restricted purpose a route is for. */
  function PurposeOf(route: Route): Option<string> {
    match route
    case ReceiptRoute => Some(MANUAL_BANK_PAYMENT)
    case StatementRoute => Some(MANUAL_BANK_STATEMENT)
    case BankAccountRoute => Some(BANK_ACCOUNT_VERIFICATION)
    case _ => None
  }

  lemma OwnerTypesInCapitals()
    ensures ToUpper("party") == "PARTY" && ToUpper("legal_entity") == "LEGAL_ENTITY"
  {}

  /** The path segment cannot reach another resource of the owning service. */
  predicate Segment(s: string) {
    s != "" && forall i | 0 <= i < |s| :: s[i] !in "/\\?#"
  }

  lemma SegmentExactly(s: string)
    ensures PlainSegment(s) <==> Segment(s)
  {
    assert forall c | c in "/\\?#" :: c == '/' || c == '\\' || c == '?' || c == '#';
    assert "/\\?#" == ['/', '\\', '?', '#'];
  }

  /** Which application a token names: its own, trimmed, or the client its session belongs to. */
  function ApplicationOf(p: Principal): string {
    if Spaces(p.application) then p.authorizedParty else TrimSpace(p.application)
  }

  /** The scope of a token alone: its tenant and environment, and no reference to any record. */
  lemma TokenExactly(p: Principal, ask: Ask)
    ensures TokenScope(p, ask) ==
      Scope(p.tenant, p.environment, p.subject, ApplicationOf(p), if ask.correlation == "" then "cor_missing" else ask.correlation,
            "", "", "", "", "")
  {
    BlankExactly(p.application);
  }

  /** The case route, exactly: who gets a scope, for which grants, and the scope's every field. A grant is made out to the
      caller, for the asked record, tenant, document, digest and intent. */
  lemma CaseMintExactly(p: Principal, environment: string, ask: Ask, g: Grant)
    ensures AuthorizeCase(p, environment, ask, g) ==
      if p.subject != "" && environment != "" && p.environment == environment && ask.tenant != "" && ApplicationOf(p) != ""
         && g.partyId != ""
         && g == Grant(ask.reference, ask.tenant, environment, g.partyId, g.ownerType, g.ownerId, p.subject, ask.intent, ask.id, ask.digest)
      then Some(Scope(ask.tenant, environment, p.subject, ApplicationOf(p), ask.reference, "", "", "", "", ""))
      else None
  {
    BlankExactly(p.application);
  }

  /** The payment routes, exactly: staff alone, whose token names no tenant and no application. */
  lemma PaymentMintExactly(p: Principal, environment: string, ask: Ask, g: Grant, statement: bool)
    ensures AuthorizeBankEvidence(p, environment, ask, g, statement) ==
      if p.subject != "" && p.tenant == "" && p.application == "" && p.authorizedParty != ""
         && (environment == "sandbox" || environment == "production") && p.environment == environment
         && ask.tenant != "" && Segment(ask.reference) && g.partyId != ""
         && g == Grant(ask.reference, ask.tenant, environment, g.partyId, g.ownerType, g.ownerId, p.subject, ask.intent, ask.id, ask.digest)
      then
        var (payment, stated) := if statement then ("", ask.reference) else (ask.reference, "");
        Some(Scope(ask.tenant, environment, p.subject, p.authorizedParty, ask.reference, payment, stated, "", "", ""))
      else None
  {
    SegmentExactly(ask.reference);
  }

  /** The bank-account route, exactly: the lender's account names no tenant and belongs to a legal entity, a tenant's to a party. */
  lemma AccountMintExactly(p: Principal, environment: string, ask: Ask, g: Grant)
    ensures AuthorizeBankAccount(p, environment, ask, g) ==
      if p.subject != "" && p.tenant == "" && p.application == "" && p.authorizedParty != ""
         && (environment == "sandbox" || environment == "production") && p.environment == environment
         && Segment(ask.reference) && |ask.reference| <= 128 && Tight(ask.tenant) && g.ownerId != "" && Tight(g.ownerId)
         && g == Grant(ask.reference, ask.tenant, environment, g.partyId, g.ownerType, g.ownerId, p.subject, ask.intent, ask.id, ask.digest)
         && g.ownerType == (if ask.tenant == "" then "legal_entity" else "party")
      then
        Some(Scope(ask.tenant, environment, p.subject, p.authorizedParty, ask.reference, "", "", ask.reference,
                   if ask.tenant == "" then "LEGAL_ENTITY" else "PARTY", g.ownerId))
      else None
  {
    SegmentExactly(ask.reference);
    TrimmedExactly(ask.tenant);
    TrimmedExactly(g.ownerId);
    OwnerTypesInCapitals();
  }

  /** At most 128 characters, with no space at either end. */
  predicate Tight(s: string) {
    |s| <= 128 && (s == "" || (!IsSpace(s[0]) && !IsSpace(s[|s| - 1])))
  }

  /** A minted scope carries a reference only of its route's purpose, and then the granted one. */
  lemma MintedReferences(route: Route, p: Principal, environment: string, ask: Ask, g: Grant, purpose: string)
    requires Mint(route, p, environment, ask, g).Some?
    ensures var carried := ReferenceFor(Mint(route, p, environment, ask, g).value, purpose);
      carried.Some? ==> PurposeOf(route) == Some(purpose) && carried == Some(ask.reference)
  {}

  /** A bank-account grant makes a valid bank-account scope exactly when the account reference is not blank. */
  lemma BankAccountScopeValid(p: Principal, environment: string, ask: Ask, g: Grant)
    requires AuthorizeBankAccount(p, environment, ask, g).Some?
    ensures ValidBankAccountScope(AuthorizeBankAccount(p, environment, ask, g).value) <==> !Blank(ask.reference)
  {}

  /** Receipt, statement, bank-account and other scopes stay disjoint: a restricted document is read through a route only if
      it has that route's purpose and the granted reference; generic and case routes read none. */
  lemma RoutesDisjoint(db: Db, route: Route, p: Principal, environment: string, ask: Ask, g: Grant, gate: Gate,
                       application: string, party: string, id: string)
    requires Keyed(db) && id in db.rows && Restricted(db.rows[id].reg.purpose)
    requires Mint(route, p, environment, ask, g).Some?
    requires Reads(db, gate, Mint(route, p, environment, ask, g).value, application, party, id)
    ensures PurposeOf(route) == Some(db.rows[id].reg.purpose) && db.rows[id].reg.sourceReference == Some(ask.reference)
  {
    var sc := Mint(route, p, environment, ask, g).value;
    Confinement(db, gate, sc, application, party, id);
    MintedReferences(route, p, environment, ask, g, db.rows[id].reg.purpose);
  }

  /** An accepted Create of a restricted document came under a scope carrying the document's reference. */
  lemma CreatorCarries(scope: Scope, input: CreateInput, id: string, now: nat)
    requires Prepare(scope, input).Ok? && Restricted(input.purpose)
    ensures var reg := Register(Prepare(scope, input).value, id, now);
      reg.purpose == input.purpose && reg.sourceReference.Some? && ReferenceFor(scope, reg.purpose) == reg.sourceReference
  {}

  /** Provenance: the Create call that inserted a restricted document had a scope carrying its reference. */
  lemma CreatedUnderGrant(digest: Digest, acts: seq<Act>, id: string) returns (creator: nat)
    requires id in Reachable(digest, acts).db.rows && Restricted(Reachable(digest, acts).db.rows[id].reg.purpose)
    ensures var w := Reachable(digest, acts);
      var reg := w.db.rows[id].reg;
      && creator in w.threads && w.threads[creator].call.Create?
      && reg.sourceReference.Some? && ReferenceFor(w.threads[creator].call.scope, reg.purpose) == reg.sourceReference
  {
    var r;
    creator, r := AuthorOf(digest, acts, id);
    var w := Reachable(digest, acts);
    CreatorCarries(w.threads[creator].call.scope, w.threads[creator].call.input, id, w.db.rows[id].reg.createdAt);
  }

  lemma AuthorOf(digest: Digest, acts: seq<Act>, id: string) returns (author: nat, r: Request)
    requires id in Reachable(digest, acts).db.rows
    ensures AuthoredBy(Reachable(digest, acts), id, author, r)
  {
    ReachableOk(digest, acts);
    author, r :| AuthoredBy(Reachable(digest, acts), id, author, r);
  }

  /** Provenance and confinement in every reachable state: a restricted document was created under a grant for its own
      reference, and whoever reads it holds a grant for that same reference, of that same kind. */
  lemma ReaderMatchesCreator(digest: Digest, acts: seq<Act>, id: string, reader: Scope, gate: Gate, application: string, party: string)
      returns (creator: nat)
    requires var db := Reachable(digest, acts).db;
      id in db.rows && Restricted(db.rows[id].reg.purpose) && Reads(db, gate, reader, application, party, id)
    ensures var w := Reachable(digest, acts);
      var reg := w.db.rows[id].reg;
      && creator in w.threads && w.threads[creator].call.Create?
      && reg.sourceReference.Some?
      && ReferenceFor(w.threads[creator].call.scope, reg.purpose) == reg.sourceReference
      && ReferenceFor(reader, reg.purpose) == reg.sourceReference
  {
    creator := CreatedUnderGrant(digest, acts, id);
    ReachableDbInv(digest, acts, []);
    Confinement(Reachable(digest, acts).db, gate, reader, application, party, id);
  }
}
