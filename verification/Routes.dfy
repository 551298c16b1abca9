/** The document routes of the owning services: each authorizes a grant into a scope and then composes the service's methods. */
module Routes {
  import opened Text
  import opened Schema
  import opened Access
  import opened Statements
  import opened Creation
  import opened Calls
  import opened Threads
  import opened Gates
  import opened Requests
  import opened Grants
  import opened Paging
  import opened CaseList
  import opened Service

  /** What an upload-session request may choose; the rest of the CreateInput comes from the grant. */
  datatype Upload = Upload(
    documentType: string, consentReference: string, filename: string, contentType: string, size: int, sha256: string, idempotencyKey: string)

  /** The routes that upload under a grant. */
  predicate Granted(route: Route) {
    !route.GenericRoute?
  }

  /** The request each route's upload-session handler builds. */
  function RouteInput(route: Route, sc: Scope, g: Grant, u: Upload): CreateInput {
    match route
    case BankAccountRoute =>
      CreateInput(if g.ownerType == "party" then g.ownerId else "", sc.bankAccountOwnerType, g.ownerId, g.reference, "",
                  "bank_account_evidence", BANK_ACCOUNT_VERIFICATION, "RESTRICTED", u.filename, u.contentType, u.sha256,
                  "financial_transaction", u.idempotencyKey, u.size, None)
    case ReceiptRoute =>
      CreateInput(g.partyId, "PARTY", g.partyId, g.reference, "", "bank_payment_evidence", MANUAL_BANK_PAYMENT, "RESTRICTED",
                  u.filename, u.contentType, u.sha256, "financial_transaction", u.idempotencyKey, u.size, None)
    case StatementRoute =>
      CreateInput(g.partyId, "PARTY", g.partyId, g.reference, "", "bank_statement_evidence", MANUAL_BANK_STATEMENT, "RESTRICTED",
                  u.filename, u.contentType, u.sha256, "financial_transaction", u.idempotencyKey, u.size, None)
    case _ =>
      CreateInput(g.partyId, "PARTY", g.partyId, g.reference, u.consentReference, u.documentType, "credit_assessment", "RESTRICTED",
                  u.filename, u.contentType, u.sha256, "credit_application", u.idempotencyKey, u.size, None)
  }

  /** The row a route reads before it shows or fills a document. */
  function RouteRead(db: Db, route: Route, sc: Scope, g: Grant, id: string): Result<Row> {
    if route.BankAccountRoute? then BankAccountDocument(db, sc, id)
    else
      match CaseUpload(db, sc, g.reference, g.partyId, id)
      case Err(e) => Err(e)
      case Ok(row) => if PurposeOf(route).Some? && PurposeOf(route) != Some(row.reg.purpose) then Err(ErrNotFound) else Ok(row)
  }

  /** The document belongs to the record the grant is for: its tenant, environment, reference, owner and kind. */
  predicate Belongs(reg: Registration, route: Route, environment: string, g: Grant) {
    && reg.tenant == g.tenant && reg.environment == environment && reg.sourceReference == Some(g.reference)
    && (if route.BankAccountRoute? then
          reg.ownerType == ToUpper(g.ownerType) && reg.ownerId == g.ownerId
        else
          reg.ownerType == "PARTY" && reg.ownerId == g.partyId && reg.party == Some(g.partyId))
    && (if PurposeOf(route).Some? then PurposeOf(route) == Some(reg.purpose) else !Restricted(reg.purpose))
  }

  /** The reference names a record at all. */
  predicate Named(route: Route, ask: Ask) {
    if route.BankAccountRoute? then !Blank(ask.reference) else ask.reference != ""
  }

  lemma PurposesDiffer()
    ensures BANK_ACCOUNT_VERIFICATION != MANUAL_BANK_PAYMENT && BANK_ACCOUNT_VERIFICATION != MANUAL_BANK_STATEMENT
    ensures MANUAL_BANK_PAYMENT != MANUAL_BANK_STATEMENT
  {}

  /** A route shows a document exactly when it belongs to the granted record. */
  lemma RouteReadsExactly(db: Db, route: Route, p: Principal, environment: string, ask: Ask, g: Grant, id: string)
    requires Granted(route) && Keyed(db) && Mint(route, p, environment, ask, g).Some?
    ensures RouteRead(db, route, Mint(route, p, environment, ask, g).value, g, id).Ok?
       <==> id in db.rows && Belongs(db.rows[id].reg, route, environment, g) && Named(route, ask)
  {
    PurposesDiffer();
    assert Blank("");
    if route.BankAccountRoute? { BankAccountScopeValid(p, environment, ask, g); }
  }

  /** A lender grant on an account whose reference reads like a tenant: Create then takes the reference for the tenant. */
  predicate Misread(route: Route, ask: Ask) {
    route.BankAccountRoute? && ask.tenant == "" && HasPrefix(ask.reference, "ten_")
  }

  /** The grant's names survive Create's rewriting. */
  predicate Faithful(route: Route, ask: Ask, g: Grant) {
    !Misread(route, ask) && (route.BankAccountRoute? || TrimSpace(g.partyId) == g.partyId)
  }

  /** What Create registers under a bank account's scope: the tenant may be read off the account's reference. */
  lemma BankRegistered(sc: Scope, input: CreateInput, id: string, now: nat)
    requires Prepare(sc, input).Ok? && input.purpose == BANK_ACCOUNT_VERIFICATION && input.sourceReference != ""
    requires TrimSpace(input.ownerId) == input.ownerId
    ensures var reg := Register(Prepare(sc, input).value, id, now);
      && reg.tenant == (if sc.tenant == "" && HasPrefix(input.sourceReference, "ten_") then input.sourceReference else sc.tenant)
      && reg.environment == sc.environment && reg.sourceReference == Some(input.sourceReference)
      && reg.ownerType == sc.bankAccountOwnerType && reg.ownerId == input.ownerId && reg.purpose == input.purpose
  {
    BankOwnerKept(sc, input);
    assert Prepare(sc, input).value.input == Normalise(input);
  }

  lemma BankScope(p: Principal, environment: string, ask: Ask, g: Grant)
    requires AuthorizeBankAccount(p, environment, ask, g).Some?
    ensures var sc := AuthorizeBankAccount(p, environment, ask, g).value;
      && sc.tenant == g.tenant == ask.tenant && sc.environment == environment && sc.bankAccountOwnerType == ToUpper(g.ownerType)
      && g.reference == ask.reference && ask.reference != "" && TrimSpace(g.ownerId) == g.ownerId
  {}

  lemma BankSession(p: Principal, environment: string, ask: Ask, g: Grant, u: Upload, id: string, now: nat)
    requires Mint(BankAccountRoute, p, environment, ask, g).Some?
    requires var sc := Mint(BankAccountRoute, p, environment, ask, g).value; Prepare(sc, RouteInput(BankAccountRoute, sc, g, u)).Ok?
    ensures var sc := Mint(BankAccountRoute, p, environment, ask, g).value;
      var reg := Register(Prepare(sc, RouteInput(BankAccountRoute, sc, g, u)).value, id, now);
      (Belongs(reg, BankAccountRoute, environment, g) <==> !Misread(BankAccountRoute, ask))
  {
    BankScope(p, environment, ask, g);
    var sc := Mint(BankAccountRoute, p, environment, ask, g).value;
    BankRegistered(sc, RouteInput(BankAccountRoute, sc, g, u), id, now);
  }

  /** A party's request keeps its owner, but for space around the id. */
  lemma PartyNormalised(input: CreateInput)
    requires input.ownerType == "PARTY"
    ensures var in' := Normalise(input);
      && in'.ownerType == "PARTY" && in'.ownerId == TrimSpace(input.ownerId) && in'.partyId == in'.ownerId
      && in'.purpose == input.purpose && in'.sourceReference == input.sourceReference
  {}

  lemma PartyScope(route: Route, p: Principal, environment: string, ask: Ask, g: Grant)
    requires route.CaseRoute? || route.ReceiptRoute? || route.StatementRoute?
    requires Mint(route, p, environment, ask, g).Some?
    ensures var sc := Mint(route, p, environment, ask, g).value;
      sc.tenant == g.tenant && sc.tenant != "" && sc.environment == environment && sc.environment != "" && g.reference == ask.reference
  {}

  lemma PartySession(route: Route, p: Principal, environment: string, ask: Ask, g: Grant, u: Upload, id: string, now: nat)
    requires route.CaseRoute? || route.ReceiptRoute? || route.StatementRoute?
    requires Mint(route, p, environment, ask, g).Some? && ask.reference != ""
    requires var sc := Mint(route, p, environment, ask, g).value; Prepare(sc, RouteInput(route, sc, g, u)).Ok?
    ensures var sc := Mint(route, p, environment, ask, g).value;
      var reg := Register(Prepare(sc, RouteInput(route, sc, g, u)).value, id, now);
      (Belongs(reg, route, environment, g) <==> TrimSpace(g.partyId) == g.partyId)
  {
    PurposesDiffer();
    assert |"credit_assessment"| == 17 && |BANK_ACCOUNT_VERIFICATION| == 25 && |MANUAL_BANK_PAYMENT| == 19 && |MANUAL_BANK_STATEMENT| == 21;
    PartyScope(route, p, environment, ask, g);
    var sc := Mint(route, p, environment, ask, g).value;
    var input := RouteInput(route, sc, g, u);
    PartyNormalised(input);
    PartyRegistered(sc, input, id, now);
  }

  lemma PartyRegistered(sc: Scope, input: CreateInput, id: string, now: nat)
    requires Prepare(sc, input).Ok? && sc.tenant != "" && sc.environment != "" && input.ownerType == "PARTY" && input.sourceReference != ""
    ensures var reg := Register(Prepare(sc, input).value, id, now);
      && reg.tenant == sc.tenant && reg.environment == sc.environment && reg.sourceReference == Some(input.sourceReference)
      && reg.ownerType == "PARTY" && reg.ownerId == TrimSpace(input.ownerId) && reg.party == Some(reg.ownerId) && reg.purpose == input.purpose
  {}

  /** The session a route opens is for a document of the granted record, which the route then shows, exactly when the party id
      is not padded with space and a lender's account is not misread as a tenant. */
  lemma SessionBelongs(route: Route, p: Principal, environment: string, ask: Ask, g: Grant, u: Upload, id: string, now: nat)
    requires Granted(route) && Mint(route, p, environment, ask, g).Some? && ask.reference != ""
    requires var sc := Mint(route, p, environment, ask, g).value; Prepare(sc, RouteInput(route, sc, g, u)).Ok?
    ensures var sc := Mint(route, p, environment, ask, g).value;
      var reg := Register(Prepare(sc, RouteInput(route, sc, g, u)).value, id, now);
      (Belongs(reg, route, environment, g) <==> Faithful(route, ask, g))
  {
    if route.BankAccountRoute? { BankSession(p, environment, ask, g, u, id, now); } else { PartySession(route, p, environment, ask, g, u, id, now); }
  }

  /** What a route fixes about the documents it opens sessions for, and what it takes from the uploader. */
  lemma SessionColumns(route: Route, p: Principal, environment: string, ask: Ask, g: Grant, u: Upload, id: string, now: nat)
    requires Granted(route) && Mint(route, p, environment, ask, g).Some?
    requires var sc := Mint(route, p, environment, ask, g).value; Prepare(sc, RouteInput(route, sc, g, u)).Ok?
    ensures var sc := Mint(route, p, environment, ask, g).value;
      var reg := Register(Prepare(sc, RouteInput(route, sc, g, u)).value, id, now);
      && reg.classification == "RESTRICTED" && reg.createdBy == p.subject && reg.retainUntil == None
      && reg.contentType == u.contentType && reg.size == u.size && reg.sha256 == ToLower(TrimSpace(u.sha256))
      && (match route
          case CaseRoute =>
            reg.purpose == "credit_assessment" && reg.documentType == u.documentType && reg.retentionCategory == "credit_application"
          case ReceiptRoute =>
            reg.purpose == "manual_bank_payment" && reg.documentType == "bank_payment_evidence" && reg.retentionCategory == "financial_transaction"
          case StatementRoute =>
            reg.purpose == "manual_bank_statement" && reg.documentType == "bank_statement_evidence" && reg.retentionCategory == "financial_transaction"
          case _ =>
            reg.purpose == "bank_account_verification" && reg.documentType == "bank_account_evidence" && reg.retentionCategory == "financial_transaction")
  {
    var sc := Mint(route, p, environment, ask, g).value;
    CreatedColumns(sc, RouteInput(route, sc, g, u), id, now);
  }

  /** The scope of a route's grant covers the request its handler builds, unless a bank account's reference is blank; and it
      gets the document completed unless the account is misread. */
  lemma SessionCovered(route: Route, p: Principal, environment: string, ask: Ask, g: Grant, u: Upload)
    requires Granted(route) && Mint(route, p, environment, ask, g).Some?
    ensures var sc := Mint(route, p, environment, ask, g).value;
      var input := RouteInput(route, sc, g, u);
      && (GrantCovers(sc, input) <==> (route.BankAccountRoute? ==> !Blank(ask.reference)))
      && (CreatorMayComplete(sc, input) <==> !Misread(route, ask))
  {
    PurposesDiffer();
    OwnerTypesInCapitals();
    assert |"credit_assessment"| == 17 && |BANK_ACCOUNT_VERIFICATION| == 25 && |MANUAL_BANK_PAYMENT| == 19 && |MANUAL_BANK_STATEMENT| == 21;
    if route.BankAccountRoute? {
      BankAccountScopeValid(p, environment, ask, g);
      var owner := Mint(route, p, environment, ask, g).value.bankAccountOwnerType;
      assert ToUpper("PARTY") == "PARTY" && ToUpper("LEGAL_ENTITY") == "LEGAL_ENTITY";
    }
  }

  /** bank_account_access.go:39-64, as a relation: one digest at most, and either one tenant or the lender's own scope. */
  predicate AccountQuery(query: map<string, seq<string>>, tenant: string, digest: string) {
    && (if "sha256" in query then query["sha256"] == [digest] else digest == "")
    && (if tenant != "" then
          && query.Keys - {"sha256"} == {"tenant_id"} && query["tenant_id"] == [tenant]
          && TrimSpace(tenant) == tenant && |tenant| <= 128
        else query.Keys - {"sha256"} == {"owner_scope"} && query["owner_scope"] == ["lender"])
  }

  /** A bank-account request's query names its digest and its tenant, or the lender, and nothing else. */
  method ParseAccountQuery(query: map<string, seq<string>>) returns (parsed: Option<(string, string)>)
    ensures forall tenant, digest :: parsed == Some((tenant, digest)) <==> AccountQuery(query, tenant, digest)
  {
    var q := query;
    var digest, tenant := "", "";
    if "sha256" in q {
      if |q["sha256"]| != 1 { return None; }
      digest := q["sha256"][0];
      q := q - {"sha256"};
    }
    assert q.Keys == query.Keys - {"sha256"};
    var valid := |q| == 1;
    if "tenant_id" in q {
      var values := q["tenant_id"];
      valid := valid && |values| == 1 && values[0] != "" && TrimSpace(values[0]) == values[0] && |values[0]| <= 128;
      if valid { tenant := values[0]; }
    } else {
      valid := valid && "owner_scope" in q && |q["owner_scope"]| == 1 && q["owner_scope"][0] == "lender";
    }
    OneKey(q.Keys, "tenant_id");
    OneKey(q.Keys, "owner_scope");
    if !valid { return None; }
    return Some((tenant, digest));
  }

  lemma OneKey(keys: set<string>, key: string)
    ensures keys == {key} <==> |keys| == 1 && key in keys
  {
    if |keys| == 1 && key in keys {
      assert |keys - {key}| == 0;
    }
  }

  /** A row that answers a route's request has the registration of a fresh one, as far as belonging goes. */
  lemma AnswerBelongs(reg: Registration, r: Request, route: Route, environment: string, g: Grant)
    requires Answers(reg, r) && CheckConstraints(reg) && r.input.sourceReference != ""
    requires r.input.ownerType == "PARTY" ==> r.input.partyId == r.input.ownerId && r.input.ownerId != ""
    ensures Belongs(reg, route, environment, g) <==> Belongs(Register(r, reg.id, 0), route, environment, g)
  {}

  lemma RouteRequest(route: Route, p: Principal, environment: string, ask: Ask, g: Grant, u: Upload)
    requires Granted(route) && Mint(route, p, environment, ask, g).Some?
    ensures var sc := Mint(route, p, environment, ask, g).value;
      var made := Prepare(sc, RouteInput(route, sc, g, u)); made.Ok? ==>
        && made.value.input.sourceReference == ask.reference
        && made.value.input.ownerId != ""
        && (made.value.input.ownerType == "PARTY" ==> made.value.input.partyId == made.value.input.ownerId)
  {}

  /** There is always a number no thread has yet. */
  lemma {:induction false} FreshId(taken: set<nat>) returns (id: nat)
    ensures forall other | other in taken :: other < id
  {
    id := 0;
    if taken == {} {
    } else {
      var some :| some in taken;
      var rest := FreshId(taken - {some});
      id := if some < rest then rest else some + 1;
      assert forall other | other in taken :: other == some || other in taken - {some};
    }
  }

  class Handlers {
    const service: DocumentService
    const environment: string

    constructor (service: DocumentService, environment: string)
      requires service.Valid()
      ensures this.service == service && this.environment == environment && Valid()
    {
      this.service, this.environment := service, environment;
    }

    ghost predicate Valid()
      reads service, service.store
    {
      service.Valid()
    }

    /** case_access.go, authorizeCase, from the grant on. */
    method AuthorizeCase(p: Principal, ask: Ask, g: Grant) returns (scope: Option<Scope>)
      ensures scope == Grants.AuthorizeCase(p, environment, ask, g)
    {
      if p.subject == "" || p.environment != environment || environment == "" || ask.tenant == "" { return None; }
      if !Echoes(g, ask, p, environment) || g.partyId == "" { return None; }
      var sc := TokenScope(p, ask);
      sc := sc.(tenant := g.tenant);
      sc := sc.(correlation := ask.reference);
      if sc.application == "" { return None; }
      return Some(sc);
    }

    /** payment_access.go, authorizeBankEvidence, from the grant on. */
    method AuthorizeBankEvidence(p: Principal, ask: Ask, g: Grant, statement: bool) returns (scope: Option<Scope>)
      ensures scope == Grants.AuthorizeBankEvidence(p, environment, ask, g, statement)
    {
      if p.subject == "" || p.tenant != "" || p.application != "" || p.environment != environment
         || (environment != "sandbox" && environment != "production") || ask.tenant == "" || !PlainSegment(ask.reference) {
        return None;
      }
      if !Echoes(g, ask, p, environment) || g.partyId == "" { return None; }
      var sc := TokenScope(p, ask);
      sc := sc.(tenant := g.tenant);
      sc := sc.(correlation := g.reference);
      sc := sc.(paymentReference := g.reference);
      if statement {
        sc := sc.(paymentReference := "");
        sc := sc.(statementReference := g.reference);
      }
      if sc.application == "" { return None; }
      return Some(sc);
    }

    /** bank_account_access.go, authorizeBankAccount, from the grant on. */
    method AuthorizeBankAccount(p: Principal, ask: Ask, g: Grant) returns (scope: Option<Scope>)
      ensures scope == Grants.AuthorizeBankAccount(p, environment, ask, g)
    {
      if p.subject == "" || p.tenant != "" || p.application != "" || p.authorizedParty == "" || p.environment != environment
         || (environment != "sandbox" && environment != "production") || |ask.reference| > 128 || !PlainSegment(ask.reference) {
        return None;
      }
      if TrimSpace(ask.tenant) != ask.tenant || |ask.tenant| > 128 { return None; }
      if !Echoes(g, ask, p, environment) || g.ownerId == "" || |g.ownerId| > 128 || TrimSpace(g.ownerId) != g.ownerId { return None; }
      if !((ask.tenant == "" && g.ownerType == "legal_entity") || (ask.tenant != "" && g.ownerType == "party")) { return None; }
      var sc := TokenScope(p, ask);
      sc := sc.(tenant := g.tenant);
      sc := sc.(correlation := g.reference);
      sc := sc.(bankAccountReference := g.reference);
      sc := sc.(bankAccountOwnerType := ToUpper(g.ownerType));
      sc := sc.(bankAccountOwnerId := g.ownerId);
      return Some(sc);
    }

    method Authorize(route: Route, p: Principal, ask: Ask, g: Grant) returns (scope: Option<Scope>)
      ensures scope == Mint(route, p, environment, ask, g)
    {
      match route
      case GenericRoute => scope := Some(TokenScope(p, ask));
      case CaseRoute => scope := AuthorizeCase(p, ask, g);
      case ReceiptRoute => scope := AuthorizeBankEvidence(p, ask, g, false);
      case StatementRoute => scope := AuthorizeBankEvidence(p, ask, g, true);
      case BankAccountRoute => scope := AuthorizeBankAccount(p, ask, g);
    }

    /** The lookup of the GET and PUT handlers, with the purpose check of the payment routes. */
    method Look(route: Route, sc: Scope, g: Grant, id: string) returns (result: Result<Row>)
      ensures result == RouteRead(service.store.State(), route, sc, g, id)
    {
      if route.BankAccountRoute? {
        result := service.BankAccountDocument(sc, id);
      } else {
        result := service.CaseUpload(sc, g.reference, g.partyId, id);
        if result.Ok? && PurposeOf(route).Some? && PurposeOf(route) != Some(result.value.reg.purpose) {
          result := Err(ErrNotFound);
        }
      }
    }

    /** POST upload-sessions; None when the grant is refused. Fresh, replayed or deduplicated, the session's document belongs to
        the granted record, under the same condition as a fresh one. */
    method OpenSession(ghost tid: nat, route: Route, p: Principal, ask: Ask, g: Grant, u: Upload, newId: string, partyExists: bool)
        returns (reply: Option<Reply>)
      requires Valid() && tid !in service.store.threads && Granted(route) && ask.reference != ""
      modifies service.store
      ensures Valid() && old(service.store.trace) <= service.store.trace
      ensures
        match Mint(route, p, environment, ask, g)
        case None => reply == None
        case Some(sc) => reply.Some? && service.At(tid, Create(sc, RouteInput(route, sc, g, u)), Done(reply.value))
      ensures reply.Some? && reply.value.Session? ==>
        && reply.value.id in service.store.rows
        && (Belongs(service.store.rows[reply.value.id].reg, route, environment, g) <==> Faithful(route, ask, g))
    {
      var scope := Authorize(route, p, ask, g);
      if scope.None? { return None; }
      var input := RouteInput(route, scope.value, g, u);
      var made := service.Create(tid, scope.value, input, newId, partyExists);
      if made.Session? {
        service.KnowKeyed();
        ghost var reg := service.store.rows[made.id].reg;
        SessionBelongs(route, p, environment, ask, g, u, reg.id, 0);
        RouteRequest(route, p, environment, ask, g, u);
        AnswerBelongs(reg, Prepare(scope.value, input).value, route, environment, g);
      }
      return Some(made);
    }

    /** PUT content; the document must belong to the granted record before its bytes are taken, and then it does so for good. */
    method PutContent(ghost tid: nat, route: Route, p: Principal, ask: Ask, g: Grant, body: seq<byte>) returns (reply: Option<Reply>)
      requires Valid() && tid !in service.store.threads && Granted(route)
      modifies service.store
      ensures Valid() && old(service.store.trace) <= service.store.trace
      ensures
        match Mint(route, p, environment, ask, g)
        case None => reply == None
        case Some(sc) =>
          match old(RouteRead(service.store.State(), route, sc, g, ask.id))
          case Err(e) => reply == Some(Refusal(e))
          case Ok(_) => reply.Some? && service.At(tid, UploadContent(sc, ask.id, body), Done(reply.value))
      ensures reply.Some? && reply.value.Completed? ==>
        && reply.value.id == ask.id && Arrived(service.store.State(), ask.id)
        && Belongs(service.store.rows[ask.id].reg, route, environment, g)
        && Declared(service.digest, service.store.rows[ask.id].reg, body)
    {
      var scope := Authorize(route, p, ask, g);
      if scope.None? { return None; }
      service.KnowKeyed();
      var existing := Look(route, scope.value, g, ask.id);
      RouteReadsExactly(service.store.State(), route, p, environment, ask, g, ask.id);
      if existing.Err? { return Some(Refusal(existing.error)); }
      ghost var before, reg := service.store.trace, service.store.rows[ask.id].reg;
      var done := service.UploadContent(tid, scope.value, ask.id, body);
      service.StillKnown(before, reg);
      return Some(done);
    }

    /** The answer is the check's own refusal, or the document is for another purpose, or it is the answer of the call that opens. */
    ghost predicate PaymentAnswer(tid: nat, opener: nat, route: Route, sc: Scope, ask: Ask, g: Grant, reply: Reply)
      reads service, service.store
    {
      var checking := Evidence(sc, ask.id, PartyVersion(g.partyId, ask.digest, Some(g.reference)));
      || (reply.Refusal? && service.At(tid, checking, Done(reply)))
      || (reply == Refusal(ErrNotFound) && tid in service.store.threads && service.store.threads[tid].call == checking
          && service.store.threads[tid].pc.Done? && service.store.threads[tid].pc.reply.Checked?
          && Some(service.store.threads[tid].pc.reply.document.purpose) != PurposeOf(route))
      || service.At(opener, OpenEvidence(sc, ask.id, PartyVersion(g.partyId, ask.digest, None)), Done(reply))
    }

    /** GET content of a payment document: the resource-bound check, the purpose check, then check and open once more. */
    method GetPaymentContent(ghost tid: nat, route: Route, p: Principal, ask: Ask, g: Grant)
        returns (reply: Option<Reply>, ghost opener: nat)
      requires Valid() && tid !in service.store.threads
      requires route.ReceiptRoute? || route.StatementRoute?
      modifies service.store
      ensures Valid() && old(service.store.trace) <= service.store.trace
      ensures
        match Mint(route, p, environment, ask, g)
        case None => reply == None
        case Some(sc) => reply.Some? && PaymentAnswer(tid, opener, route, sc, ask, g, reply.value)
      ensures reply.Some? && reply.value.Streamed? ==>
        && reply.value.document.id == ask.id && Released(service.store.State(), reply.value.document)
        && reply.value.document.sha256 == ask.digest && reply.value.key == reply.value.document.objectKey
        && Belongs(reply.value.document, route, environment, g)
    {
      opener := tid;
      var scope := Authorize(route, p, ask, g);
      if scope.None? { return None, opener; }
      var sc := scope.value;
      var gate := PartyVersion(g.partyId, ask.digest, Some(g.reference));
      var evidence := service.Evidence(tid, sc, ask.id, gate);
      if evidence.Refusal? { return Some(evidence), opener; }
      if Some(evidence.document.purpose) != PurposeOf(route) { return Some(Refusal(ErrNotFound)), opener; }
      var served;
      served, opener := OpenChecked(sc, ask.id, gate, evidence.document);
      return Some(served), opener;
    }

    /** A second call checks the document again, now whatever its source, and opens it; what the first one found still holds. */
    method OpenChecked(sc: Scope, id: string, gate: Gate, checked: Registration) returns (served: Reply, ghost opener: nat)
      requires Valid() && gate.PartyVersion?
      requires Known(service.store.State(), checked) && Admitted(service.store.State(), gate, sc, id)
      modifies service.store
      ensures Valid() && old(service.store.trace) <= service.store.trace
      ensures service.At(opener, OpenEvidence(sc, id, gate.(resource := None)), Done(served))
      ensures Known(service.store.State(), checked) && Admitted(service.store.State(), gate, sc, id)
      ensures served.Streamed? ==>
        && served.document.id == id && Released(service.store.State(), served.document)
        && served.document.sha256 == gate.digest && served.key == served.document.objectKey
    {
      ghost var before := service.store.trace;
      opener := FreshId(service.store.threads.Keys);
      served := service.OpenEvidence(opener, sc, id, PartyVersion(gate.party, gate.digest, None));
      service.StillAdmitted(before, gate, sc, id);
      service.StillKnown(before, checked);
    }

    /** GET content of a bank-account document. */
    method GetAccountContent(ghost tid: nat, p: Principal, ask: Ask, g: Grant) returns (reply: Option<Reply>)
      requires Valid() && tid !in service.store.threads
      modifies service.store
      ensures Valid() && old(service.store.trace) <= service.store.trace
      ensures
        match Grants.AuthorizeBankAccount(p, environment, ask, g)
        case None => reply == None
        case Some(sc) => reply.Some? && service.At(tid, OpenEvidence(sc, ask.id, BankAccountVersion(ask.digest)), Done(reply.value))
      ensures reply.Some? && reply.value.Streamed? ==>
        && reply.value.document.id == ask.id && Released(service.store.State(), reply.value.document)
        && reply.value.document.sha256 == ask.digest && Belongs(reply.value.document, BankAccountRoute, environment, g)
    {
      var scope := AuthorizeBankAccount(p, ask, g);
      if scope.None? { return None; }
      var served := service.OpenEvidence(tid, scope.value, ask.id, BankAccountVersion(ask.digest));
      return Some(served);
    }

    /** GET content of a case document: whatever party document the grant named, but never a restricted one. */
    method GetCaseContent(ghost tid: nat, p: Principal, ask: Ask, g: Grant) returns (reply: Option<Reply>)
      requires Valid() && tid !in service.store.threads
      modifies service.store
      ensures Valid() && old(service.store.trace) <= service.store.trace
      ensures
        match Grants.AuthorizeCase(p, environment, ask, g)
        case None => reply == None
        case Some(sc) => reply.Some? && service.At(tid, OpenEvidence(sc, ask.id, PartyVersion(g.partyId, ask.digest, None)), Done(reply.value))
      ensures reply.Some? && reply.value.Streamed? ==>
        && reply.value.document.id == ask.id && Released(service.store.State(), reply.value.document)
        && reply.value.document.sha256 == ask.digest
        && reply.value.document.ownerId == g.partyId && !Restricted(reply.value.document.purpose)
    {
      var scope := AuthorizeCase(p, ask, g);
      if scope.None? { return None; }
      var served := service.OpenEvidence(tid, scope.value, ask.id, PartyVersion(g.partyId, ask.digest, None));
      assert Blank("");
      return Some(served);
    }

    /** GET documents of a case: at most 50 rows, and a cursor when there were more. */
    method ListCase(p: Principal, ask: Ask, g: Grant, after: string) returns (page: Option<Result<Page>>)
      ensures
        match Grants.AuthorizeCase(p, environment, ask, g)
        case None => page == None
        case Some(sc) =>
          var db := service.store.State();
          page == Some(
            if |after| > 128 then Err(ErrInvalidCursor)
            else if !CaseScope(sc, g.reference, g.partyId) then Err(ErrEvidenceScope)
            else Ok(ListPage(CaseIds(db, sc, g.reference, g.partyId), Shown(db, sc, g.reference), after)))
    {
      var scope := AuthorizeCase(p, ask, g);
      if scope.None? { return None; }
      if |after| > 128 { return Some(Err(ErrInvalidCursor)); }
      var listed := service.CaseUploads(scope.value, g.reference, g.partyId, after);
      if listed.Err? { return Some(Err(listed.error)); }
      var rows := listed.value;
      var next := "";
      if |rows| > PAGE {
        rows := rows[..PAGE];
        next := rows[PAGE - 1];
      }
      return Some(Ok(Page(rows, next)));
    }
  }
}
