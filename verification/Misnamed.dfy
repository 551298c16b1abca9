/** Grants whose names Create rewrites: the session is opened, and the document is then out of the grant's reach for good. */
module Misnamed {
  import opened Text
  import opened Schema
  import opened Access
  import opened Statements
  import opened Creation
  import opened Calls
  import opened Threads
  import opened Idempotency
  import opened Grants
  import opened Routes
  import opened Runs
  import opened Witnesses
  import Collisions

  /** A Create call of its own on the empty database: its session and its row. */
  lemma RunSession(digest: Digest, scope: Scope, input: CreateInput, c: Choice) returns (acts: seq<Act>)
    requires Prepare(scope, input).Ok? && Prepare(scope, input).value.scope.environment in ENVIRONMENTS && c.partyExists
    ensures var (w, reg) := (Reachable(digest, acts), Register(Prepare(scope, input).value, c.id, 0));
      && 0 in w.threads && w.threads[0] == Thread(Create(scope, input), Done(Session(c.id, reg.objectKey)))
      && Known(w.db, reg)
  {
    var r := Prepare(scope, input).value;
    AcceptedMeetsChecks(scope, input, c.id, 0);
    FirstInsert(r, c);
    Collisions.NewReply(EMPTY_DB, r, c.id);
    FreeKeyReply(EMPTY_DB, r, c.id);
    acts := RunCreate(digest, [], 0, scope, input, c);
  }

  /** An upload-session request that the route accepts. */
  predicate Opens(route: Route, p: Principal, environment: string, ask: Ask, g: Grant, u: Upload) {
    && Granted(route) && ask.reference != "" && environment in ENVIRONMENTS && Mint(route, p, environment, ask, g).Some?
    && var sc := Mint(route, p, environment, ask, g).value; Prepare(sc, RouteInput(route, sc, g, u)).Ok?
  }

  /** The scope and the request the route makes of it. */
  function Minted(route: Route, p: Principal, environment: string, ask: Ask, g: Grant): Scope
    requires Mint(route, p, environment, ask, g).Some?
  {
    Mint(route, p, environment, ask, g).value
  }

  /** Whoever comes with this grant, at whatever later time, the route does not show the document. */
  ghost predicate NeverShown(digest: Digest, acts: seq<Act>, route: Route, environment: string, g: Grant, id: string) {
    forall more, q, ask | Mint(route, q, environment, ask, g).Some? ::
      RouteRead(Reachable(digest, acts + more).db, route, Minted(route, q, environment, ask, g), g, id).Err?
  }

  /** Nor does a Complete call under this grant ever get past its first statement. */
  ghost predicate NeverCompleted(digest: Digest, acts: seq<Act>, route: Route, environment: string, g: Grant, id: string) {
    forall more, q, ask | Mint(route, q, environment, ask, g).Some? ::
      PlanCompletion(Reachable(digest, acts + more).db, Minted(route, q, environment, ask, g), id) == Err(ErrNotFound)
  }

  lemma StaysKnown(digest: Digest, acts: seq<Act>, more: seq<Act>, reg: Registration)
    requires Known(Reachable(digest, acts).db, reg)
    ensures Known(Reachable(digest, acts + more).db, reg) && Keyed(Reachable(digest, acts + more).db)
  {
    ReachableDbInv(digest, acts, more);
    ReachableDbInv(digest, acts + more, []);
    KnownStays(Reachable(digest, acts).db, Reachable(digest, acts + more).db, reg);
  }

  lemma UnbelongingHidden(digest: Digest, acts: seq<Act>, route: Route, environment: string, g: Grant, reg: Registration)
    requires Granted(route) && Known(Reachable(digest, acts).db, reg) && !Belongs(reg, route, environment, g)
    ensures NeverShown(digest, acts, route, environment, g, reg.id)
  {
    forall more, q, ask | Mint(route, q, environment, ask, g).Some?
      ensures RouteRead(Reachable(digest, acts + more).db, route, Minted(route, q, environment, ask, g), g, reg.id).Err?
    {
      StaysKnown(digest, acts, more, reg);
      RouteReadsExactly(Reachable(digest, acts + more).db, route, q, environment, ask, g, reg.id);
    }
  }

  /** A session the route opens although the grant's names do not survive: the route never shows its document. */
  lemma UnfaithfulRun(digest: Digest, route: Route, p: Principal, environment: string, ask: Ask, g: Grant, u: Upload, c: Choice)
      returns (acts: seq<Act>)
    requires Opens(route, p, environment, ask, g, u) && !Faithful(route, ask, g) && c.partyExists
    ensures var sc := Minted(route, p, environment, ask, g);
      var reg := Register(Prepare(sc, RouteInput(route, sc, g, u)).value, c.id, 0);
      var w := Reachable(digest, acts);
      && 0 in w.threads && w.threads[0].pc == Done(Session(c.id, reg.objectKey)) && Known(w.db, reg)
    ensures NeverShown(digest, acts, route, environment, g, c.id)
  {
    var sc := Minted(route, p, environment, ask, g);
    var input := RouteInput(route, sc, g, u);
    MintedEnvironment(route, p, environment, ask, g);
    acts := RunSession(digest, sc, input, c);
    SessionBelongs(route, p, environment, ask, g, u, c.id, 0);
    UnbelongingHidden(digest, acts, route, environment, g, Register(Prepare(sc, input).value, c.id, 0));
  }

  lemma MintedEnvironment(route: Route, p: Principal, environment: string, ask: Ask, g: Grant)
    requires Granted(route) && Mint(route, p, environment, ask, g).Some? && environment in ENVIRONMENTS
    ensures var sc := Minted(route, p, environment, ask, g); forall input ::
      Prepare(sc, input).Ok? ==> Prepare(sc, input).value.scope.environment in ENVIRONMENTS
  {
    assert Minted(route, p, environment, ask, g).environment == environment && environment != "";
  }

  lemma MisreadIncompletable(db: Db, q: Principal, environment: string, ask: Ask, g: Grant, reg: Registration)
    requires Known(db, reg) && Mint(BankAccountRoute, q, environment, ask, g).Some? && g.tenant == ""
    requires reg.purpose == BANK_ACCOUNT_VERIFICATION && reg.tenant != ""
    ensures PlanCompletion(db, Minted(BankAccountRoute, q, environment, ask, g), reg.id) == Err(ErrNotFound)
  {
    BankScope(q, environment, ask, g);
  }

  /** A lender's account misread as a tenant: a session is opened, and then neither any later read of the route nor any later
      Complete under the grant gets to the document. */
  lemma MisreadRun(digest: Digest, p: Principal, environment: string, ask: Ask, g: Grant, u: Upload, c: Choice) returns (acts: seq<Act>)
    requires Opens(BankAccountRoute, p, environment, ask, g, u) && Misread(BankAccountRoute, ask) && c.partyExists
    ensures var w := Reachable(digest, acts); 0 in w.threads && GotSession(w.threads[0]) && w.threads[0].pc.reply.id == c.id
    ensures NeverShown(digest, acts, BankAccountRoute, environment, g, c.id)
    ensures NeverCompleted(digest, acts, BankAccountRoute, environment, g, c.id)
  {
    acts := UnfaithfulRun(digest, BankAccountRoute, p, environment, ask, g, u, c);
    var sc := Minted(BankAccountRoute, p, environment, ask, g);
    var input := RouteInput(BankAccountRoute, sc, g, u);
    var reg := Register(Prepare(sc, input).value, c.id, 0);
    BankScope(p, environment, ask, g);
    BankRegistered(sc, input, c.id, 0);
    forall more, q, ask' | Mint(BankAccountRoute, q, environment, ask', g).Some?
      ensures PlanCompletion(Reachable(digest, acts + more).db, Minted(BankAccountRoute, q, environment, ask', g), c.id) == Err(ErrNotFound)
    {
      StaysKnown(digest, acts, more, reg);
      MisreadIncompletable(Reachable(digest, acts + more).db, q, environment, ask', g, reg);
    }
  }

  /** The digit a, n times; sixty-four make a digest. */
  function Digits(n: nat): string {
    if n == 0 then "" else Digits(n - 1) + "a"
  }

  const DIGITS := Digits(64)

  const UPLOAD := Upload("statement", "", "scan.pdf", "application/pdf", 1, DIGITS, "key")

  lemma {:induction false} DigitsAre(n: nat)
    ensures |Digits(n)| == n && forall c | c in Digits(n) :: c == 'a'
  {
    if n == 0 {
    } else {
      DigitsAre(n - 1);
    }
  }

  lemma DigitsStay()
    ensures ToLower(TrimSpace(DIGITS)) == DIGITS && IsSha256(DIGITS)
  {
    DigitsAre(64);
    assert DIGITS[0] in DIGITS && DIGITS[63] in DIGITS;
    PlainTrimmed(DIGITS);
    assert forall i | 0 <= i < 64 :: DIGITS[i] in DIGITS;
    assert ToLower(DIGITS) == DIGITS;
  }

  /** The upload's own fields survive validation, whatever the grant. */
  predicate Carries(input: CreateInput) {
    && input.filename == UPLOAD.filename && input.contentType == UPLOAD.contentType && input.sha256 == DIGITS && input.size == 1
    && input.idempotencyKey == UPLOAD.idempotencyKey && input.classification == "RESTRICTED"
    && input.documentType != "" && input.purpose != "" && input.retentionCategory != ""
  }

  lemma UploadAccepted(scope: Scope, input: CreateInput)
    requires Carries(input) && GrantCovers(scope, input)
    requires var in' := Normalise(input);
      && in'.ownerType in OWNER_TYPES && in'.ownerId != "" && |in'.ownerId| <= 128
      && var sc := ResolveScope(scope, in'); sc.tenant != "" && sc.environment != "" && sc.subject != "" && sc.application != ""
    ensures Prepare(scope, input).Ok?
  {
    PlainTrimmed("key");
    PlainTrimmed("scan.pdf");
    DigitsStay();
  }

  const CLERK := Principal("clerk", "", "sandbox", "", "console")

  const LENDER_ASK := Ask("ten_1", "", "", "", "upload", "")

  const LENDER_GRANT := Grant("ten_1", "", "sandbox", "", "legal_entity", "lender", "clerk", "upload", "", "")

  lemma ClerkScope(ask: Ask)
    ensures TokenScope(CLERK, ask).application == "console"
  {
    PlainTrimmed("console");
    assert Blank("");
  }

  lemma LenderMinted()
    ensures Mint(BankAccountRoute, CLERK, "sandbox", LENDER_ASK, LENDER_GRANT).Some?
    ensures var sc := Minted(BankAccountRoute, CLERK, "sandbox", LENDER_ASK, LENDER_GRANT);
      && sc.tenant == "" && sc.environment == "sandbox" && sc.subject == "clerk" && sc.application == "console"
      && sc.bankAccountReference == "ten_1" && sc.bankAccountOwnerType == "LEGAL_ENTITY" && sc.bankAccountOwnerId == "lender"
  {
    ClerkScope(LENDER_ASK);
    PlainTrimmed("lender");
    OwnerTypesInCapitals();
    ToUpperOf();
  }

  lemma ToUpperOf()
    ensures ToUpper("legal_entity") == "LEGAL_ENTITY" && ToUpper("LEGAL_ENTITY") == "LEGAL_ENTITY" && ToUpper("PARTY") == "PARTY"
  {
    OwnerTypesInCapitals();
    assert ToUpper("LEGAL_ENTITY")[..] == "LEGAL_ENTITY";
    assert ToUpper("PARTY")[..] == "PARTY";
  }

  lemma LenderValid(sc: Scope)
    requires sc.tenant == "" && sc.environment == "sandbox" && sc.subject == "clerk" && sc.application == "console"
    requires sc.bankAccountReference == "ten_1" && sc.bankAccountOwnerType == "LEGAL_ENTITY" && sc.bankAccountOwnerId == "lender"
    ensures ValidBankAccountScope(sc)
  {
    PlainTrimmed("ten_1");
    PlainTrimmed("lender");
  }

  lemma LenderNormalised(input: CreateInput)
    requires input.ownerType == "LEGAL_ENTITY" && input.ownerId == "lender"
    ensures Normalise(input).ownerType == "LEGAL_ENTITY" && Normalise(input).ownerId == "lender"
    ensures Normalise(input).sourceReference == input.sourceReference
  {
    ToUpperOf();
    PlainTrimmed("lender");
    UpperOfTrim("LEGAL_ENTITY", "LEGAL_ENTITY");
  }

  /** Such a request can arrive: a lender's grant on the account "ten_1". */
  lemma MisreadArrives()
    ensures Opens(BankAccountRoute, CLERK, "sandbox", LENDER_ASK, LENDER_GRANT, UPLOAD)
    ensures Misread(BankAccountRoute, LENDER_ASK)
  {
    LenderMinted();
    var sc := Minted(BankAccountRoute, CLERK, "sandbox", LENDER_ASK, LENDER_GRANT);
    var input := RouteInput(BankAccountRoute, sc, LENDER_GRANT, UPLOAD);
    LenderValid(sc);
    ToUpperOf();
    PurposesDiffer();
    LenderNormalised(input);
    UploadAccepted(sc, input);
  }

  const CASE_ASK := Ask("app", "ten_1", "", "", "upload", "")

  const PADDED_GRANT := Grant("app", "ten_1", "sandbox", " 7", "", "", "clerk", "upload", "", "")

  lemma PaddedTrimmed()
    ensures TrimSpace(" 7") == "7"
  {
    assert TrimLeft(" 7") == TrimLeft("7") by { assert " 7"[1..] == "7"; }
    PlainTrimmed("7");
  }

  /** And so can a case grant whose party id is padded with a space. */
  lemma PaddedArrives()
    ensures Opens(CaseRoute, CLERK, "sandbox", CASE_ASK, PADDED_GRANT, UPLOAD)
    ensures !Faithful(CaseRoute, CASE_ASK, PADDED_GRANT)
  {
    ClerkScope(CASE_ASK);
    PaddedTrimmed();
    var sc := Minted(CaseRoute, CLERK, "sandbox", CASE_ASK, PADDED_GRANT);
    var input := RouteInput(CaseRoute, sc, PADDED_GRANT, UPLOAD);
    PartyNormalised(input);
    assert |"credit_assessment"| == 17 && |BANK_ACCOUNT_VERIFICATION| == 25 && |MANUAL_BANK_PAYMENT| == 19 && |MANUAL_BANK_STATEMENT| == 21;
    UploadAccepted(sc, input);
  }

  /** Both happen: at these inputs the sessions are opened and their documents are lost to their grants. */
  lemma BothHappen(digest: Digest, c: Choice) returns (misread: seq<Act>, padded: seq<Act>)
    requires c.partyExists
    ensures var w := Reachable(digest, misread); 0 in w.threads && GotSession(w.threads[0]) && w.threads[0].pc.reply.id == c.id
    ensures NeverShown(digest, misread, BankAccountRoute, "sandbox", LENDER_GRANT, c.id)
    ensures NeverCompleted(digest, misread, BankAccountRoute, "sandbox", LENDER_GRANT, c.id)
    ensures var w := Reachable(digest, padded); 0 in w.threads && GotSession(w.threads[0]) && w.threads[0].pc.reply.id == c.id
    ensures NeverShown(digest, padded, CaseRoute, "sandbox", PADDED_GRANT, c.id)
  {
    MisreadArrives();
    misread := MisreadRun(digest, CLERK, "sandbox", LENDER_ASK, LENDER_GRANT, UPLOAD, c);
    PaddedArrives();
    padded := UnfaithfulRun(digest, CaseRoute, CLERK, "sandbox", CASE_ASK, PADDED_GRANT, UPLOAD, c);
  }
}
