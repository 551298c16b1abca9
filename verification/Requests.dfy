/** Which requests Create accepts and what row each one makes, in terms of what the caller sent; and who vouched for the party. */
module Requests {
  import opened Text
  import opened Schema
  import opened Access
  import opened Creation
  import opened Calls
  import opened Threads
  import opened Steps
  import opened Gates

  /** A restricted purpose names the source the scope was granted for, and a bank account its owner too. */
  predicate Covered(sc: Scope, input: CreateInput) {
    && (input.purpose == "bank_account_verification" ==>
          && BankFields(sc) && input.sourceReference == sc.bankAccountReference
          && ToUpper(input.ownerType) == sc.bankAccountOwnerType && input.ownerId == sc.bankAccountOwnerId)
    && (input.purpose == "manual_bank_payment" ==> input.sourceReference == sc.paymentReference != "")
    && (input.purpose == "manual_bank_statement" ==> input.sourceReference == sc.statementReference != "")
  }

  /** The owner a request names: a party by its id alone if it names no type. */
  function OwnerOf(input: CreateInput): (string, string) {
    if Spaces(input.ownerType) && input.partyId != "" then ("PARTY", input.partyId)
    else (ToUpper(TrimSpace(input.ownerType)), TrimSpace(input.ownerId))
  }

  /** The tenant a request is filed under. */
  function TenantOf(sc: Scope, input: CreateInput): string {
    if sc.tenant == "" && "ten_" <= input.sourceReference then input.sourceReference else sc.tenant
  }

  predicate WellFormed(sc: Scope, input: CreateInput) {
    && (TenantOf(sc, input) != "" || input.purpose == "bank_account_verification")
    && sc.subject != "" && sc.application != ""
    && OwnerOf(input).0 in {"PARTY", "LEGAL_ENTITY", "ORGANISATIONAL_UNIT", "CASE", "PRODUCT_RESOURCE", "REGULATORY_RECORD"}
    && 1 <= |OwnerOf(input).1| <= 128
    && input.documentType != "" && input.purpose != "" && input.retentionCategory != ""
    && |Base(TrimSpace(input.filename))| <= 255
    && !Spaces(input.idempotencyKey) && |TrimSpace(input.idempotencyKey)| <= 128
    && input.contentType in {"application/pdf", "image/jpeg", "image/png", "text/csv"}
    && input.classification in {"INTERNAL", "CONFIDENTIAL", "RESTRICTED"}
    && 1 <= input.size <= 52428800
    && HexDigest(ToLower(TrimSpace(input.sha256)))
  }

  lemma OwnerExactly(input: CreateInput)
    ensures var (kind, owner) := OwnerOf(input);
      Normalise(input) == input.(
        filename := Base(TrimSpace(input.filename)), sha256 := ToLower(TrimSpace(input.sha256)),
        idempotencyKey := TrimSpace(input.idempotencyKey), ownerType := kind, ownerId := owner,
        partyId := if kind == "PARTY" then owner else "")
  {
    BlankExactly(input.ownerType);
    assert ToUpper(TrimSpace(input.ownerType)) == "" <==> TrimSpace(input.ownerType) == "";
  }

  /** Create's answer to a request as it came, before any statement: which refusal, or that it goes on. */
  lemma AcceptedExactly(sc: Scope, input: CreateInput)
    ensures Prepare(sc, input).Ok? <==> Covered(sc, input) && WellFormed(sc, input)
    ensures Prepare(sc, input).Err? ==> Prepare(sc, input).error == if Covered(sc, input) then ErrConflict else ErrEvidenceScope
  {
    BankScopeExactly(sc);
    OwnerExactly(input);
    if Covered(sc, input) { AcceptableExactly(sc, input); }
  }

  lemma TenantExactly(sc: Scope, input: CreateInput)
    requires Covered(sc, input)
    ensures var sc' := ResolveScope(sc, Normalise(input));
      && sc'.tenant == TenantOf(sc, input) && sc'.environment != "" && sc'.subject == sc.subject && sc'.application == sc.application
      && (sc'.tenant == "" && input.purpose == "bank_account_verification" ==> ValidBankAccountScope(sc'))
  {
    OwnerExactly(input);
    BankScopeExactly(sc);
  }

  lemma AcceptableExactly(sc: Scope, input: CreateInput)
    requires Covered(sc, input)
    ensures Acceptable(ResolveScope(sc, Normalise(input)), Normalise(input)) <==> WellFormed(sc, input)
  {
    TenantExactly(sc, input);
    OwnerExactly(input);
    BlankExactly(input.idempotencyKey);
    DigestExactly(ToLower(TrimSpace(input.sha256)));
  }

  /** The row an accepted request makes, column by column. */
  lemma CreatedColumns(sc: Scope, input: CreateInput, id: string, now: nat)
    requires Prepare(sc, input).Ok?
    ensures var (kind, owner) := OwnerOf(input);
      var (tenant, environment) := (TenantOf(sc, input), if sc.environment == "" then "sandbox" else sc.environment);
      var reg := Register(Prepare(sc, input).value, id, now);
      && reg.id == id && reg.tenant == tenant && reg.environment == environment && reg.application == sc.application
      && reg.ownerType == kind && reg.ownerId == owner && reg.party == (if kind == "PARTY" then Some(owner) else None)
      && reg.sourceReference == (if input.sourceReference == "" then None else Some(input.sourceReference))
      && reg.consentReference == (if input.consentReference == "" then None else Some(input.consentReference))
      && reg.documentType == input.documentType && reg.purpose == input.purpose && reg.classification == input.classification
      && reg.filename == Base(TrimSpace(input.filename)) && reg.contentType == input.contentType && reg.size == input.size
      && reg.sha256 == ToLower(TrimSpace(input.sha256)) && reg.retentionCategory == input.retentionCategory
      && reg.retainUntil == input.retainUntil && reg.createdBy == sc.subject && reg.createdAt == now
      && reg.idempotencyKey == TrimSpace(input.idempotencyKey)
      && reg.objectKey == environment + "/" + tenant + "/" + ToLower(kind) + "/" + owner + "/" + id + "/original"
  {
    OwnerExactly(input);
    AcceptedExactly(sc, input);
  }

  /** The Party service has confirmed the request's party to this call. */
  ghost predicate ConfirmedAt(digest: Digest, acts: seq<Act>, k: nat, tid: nat, r: Request) {
    k < |acts| && acts[k].Step? && acts[k].tid == tid && acts[k].choice.partyExists
    && tid in Reachable(digest, acts[..k]).threads && Reachable(digest, acts[..k]).threads[tid].pc == CreateParty(r)
  }

  /** Its party is confirmed, or it has none. */
  ghost predicate Confirmed(digest: Digest, acts: seq<Act>, tid: nat, r: Request) {
    r.input.ownerType == "PARTY" ==> exists k: nat :: ConfirmedAt(digest, acts, k, tid, r)
  }

  lemma ConfirmedStays(digest: Digest, init: seq<Act>, a: Act, tid: nat, r: Request)
    requires Confirmed(digest, init, tid, r)
    ensures Confirmed(digest, init + [a], tid, r)
  {
    if k: nat :| ConfirmedAt(digest, init, k, tid, r) {
      assert (init + [a])[..k] == init[..k];
      assert ConfirmedAt(digest, init + [a], k, tid, r);
    }
  }

  lemma InsertComesFrom(digest: Digest, db: Db, t: Thread, c: Choice)
    requires Stepped(digest, db, t, c).pc.CreateInsert?
    ensures var r := Stepped(digest, db, t, c).pc.request;
      (t.pc == CreateLookup(r) && r.input.ownerType != "PARTY") || (t.pc == CreateParty(r) && c.partyExists)
  {
    var pc := t.pc;
    match pc
    case CreateLookup(_) =>
    case CreateParty(_) => PartyRuns(digest, db, t, c);
    case CreateInsert(_) => InsertRuns(digest, db, t, c);
    case _ =>
  }

  lemma StartsNoInsert(call: Call)
    ensures !Start(call).CreateInsert?
  {}

  lemma InserterStep(digest: Digest, init: seq<Act>, a: Act, i: nat)
    requires var w := Reachable(digest, init);
      i in w.threads && w.threads[i].pc.CreateInsert? ==> Confirmed(digest, init, i, w.threads[i].pc.request)
    requires var w' := Advance(digest, Reachable(digest, init), a); i in w'.threads && w'.threads[i].pc.CreateInsert?
    ensures Confirmed(digest, init + [a], i, Advance(digest, Reachable(digest, init), a).threads[i].pc.request)
  {
    var w := Reachable(digest, init);
    var r := Advance(digest, w, a).threads[i].pc.request;
    if a.Step? && a.tid == i {
      InsertComesFrom(digest, w.db, w.threads[i], a.choice);
      assert (init + [a])[..|init|] == init;
      assert r.input.ownerType == "PARTY" ==> ConfirmedAt(digest, init + [a], |init|, i, r);
    } else {
      if a.Spawn? { StartsNoInsert(a.call); }
      ConfirmedStays(digest, init, a, i, r);
    }
  }

  /** Nobody comes to an INSERT for a party the Party service has not confirmed. */
  lemma {:induction false} InserterConfirmed(digest: Digest, acts: seq<Act>, i: nat)
    requires var w := Reachable(digest, acts); i in w.threads && w.threads[i].pc.CreateInsert?
    ensures Confirmed(digest, acts, i, Reachable(digest, acts).threads[i].pc.request)
  {
    var init, a := acts[..|acts| - 1], acts[|acts| - 1];
    var w := Reachable(digest, init);
    if i in w.threads && w.threads[i].pc.CreateInsert? { InserterConfirmed(digest, init, i); }
    InserterStep(digest, init, a, i);
    assert init + [a] == acts;
  }

  /** The row was made by this call, whose party is confirmed. */
  ghost predicate Vetted(digest: Digest, acts: seq<Act>, id: string, tid: nat, r: Request) {
    id in Reachable(digest, acts).db.rows && AuthoredBy(Reachable(digest, acts), id, tid, r) && Confirmed(digest, acts, tid, r)
  }

  lemma VettedStays(digest: Digest, init: seq<Act>, a: Act, id: string, tid: nat, r: Request)
    requires Vetted(digest, init, id, tid, r)
    ensures Vetted(digest, init + [a], id, tid, r)
  {
    var w := Reachable(digest, init);
    assert (init + [a])[..|init|] == init;
    ReachableDbInv(digest, init, [a]);
    CallsKept(digest, w, a, tid);
    ConfirmedStays(digest, init, a, tid, r);
  }

  lemma VettedNow(digest: Digest, init: seq<Act>, a: Act, id: string)
    requires var w := Reachable(digest, init); id !in w.db.rows && id in Advance(digest, w, a).db.rows
    ensures a.Step? && a.tid in Reachable(digest, init).threads && Reachable(digest, init).threads[a.tid].pc.CreateInsert?
    ensures Vetted(digest, init + [a], id, a.tid, Reachable(digest, init).threads[a.tid].pc.request)
  {
    var w := Reachable(digest, init);
    assert (init + [a])[..|init|] == init;
    ReachableOk(digest, init);
    InsertedBy(digest, w, a);
    CallsKept(digest, w, a, a.tid);
    InserterConfirmed(digest, init, a.tid);
    ConfirmedStays(digest, init, a, a.tid, w.threads[a.tid].pc.request);
  }

  /** Every document, in any interleaving, was made by a Create call for what its caller sent: the request was covered by its
      scope and well formed, the row's columns are the request's, and a party was confirmed before its document was filed. */
  lemma {:induction false} MadeAsAsked(digest: Digest, acts: seq<Act>, id: string) returns (tid: nat, r: Request)
    requires id in Reachable(digest, acts).db.rows
    ensures Vetted(digest, acts, id, tid, r)
    ensures var w := Reachable(digest, acts);
      var call := w.threads[tid].call;
      && call.Create? && Prepare(call.scope, call.input) == Ok(r)
      && Covered(call.scope, call.input) && WellFormed(call.scope, call.input)
      && w.db.rows[id].reg == Register(r, id, w.db.rows[id].reg.createdAt)
  {
    var init, a := acts[..|acts| - 1], acts[|acts| - 1];
    assert init + [a] == acts;
    if id in Reachable(digest, init).db.rows {
      tid, r := MadeAsAsked(digest, init, id);
      VettedStays(digest, init, a, id, tid, r);
    } else {
      VettedNow(digest, init, a, id);
      tid, r := a.tid, Reachable(digest, init).threads[a.tid].pc.request;
    }
    var call := Reachable(digest, acts).threads[tid].call;
    AcceptedExactly(call.scope, call.input);
  }
}
