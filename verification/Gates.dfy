/** Every gate before a reader, in terms of the columns and the caller's fields: what passes, and how each refusal is answered. */
module Gates {
  import opened Text
  import opened Schema
  import opened Access
  import opened Statements
  import opened Creation
  import opened Calls
  import opened Threads
  import opened Steps

  /** A digest as the pattern asks for it. */
  predicate HexDigest(s: string) {
    |s| == 64 && forall i | 0 <= i < 64 :: s[i] in "0123456789abcdef"
  }

  lemma HexDigits(c: char)
    ensures c in "0123456789abcdef" <==> '0' <= c <= '9' || 'a' <= c <= 'f'
  {
    var digits := "0123456789abcdef";
    assert digits == ['0', '1', '2', '3', '4', '5', '6', '7', '8', '9', 'a', 'b', 'c', 'd', 'e', 'f'];
    assert '0' <= c <= '9' ==> c == digits[c as int - '0' as int];
    assert 'a' <= c <= 'f' ==> c == digits[10 + c as int - 'a' as int];
  }

  lemma DigestExactly(s: string)
    ensures IsSha256(s) <==> HexDigest(s)
  {
    forall c ensures c in "0123456789abcdef" <==> '0' <= c <= '9' || 'a' <= c <= 'f' { HexDigits(c); }
    assert forall i | 0 <= i < |s| :: s[i] in s;
  }

  /** The scope a bank account's owner service grants, field by field. */
  predicate BankFields(sc: Scope) {
    && !Spaces(sc.bankAccountReference) && |sc.bankAccountReference| <= 128
    && !Spaces(sc.bankAccountOwnerId) && |sc.bankAccountOwnerId| <= 128
    && sc.subject != "" && sc.application != ""
    && (sc.environment == "sandbox" || sc.environment == "production")
    && ((sc.bankAccountOwnerType == "PARTY" && sc.tenant != "") || (sc.bankAccountOwnerType == "LEGAL_ENTITY" && sc.tenant == ""))
  }

  lemma BankScopeExactly(sc: Scope)
    ensures ValidBankAccountScope(sc) <==> BankFields(sc)
  {
    BlankExactly(sc.bankAccountReference);
    BlankExactly(sc.bankAccountOwnerId);
  }

  /** The scope carries what a document of this purpose asks for: its own source reference, under the field of its kind, within
      its own tenant and environment. */
  predicate Entitled(sc: Scope, reg: Registration) {
    && (reg.purpose == "manual_bank_payment" ==>
          && sc.paymentReference != "" && sc.tenant != "" && sc.environment != ""
          && reg.tenant == sc.tenant && reg.environment == sc.environment && reg.sourceReference == Some(sc.paymentReference))
    && (reg.purpose == "manual_bank_statement" ==>
          && sc.statementReference != "" && sc.tenant != "" && sc.environment != ""
          && reg.tenant == sc.tenant && reg.environment == sc.environment && reg.sourceReference == Some(sc.statementReference))
    && (reg.purpose == "bank_account_verification" ==>
          && BankFields(sc) && reg.ownerType == sc.bankAccountOwnerType && reg.ownerId == sc.bankAccountOwnerId
          && reg.tenant == sc.tenant && reg.environment == sc.environment && reg.sourceReference == Some(sc.bankAccountReference))
  }

  lemma EntitledExactly(db: Db, sc: Scope, id: string)
    requires Keyed(db) && id in db.rows
    ensures AccessGranted(db, sc, db.rows[id].reg) <==> Entitled(sc, db.rows[id].reg)
  {
    BankScopeExactly(sc);
    assert db.rows[id].reg.id == id;
    assert |"bank_account_verification"| == 25 && |"manual_bank_payment"| == 19 && |"manual_bank_statement"| == 21;
  }

  /** The tenant and environment a plain lookup is confined to; without a tenant it is the environment alone, sandbox if the
      caller has none. */
  predicate Confined(sc: Scope, reg: Registration) {
    if sc.tenant != "" then reg.tenant == sc.tenant && reg.environment == sc.environment
    else reg.environment == (if sc.environment != "" then sc.environment else "sandbox")
  }

  /** get, exactly. */
  lemma GetExactly(db: Db, sc: Scope, id: string)
    requires Keyed(db)
    ensures Get(db, sc, id) ==
      if id in db.rows && Confined(sc, db.rows[id].reg) && Entitled(sc, db.rows[id].reg) then Ok(db.rows[id]) else Err(ErrNotFound)
  {
    if id in db.rows { EntitledExactly(db, sc, id); }
  }

  /** Download's gate, exactly: ErrNotFound for what get does not find, ErrConflict for what is not available and clean. */
  lemma DownloadExactly(digest: Digest, db: Db, t: Thread, c: Choice)
    requires Keyed(db) && t.pc.DownloadGet? && t.call.Download?
    ensures var (sc, id) := (t.call.scope, t.call.id);
      Stepped(digest, db, t, c).pc ==
        if !(id in db.rows && Confined(sc, db.rows[id].reg) && Entitled(sc, db.rows[id].reg)) then Done(Refusal(ErrNotFound))
        else if db.rows[id].status == Available && db.rows[id].scan == Clean then DownloadAudit(db.rows[id].reg)
        else Done(Refusal(ErrConflict))
  {
    GetExactly(db, t.call.scope, t.call.id);
    DownloadRuns(digest, db, t, c);
  }

  /** No point reader crosses environments, or tenants when the scope has one. */
  lemma ReadersConfined(db: Db, gate: Gate, sc: Scope, application: string, party: string, id: string)
    requires DbInv(db) && Reads(db, gate, sc, application, party, id)
    ensures id in db.rows
    ensures db.rows[id].reg.environment == if sc.environment == "" then "sandbox" else sc.environment
    ensures sc.tenant != "" ==> db.rows[id].reg.tenant == sc.tenant
  {
    GetExactly(db, sc, id);
    assert id in db.rows ==> CheckConstraints(db.rows[id].reg);
  }

  /** The party's row, of the asked source if one is asked for. */
  predicate PartyRow(db: Db, sc: Scope, party: string, resource: Option<string>, id: string) {
    && id in db.rows
    && var reg := db.rows[id].reg;
       && reg.tenant == sc.tenant && reg.environment == sc.environment
       && reg.ownerType == "PARTY" && reg.ownerId == party && reg.party == Some(party)
       && (resource.None? || reg.sourceReference == Some(resource.value))
  }

  /** The answer of a party's version check, exactly: each refusal in its order, and the row that passes. */
  lemma PartyCheckExactly(db: Db, sc: Scope, party: string, digest: string, resource: Option<string>, id: string)
    requires Keyed(db)
    ensures CheckVersion(db, PartyVersion(party, digest, resource), sc, id) ==
      if resource.Some? && (Spaces(resource.value) || |resource.value| > 128) then Err(ErrConflict)
      else if Spaces(sc.tenant) || Spaces(sc.environment) || Spaces(sc.subject) || Spaces(sc.application) then Err(ErrEvidenceScope)
      else if Spaces(id) || Spaces(party) || !HexDigest(digest) then Err(ErrConflict)
      else if !PartyRow(db, sc, party, resource, id) || !Entitled(sc, db.rows[id].reg) then Err(ErrNotFound)
      else if db.rows[id].status == Available && db.rows[id].scan == Clean && db.rows[id].reg.sha256 == digest then Ok(db.rows[id])
      else Err(ErrConflict)
  {
    PartyArguments(sc, party, digest, resource, id);
    if id in db.rows { EntitledExactly(db, sc, id); }
  }

  lemma PartyArguments(sc: Scope, party: string, digest: string, resource: Option<string>, id: string)
    ensures GateScope(PartyVersion(party, digest, resource), sc, id) ==
      if resource.Some? && (Spaces(resource.value) || |resource.value| > 128) then Err(ErrConflict)
      else if Spaces(sc.tenant) || Spaces(sc.environment) || Spaces(sc.subject) || Spaces(sc.application) then Err(ErrEvidenceScope)
      else if Spaces(id) || Spaces(party) || !HexDigest(digest) then Err(ErrConflict)
      else Ok(())
  {
    if resource.Some? { BlankExactly(resource.value); }
    BlankExactly(sc.tenant);
    BlankExactly(sc.environment);
    BlankExactly(sc.subject);
    BlankExactly(sc.application);
    BlankExactly(id);
    BlankExactly(party);
    DigestExactly(digest);
  }

  /** The bank account's row. */
  predicate AccountRow(db: Db, sc: Scope, id: string) {
    && id in db.rows
    && var reg := db.rows[id].reg;
       && reg.tenant == sc.tenant && reg.environment == sc.environment && reg.sourceReference == Some(sc.bankAccountReference)
       && reg.ownerType == sc.bankAccountOwnerType && reg.ownerId == sc.bankAccountOwnerId
       && reg.purpose == "bank_account_verification"
  }

  /** The answer of a bank account's version check, exactly. */
  lemma AccountCheckExactly(db: Db, sc: Scope, digest: string, id: string)
    ensures CheckVersion(db, BankAccountVersion(digest), sc, id) ==
      if !BankFields(sc) || !HexDigest(digest) then Err(ErrEvidenceScope)
      else if !AccountRow(db, sc, id) then Err(ErrNotFound)
      else if db.rows[id].status == Available && db.rows[id].scan == Clean && db.rows[id].reg.sha256 == digest then Ok(db.rows[id])
      else Err(ErrConflict)
  {
    BankScopeExactly(sc);
    DigestExactly(digest);
  }

  /** What a passed check says about the document's registration: it is the party's, of the asked source, and within the scope's
      entitlement; or it is the bank account's. */
  predicate Admitted(db: Db, gate: Gate, sc: Scope, id: string) {
    match gate
    case PartyVersion(party, _, resource) => PartyRow(db, sc, party, resource, id) && Entitled(sc, db.rows[id].reg)
    case BankAccountVersion(_) => AccountRow(db, sc, id)
  }

  /** Whoever passes a version check is admitted to a clean version of the asked digest, under a well-formed scope. */
  lemma PassedIsAdmitted(db: Db, gate: Gate, sc: Scope, id: string)
    requires Keyed(db) && CheckVersion(db, gate, sc, id).Ok?
    ensures Admitted(db, gate, sc, id) && CheckVersion(db, gate, sc, id) == Ok(db.rows[id])
    ensures db.rows[id].status == Available && db.rows[id].scan == Clean && db.rows[id].reg.sha256 == gate.digest && HexDigest(gate.digest)
    ensures sc.environment != "" && sc.subject != "" && sc.application != ""
  {
    assert Spaces("");
    match gate
    case PartyVersion(party, digest, resource) => PartyCheckExactly(db, sc, party, digest, resource, id);
    case BankAccountVersion(digest) => AccountCheckExactly(db, sc, digest, id);
  }

  lemma AdmittedStays(db: Db, db': Db, gate: Gate, sc: Scope, id: string)
    requires Evolves(db, db') && Admitted(db, gate, sc, id)
    ensures Admitted(db', gate, sc, id)
  {}

  /** The bank account's own lookup, exactly. */
  lemma AccountDocumentExactly(db: Db, sc: Scope, id: string)
    requires Keyed(db)
    ensures BankAccountDocument(db, sc, id) ==
      if !BankFields(sc) then Err(ErrEvidenceScope) else if AccountRow(db, sc, id) then Ok(db.rows[id]) else Err(ErrNotFound)
  {
    BankScopeExactly(sc);
    GetExactly(db, sc, id);
    assert |"bank_account_verification"| == 25 && |"manual_bank_payment"| == 19 && |"manual_bank_statement"| == 21;
  }

  /** The lookup of a case's upload, exactly. */
  lemma CaseUploadExactly(db: Db, sc: Scope, application: string, party: string, id: string)
    requires Keyed(db)
    ensures CaseUpload(db, sc, application, party, id) ==
      if sc.tenant == "" || sc.environment == "" || sc.subject == "" || sc.application == "" || application == "" || party == "" then
        Err(ErrEvidenceScope)
      else if PartyRow(db, sc, party, Some(application), id) && Entitled(sc, db.rows[id].reg) then Ok(db.rows[id])
      else Err(ErrNotFound)
  {
    GetExactly(db, sc, id);
  }

  /** UploadContent's gate, exactly: ErrNotFound for what get does not find, ErrConflict for a document past its upload or a body
      that is not of the declared length and digest; nothing is put then. */
  lemma UploadExactly(digest: Digest, db: Db, t: Thread, c: Choice)
    requires Keyed(db) && t.pc.UploadGet? && t.call.UploadContent?
    ensures After(db, t, c) == db
    ensures var (sc, id, body) := (t.call.scope, t.call.id, t.call.body);
      Stepped(digest, db, t, c).pc ==
        if !(id in db.rows && Confined(sc, db.rows[id].reg) && Entitled(sc, db.rows[id].reg)) then Done(Refusal(ErrNotFound))
        else
          var (row, reg) := (db.rows[id], db.rows[id].reg);
          if row.status == PendingUpload && |body| == reg.size && digest(body) == reg.sha256 then UploadPut(reg)
          else Done(Refusal(ErrConflict))
  {
    GetExactly(db, t.call.scope, t.call.id);
    UploadGetRuns(digest, db, t, c);
  }

  /** What Complete goes on with, exactly: the row must be found and await its upload; the UPDATE is confined to the scope's
      tenant and environment, or to the row's own when the scope has no tenant. */
  lemma PlanExactly(db: Db, sc: Scope, id: string)
    requires Keyed(db)
    ensures PlanCompletion(db, sc, id) ==
      if !(id in db.rows && Confined(sc, db.rows[id].reg) && Entitled(sc, db.rows[id].reg)) then Err(ErrNotFound)
      else
        var row := db.rows[id];
        var within := if sc.tenant != "" then Partition(sc.tenant, sc.environment) else Partition(row.reg.tenant, row.reg.environment);
        if row.status != PendingUpload then Err(ErrConflict)
        else if within.environment == "" then Err(ErrNotFound)
        else if within.tenant == "" && !(row.reg.purpose == "bank_account_verification" && BankFields(sc.(tenant := "", environment := within.environment))) then
          Err(ErrNotFound)
        else Ok((row, within))
  {
    GetExactly(db, sc, id);
    if id in db.rows { BankScopeExactly(sc.(tenant := "", environment := db.rows[id].reg.environment)); }
  }
}
