/** Whose name an audit event carries: the caller's of the call that wrote it, or the scanner's. */
module Signing {
  import opened Schema
  import opened Statements
  import opened Calls
  import opened Threads
  import opened Audit

  /** The event is one this call writes: of its document, in its caller's name. */
  predicate Signs(call: Call, e: AuditEvent) {
    match call
    case Create(scope, _) => e == AuditEvent(e.document, UploadAuthorized, scope.subject, scope.application, scope.correlation)
    case UploadContent(scope, id, _) => e == AuditEvent(id, UploadVerifiedQuarantined, scope.subject, scope.application, scope.correlation)
    case Complete(scope, id) => e == AuditEvent(id, UploadVerifiedQuarantined, scope.subject, scope.application, scope.correlation)
    case RecordScan(scope, id, outcome) => e == AuditEvent(id, MalwareScan(outcome), scope.subject, scope.application, scope.correlation)
    case ProcessOne =>
      e.action.MalwareScan? && e == AuditEvent(e.document, e.action, "document-scanner", "file-storage-scanner", "scan-" + e.document)
    case Download(scope, id) => e == AuditEvent(id, DownloadAuthorized, scope.subject, scope.application, scope.correlation)
    case Evidence(scope, id, PartyVersion(_, _, _)) =>
      e == AuditEvent(id, EvidenceVersionChecked, scope.subject, scope.application, scope.correlation)
    case Evidence(scope, id, BankAccountVersion(_)) =>
      e == AuditEvent(id, BankAccountEvidenceChecked, scope.subject, scope.application, scope.bankAccountReference)
    case OpenEvidence(scope, id, PartyVersion(_, _, _)) =>
      (e.action == EvidenceVersionChecked || e.action == CaseDownloadAuthorized)
      && e == AuditEvent(id, e.action, scope.subject, scope.application, scope.correlation)
    case OpenEvidence(scope, id, BankAccountVersion(_)) =>
      (e.action == BankAccountEvidenceChecked || e.action == BankAccountDownloadAuthorized)
      && e == AuditEvent(id, e.action, scope.subject, scope.application, scope.bankAccountReference)
  }

  /** The scope a verdict is recorded under: the caller's, or the scanner's for the document it claimed. */
  predicate RecordsAs(call: Call, scope: Scope, id: string, outcome: Outcome) {
    || call == RecordScan(scope, id, outcome)
    || (call.ProcessOne? && scope.subject == "document-scanner" && scope.application == "file-storage-scanner"
        && scope.correlation == "scan-" + id)
  }

  predicate Named(t: Thread) {
    match t.pc
    case RecordUpdate(scope, id, outcome, _) => RecordsAs(t.call, scope, id, outcome)
    case RecordAudit(scope, id, outcome) => RecordsAs(t.call, scope, id, outcome)
    case _ => true
  }

  lemma NamedStep(digest: Digest, db: Db, t: Thread, c: Choice)
    requires ThreadOk(digest, db, t) && Named(t)
    ensures Named(Stepped(digest, db, t, c))
  {}

  lemma NamedStart(call: Call)
    ensures Named(Thread(call, Start(call)))
  {}

  lemma {:induction false} ThreadsNamed(digest: Digest, acts: seq<Act>)
    ensures forall i | i in Reachable(digest, acts).threads :: Named(Reachable(digest, acts).threads[i])
  {
    if acts == [] {
    } else {
      var init, a := acts[..|acts| - 1], acts[|acts| - 1];
      var w := Reachable(digest, init);
      ThreadsNamed(digest, init);
      ReachableOk(digest, init);
      forall i | i in Advance(digest, w, a).threads ensures Named(Advance(digest, w, a).threads[i]) {
        NamedKept(digest, w, a, i);
      }
    }
  }

  lemma NamedKept(digest: Digest, w: World, a: Act, i: nat)
    requires ThreadsOk(digest, w) && (i in w.threads ==> Named(w.threads[i])) && i in Advance(digest, w, a).threads
    ensures Named(Advance(digest, w, a).threads[i])
  {
    if a.Step? && a.tid == i {
      NamedStep(digest, w.db, w.threads[i], a.choice);
    } else if a.Spawn? {
      NamedStart(a.call);
    }
  }

  /** A thread signs what it logs. */
  lemma StepSigns(digest: Digest, db: Db, t: Thread, c: Choice)
    requires ThreadOk(digest, db, t) && Named(t) && Logged(db, Issue(db, t, c)).Some?
    ensures Signs(t.call, Logged(db, Issue(db, t, c)).value)
  {}

  /** The event was written at the k-th action, by a step of a call that signs it. */
  ghost predicate SignedAt(digest: Digest, acts: seq<Act>, k: nat, e: AuditEvent) {
    k < |acts| && var (w, a) := (Reachable(digest, acts[..k]), acts[k]);
    a.Step? && a.tid in w.threads && LoggedBy(w, a) == Some(e) && Signs(w.threads[a.tid].call, e)
  }

  lemma SignedNow(digest: Digest, init: seq<Act>, a: Act)
    requires LoggedBy(Reachable(digest, init), a).Some?
    ensures SignedAt(digest, init + [a], |init|, LoggedBy(Reachable(digest, init), a).value)
  {
    var w := Reachable(digest, init);
    ReachableOk(digest, init);
    ThreadsNamed(digest, init);
    StepSigns(digest, w.db, w.threads[a.tid], a.choice);
    assert (init + [a])[..|init|] == init;
  }

  lemma SignedBefore(digest: Digest, init: seq<Act>, a: Act, k: nat, e: AuditEvent)
    requires SignedAt(digest, init, k, e)
    ensures SignedAt(digest, init + [a], k, e)
  {
    assert (init + [a])[..k] == init[..k];
  }

  /** Every event in the log, in any interleaving, was written by a step of a call that signs it. */
  lemma {:induction false} EventsSigned(digest: Digest, acts: seq<Act>, e: AuditEvent) returns (k: nat)
    requires e in Reachable(digest, acts).db.audit
    ensures SignedAt(digest, acts, k, e)
  {
    var init, a := acts[..|acts| - 1], acts[|acts| - 1];
    assert init + [a] == acts;
    LogAfter(digest, Reachable(digest, init), a);
    if e in Reachable(digest, init).db.audit {
      k := EventsSigned(digest, init, e);
      SignedBefore(digest, init, a, k, e);
    } else {
      k := |init|;
      SignedNow(digest, init, a);
    }
  }
}
