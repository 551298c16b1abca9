/** One winner per transition, and an audit log that tells the truth, in every interleaving with crashes. */
module Audit {
  import opened Schema
  import opened Statements
  import opened Calls
  import opened Threads

  /** The two transitions a document makes once: into quarantine, and to its verdict. */
  datatype Landmark = Landmark(id: string, verdict: bool)

  /** The transition a thread has made: it has reported success, or has only its audit event left to write. */
  function Won(t: Thread): Option<Landmark> {
    match t.pc
    case CompleteAudit => if t.call.Complete? || t.call.UploadContent? then Some(Landmark(t.call.id, false)) else None
    case Done(Completed(id)) => Some(Landmark(id, false))
    case RecordAudit(_, id, outcome) => if Terminal(StatusAfter(outcome)) then Some(Landmark(id, true)) else None
    case Done(Recorded(id, outcome)) => if Terminal(StatusAfter(outcome)) then Some(Landmark(id, true)) else None
    case _ => None
  }

  /** The event the thread has yet to write. */
  function Owes(t: Thread): Option<Landmark> {
    if t.pc.CompleteAudit? || t.pc.RecordAudit? then Won(t) else None
  }

  predicate Passed(db: Db, m: Landmark) {
    m.id in db.rows && (if m.verdict then Terminal(db.rows[m.id].status) else db.rows[m.id].status != PendingUpload)
  }

  ghost predicate OneWinner(w: World) {
    && (forall i | i in w.threads && Won(w.threads[i]).Some? :: Passed(w.db, Won(w.threads[i]).value))
    && (forall i, j | i in w.threads && j in w.threads && Won(w.threads[i]).Some? && Won(w.threads[i]) == Won(w.threads[j]) :: i == j)
  }

  lemma WonPassed(digest: Digest, db: Db, t: Thread)
    requires ThreadOk(digest, db, t) && Won(t).Some?
    ensures Passed(db, Won(t).value)
  {}

  lemma QuarantineWins(digest: Digest, db: Db, t: Thread, c: Choice)
    requires Keyed(db) && ThreadOk(digest, db, t) && t.pc.CompleteUpdate?
    ensures Won(t).None?
    ensures var won := Won(Stepped(digest, db, t, c)); won.Some? ==> !Passed(db, won.value) && Passed(After(db, t, c), won.value)
  {}

  lemma VerdictWins(digest: Digest, db: Db, t: Thread, c: Choice)
    requires Keyed(db) && ThreadOk(digest, db, t) && t.pc.RecordUpdate?
    ensures Won(t).None?
    ensures var won := Won(Stepped(digest, db, t, c)); won.Some? ==> !Passed(db, won.value) && Passed(After(db, t, c), won.value)
  {}

  lemma OthersWinNothing(digest: Digest, db: Db, t: Thread, c: Choice)
    requires !t.pc.CompleteUpdate? && !t.pc.RecordUpdate?
    ensures var won := Won(Stepped(digest, db, t, c)); won.Some? ==> won == Won(t)
  {}

  /** A thread wins a transition only by the statement that makes it: not made before, made after. */
  lemma WinningStep(digest: Digest, db: Db, t: Thread, c: Choice)
    requires Keyed(db) && ThreadOk(digest, db, t)
    ensures var won := Won(Stepped(digest, db, t, c)); won.Some? && won != Won(t) ==>
      !Passed(db, won.value) && Passed(After(db, t, c), won.value)
  {
    if t.pc.CompleteUpdate? {
      QuarantineWins(digest, db, t, c);
    } else if t.pc.RecordUpdate? {
      VerdictWins(digest, db, t, c);
    } else {
      OthersWinNothing(digest, db, t, c);
    }
  }

  lemma StartWinsNothing(call: Call)
    ensures Won(Thread(call, Start(call))).None?
  {}

  /** Nobody wins while another acts. */
  lemma BystandersWinNothing(digest: Digest, w: World, a: Act, i: nat)
    requires i in Advance(digest, w, a).threads && !(a.Step? && a.tid == i) && Won(Advance(digest, w, a).threads[i]).Some?
    ensures i in w.threads && w.threads[i] == Advance(digest, w, a).threads[i]
  {
    if a.Spawn? { StartWinsNothing(a.call); }
  }

  /** The winner of a transition after an action either had won before, or takes one nobody had passed. */
  lemma NewWinner(digest: Digest, w: World, a: Act, i: nat)
    requires Keyed(w.db) && ThreadsOk(digest, w) && i in Advance(digest, w, a).threads && Won(Advance(digest, w, a).threads[i]).Some?
    ensures var won := Won(Advance(digest, w, a).threads[i]);
      (i in w.threads && Won(w.threads[i]) == won) || (a.Step? && a.tid == i && !Passed(w.db, won.value))
  {
    if a.Step? && a.tid == i {
      WinningStep(digest, w.db, w.threads[i], a.choice);
    } else {
      BystandersWinNothing(digest, w, a, i);
    }
  }

  lemma AdvanceKeepsOneWinner(digest: Digest, w: World, a: Act)
    requires WorldOk(digest, w) && OneWinner(w)
    ensures OneWinner(Advance(digest, w, a))
  {
    var w' := Advance(digest, w, a);
    AdvanceKeepsThreadsOk(digest, w, a);
    forall i | i in w'.threads && Won(w'.threads[i]).Some?
      ensures Passed(w'.db, Won(w'.threads[i]).value)
    {
      WonPassed(digest, w'.db, w'.threads[i]);
    }
    forall i, j | i in w'.threads && j in w'.threads && Won(w'.threads[i]).Some? && Won(w'.threads[i]) == Won(w'.threads[j])
      ensures i == j
    {
      NewWinner(digest, w, a, i);
      NewWinner(digest, w, a, j);
    }
  }

  /** Single winner: of all calls on one document, in any interleaving, one at most completes its upload and one at most decides it. */
  lemma {:induction false} SingleWinner(digest: Digest, acts: seq<Act>)
    ensures OneWinner(Reachable(digest, acts))
  {
    if acts == [] {
    } else {
      SingleWinner(digest, acts[..|acts| - 1]);
      ReachableOk(digest, acts[..|acts| - 1]);
      AdvanceKeepsOneWinner(digest, Reachable(digest, acts[..|acts| - 1]), acts[|acts| - 1]);
    }
  }

  /** Whoever comes second to a transition is refused and leaves the database as it was. */
  lemma LosersChangeNothing(digest: Digest, db: Db, t: Thread, c: Choice)
    requires ThreadOk(digest, db, t)
    requires
      || (t.pc.CompleteUpdate? && Passed(db, Landmark(t.pc.reg.id, false)))
      || (t.pc.RecordUpdate? && Passed(db, Landmark(t.pc.id, true)))
    ensures After(db, t, c) == db
    ensures Resume(digest, db, t, c) == Done(Refusal(if t.pc.RecordUpdate? then ErrConflict else ErrInternal))
  {}

  /** The once-only transition an event reports. */
  function MarkOf(e: AuditEvent): Option<Landmark> {
    match e.action
    case UploadVerifiedQuarantined => Some(Landmark(e.document, false))
    case MalwareScan(outcome) => if Terminal(StatusAfter(outcome)) then Some(Landmark(e.document, true)) else None
    case _ => None
  }

  /** The event lets a document version out. */
  predicate IsRelease(action: Action) {
    || action.DownloadAuthorized? || action.EvidenceVersionChecked? || action.CaseDownloadAuthorized?
    || action.BankAccountEvidenceChecked? || action.BankAccountDownloadAuthorized?
  }

  /** What an event says is so. */
  predicate Truthful(db: Db, e: AuditEvent) {
    && e.document in db.rows
    && (MarkOf(e).Some? ==> Passed(db, MarkOf(e).value))
    && (e.action.MalwareScan? ==> Stands(db, e.document, e.action.outcome))
    && (IsRelease(e.action) ==> db.rows[e.document].status == Available && db.rows[e.document].scan == Clean)
  }

  ghost predicate AuthorizedEach(db: Db) {
    forall id | id in db.rows :: exists e :: e in db.audit && e.document == id && e.action == UploadAuthorized
  }

  ghost predicate ReportedOnce(log: seq<AuditEvent>) {
    forall i, j | 0 <= i < j < |log| && MarkOf(log[i]).Some? :: MarkOf(log[i]) != MarkOf(log[j])
  }

  ghost predicate AuditTrue(w: World) {
    && AuthorizedEach(w.db)
    && (forall e | e in w.db.audit :: Truthful(w.db, e))
    && ReportedOnce(w.db.audit)
    && (forall e, tid | e in w.db.audit && tid in w.threads && Owes(w.threads[tid]).Some? :: MarkOf(e) != Owes(w.threads[tid]))
  }

  lemma TruthfulStays(db: Db, db': Db, e: AuditEvent)
    requires Evolves(db, db') && Truthful(db, e)
    ensures Truthful(db', e)
  {}

  /** The event a thread writes is true as it is written, and reports a transition only if the thread owed that report. */
  lemma ThreadLogs(digest: Digest, db: Db, t: Thread, c: Choice)
    requires Keyed(db) && ThreadOk(digest, db, t) && !t.pc.CreateInsert?
    requires Logged(db, Issue(db, t, c)).Some?
    ensures Truthful(db, Logged(db, Issue(db, t, c)).value)
    ensures var mark := MarkOf(Logged(db, Issue(db, t, c)).value); mark.Some? ==> mark == Owes(t) && Owes(Stepped(digest, db, t, c)).None?
  {}

  /** The creating transaction writes its upload_authorized event with the row. */
  lemma CreateLogs(digest: Digest, db: Db, t: Thread, c: Choice)
    requires Keyed(db) && t.pc.CreateInsert?
    ensures var s := Issue(db, t, c);
      && (Written(db, s).Some? <==> Logged(db, s).Some?)
      && (Logged(db, s).Some? ==> Logged(db, s).value.action == UploadAuthorized && Logged(db, s).value.document == Written(db, s).value.reg.id)
  {}

  ghost function LoggedBy(w: World, a: Act): Option<AuditEvent> {
    Logged(w.db, NextStmt(w, a))
  }

  lemma ActLogs(digest: Digest, w: World, a: Act)
    requires WorldOk(digest, w) && LoggedBy(w, a).Some?
    ensures Truthful(Advance(digest, w, a).db, LoggedBy(w, a).value)
    ensures var mark := MarkOf(LoggedBy(w, a).value); mark.Some? ==>
      && a.Step? && a.tid in w.threads && mark == Owes(w.threads[a.tid])
      && Owes(Advance(digest, w, a).threads[a.tid]).None?
  {
    var t := w.threads[a.tid];
    if t.pc.CreateInsert? {
      CreateLogs(digest, w.db, t, a.choice);
    } else {
      ThreadLogs(digest, w.db, t, a.choice);
      ExecEvolves(w.db, NextStmt(w, a));
      TruthfulStays(w.db, Advance(digest, w, a).db, LoggedBy(w, a).value);
    }
  }

  lemma AdvanceKeepsAuthorized(digest: Digest, w: World, a: Act)
    requires WorldOk(digest, w) && AuthorizedEach(w.db)
    ensures AuthorizedEach(Advance(digest, w, a).db)
  {
    var w' := Advance(digest, w, a);
    forall id | id in w'.db.rows
      ensures exists e :: e in w'.db.audit && e.document == id && e.action == UploadAuthorized
    {
      if id in w.db.rows {
        var e :| e in w.db.audit && e.document == id && e.action == UploadAuthorized;
        assert e in w'.db.audit;
      } else {
        InsertedBy(digest, w, a);
        CreateLogs(digest, w.db, w.threads[a.tid], a.choice);
        assert LoggedBy(w, a).value in w'.db.audit;
      }
    }
  }

  lemma AdvanceKeepsTruthful(digest: Digest, w: World, a: Act)
    requires WorldOk(digest, w) && forall e | e in w.db.audit :: Truthful(w.db, e)
    ensures var db := Advance(digest, w, a).db; forall e | e in db.audit :: Truthful(db, e)
  {
    var w' := Advance(digest, w, a);
    ExecEvolves(w.db, NextStmt(w, a));
    forall e | e in w'.db.audit
      ensures Truthful(w'.db, e)
    {
      if e in w.db.audit { TruthfulStays(w.db, w'.db, e); } else { ActLogs(digest, w, a); }
    }
  }

  lemma OldEventNotOwed(digest: Digest, w: World, a: Act, e: AuditEvent, tid: nat)
    requires Keyed(w.db) && ThreadsOk(digest, w) && AuditTrue(w) && e in w.db.audit
    requires tid in Advance(digest, w, a).threads && Owes(Advance(digest, w, a).threads[tid]).Some?
    ensures MarkOf(e) != Owes(Advance(digest, w, a).threads[tid])
  {
    NewWinner(digest, w, a, tid);
    assert Truthful(w.db, e);
    if tid in w.threads && Won(w.threads[tid]) == Won(Advance(digest, w, a).threads[tid]) {
      OwedBefore(digest, w, a, tid);
    }
  }

  /** No thread owes a report that is already in the log. */
  lemma AdvanceKeepsDebts(digest: Digest, w: World, a: Act, e: AuditEvent, tid: nat)
    requires WorldOk(digest, w) && OneWinner(w) && AuditTrue(w)
    requires e in Advance(digest, w, a).db.audit
    requires tid in Advance(digest, w, a).threads && Owes(Advance(digest, w, a).threads[tid]).Some?
    ensures MarkOf(e) != Owes(Advance(digest, w, a).threads[tid])
  {
    LogAfter(digest, w, a);
    if e in w.db.audit { OldEventNotOwed(digest, w, a, e, tid); } else { NewEventNotOwed(digest, w, a, tid); }
  }

  lemma NewEventNotOwed(digest: Digest, w: World, a: Act, tid: nat)
    requires WorldOk(digest, w) && OneWinner(w) && LoggedBy(w, a).Some?
    requires tid in Advance(digest, w, a).threads && Owes(Advance(digest, w, a).threads[tid]).Some?
    ensures MarkOf(LoggedBy(w, a).value) != Owes(Advance(digest, w, a).threads[tid])
  {
    NewWinner(digest, w, a, tid);
    ActLogs(digest, w, a);
  }

  lemma OwedBefore(digest: Digest, w: World, a: Act, tid: nat)
    requires tid in w.threads && Won(w.threads[tid]).Some?
    requires Owes(Advance(digest, w, a).threads[tid]) == Won(w.threads[tid])
    ensures Owes(w.threads[tid]) == Won(w.threads[tid])
  {}

  lemma MarksAppend(log: seq<AuditEvent>, e: AuditEvent)
    requires ReportedOnce(log) && forall f | f in log && MarkOf(f).Some? :: MarkOf(f) != MarkOf(e)
    ensures ReportedOnce(log + [e])
  {}

  lemma AdvanceKeepsReportedOnce(digest: Digest, w: World, a: Act)
    requires WorldOk(digest, w) && AuditTrue(w)
    ensures ReportedOnce(Advance(digest, w, a).db.audit)
  {
    if LoggedBy(w, a).Some? {
      ActLogs(digest, w, a);
      MarksAppend(w.db.audit, LoggedBy(w, a).value);
    }
  }

  lemma AdvanceKeepsAuditTrue(digest: Digest, w: World, a: Act)
    requires WorldOk(digest, w) && OneWinner(w) && AuditTrue(w)
    ensures AuditTrue(Advance(digest, w, a))
  {
    var w' := Advance(digest, w, a);
    AdvanceKeepsAuthorized(digest, w, a);
    AdvanceKeepsTruthful(digest, w, a);
    forall e, tid | e in w'.db.audit && tid in w'.threads && Owes(w'.threads[tid]).Some?
      ensures MarkOf(e) != Owes(w'.threads[tid])
    {
      AdvanceKeepsDebts(digest, w, a, e, tid);
    }
    AdvanceKeepsReportedOnce(digest, w, a);
  }

  /** Audit truthfulness: each document has its authorization event, each transition is reported at most once, each event
      says what is so, and a release event names a clean document; a crash anywhere can only leave events out. */
  lemma {:induction false} AuditTruthful(digest: Digest, acts: seq<Act>)
    ensures AuditTrue(Reachable(digest, acts))
  {
    if acts == [] {
    } else {
      var w := Reachable(digest, acts[..|acts| - 1]);
      AuditTruthful(digest, acts[..|acts| - 1]);
      ReachableOk(digest, acts[..|acts| - 1]);
      SingleWinner(digest, acts[..|acts| - 1]);
      AdvanceKeepsAuditTrue(digest, w, acts[|acts| - 1]);
    }
  }

  ghost predicate Reported(w: World, m: Landmark) {
    || (exists e :: e in w.db.audit && MarkOf(e) == Some(m))
    || (exists tid :: tid in w.threads && Owes(w.threads[tid]) == Some(m))
  }

  /** The statement takes the document past the landmark. */
  ghost predicate Passes(db: Db, s: Stmt, m: Landmark) {
    if m.verdict then s.RecordVerdict? && s.id == m.id && Recordable(db, s.id, s.within) && Terminal(StatusAfter(s.outcome))
    else s.Quarantine? && s.id == m.id && Quarantinable(db, s.id, s.within)
  }

  lemma PassingStatement(db: Db, s: Stmt, m: Landmark)
    requires RowsInv(db) && Keyed(db) && !Passed(db, m) && Passed(Exec(db, s), m)
    ensures Passes(db, s, m)
  {}

  lemma PassingIsStep(w: World, a: Act, m: Landmark)
    requires Passes(w.db, NextStmt(w, a), m)
    ensures a.Step? && a.tid in w.threads && Passes(w.db, Issue(w.db, w.threads[a.tid], a.choice), m)
  {}

  lemma IssuerOwes(digest: Digest, db: Db, t: Thread, c: Choice, m: Landmark)
    requires ThreadOk(digest, db, t) && Passes(db, Issue(db, t, c), m)
    ensures Owes(Stepped(digest, db, t, c)) == Some(m)
  {}

  /** A statement carries a document past a landmark only for a thread that then owes the report. */
  lemma PassingOwes(digest: Digest, w: World, a: Act, m: Landmark)
    requires RowsInv(w.db) && Keyed(w.db) && ThreadsOk(digest, w) && !Passed(w.db, m) && Passed(Advance(digest, w, a).db, m)
    ensures a.Step? && a.tid in w.threads && Owes(Advance(digest, w, a).threads[a.tid]) == Some(m)
  {
    PassingStatement(w.db, NextStmt(w, a), m);
    PassingIsStep(w, a, m);
    IssuerOwes(digest, w.db, w.threads[a.tid], a.choice, m);
  }

  /** A thread that owes a report writes it with its next statement. */
  lemma OwingReports(digest: Digest, db: Db, t: Thread, c: Choice)
    requires ThreadOk(digest, db, t) && Owes(t).Some?
    ensures Logged(db, Issue(db, t, c)).Some? && MarkOf(Logged(db, Issue(db, t, c)).value) == Owes(t)
  {}

  lemma LoggedIsLast(digest: Digest, w: World, a: Act)
    requires LoggedBy(w, a).Some?
    ensures LoggedBy(w, a).value in Advance(digest, w, a).db.audit
  {}

  lemma OthersKept(digest: Digest, w: World, a: Act, tid: nat)
    requires tid in w.threads && !((a.Stop? || a.Step?) && a.tid == tid)
    ensures tid in Advance(digest, w, a).threads && Advance(digest, w, a).threads[tid] == w.threads[tid]
  {}

  /** The action stops a thread that owes this report: it died, or its statement failed. */
  predicate Loses(w: World, a: Act, m: Landmark) {
    a.Stop? && a.tid in w.threads && Owes(w.threads[a.tid]) == Some(m)
  }

  ghost predicate LosesAt(digest: Digest, acts: seq<Act>, k: nat, m: Landmark) {
    k < |acts| && Loses(Reachable(digest, acts[..k]), acts[k], m)
  }

  /** Some thread stopped while it owed this report. */
  ghost predicate Lost(digest: Digest, acts: seq<Act>, m: Landmark) {
    exists k: nat :: LosesAt(digest, acts, k, m)
  }

  lemma AdvanceKeepsReported(digest: Digest, w: World, a: Act, m: Landmark)
    requires WorldOk(digest, w) && !Loses(w, a, m) && Reported(w, m)
    ensures Reported(Advance(digest, w, a), m)
  {
    var w' := Advance(digest, w, a);
    if e :| e in w.db.audit && MarkOf(e) == Some(m) {
      assert e in w'.db.audit;
    } else {
      var tid :| tid in w.threads && Owes(w.threads[tid]) == Some(m);
      if a.Step? && a.tid == tid {
        OwingReports(digest, w.db, w.threads[tid], a.choice);
        LoggedIsLast(digest, w, a);
      } else {
        OthersKept(digest, w, a, tid);
      }
    }
  }

  lemma LosesAtPrefix(digest: Digest, init: seq<Act>, acts: seq<Act>, k: nat, m: Landmark)
    requires init <= acts && k < |init|
    ensures LosesAt(digest, init, k, m) <==> LosesAt(digest, acts, k, m)
  {
    assert acts[..k] == init[..k];
  }

  lemma LostStep(digest: Digest, init: seq<Act>, a: Act, m: Landmark)
    ensures Lost(digest, init + [a], m) <==> Lost(digest, init, m) || Loses(Reachable(digest, init), a, m)
  {
    var acts := init + [a];
    assert acts[..|init|] == init;
    assert LosesAt(digest, acts, |init|, m) <==> Loses(Reachable(digest, init), a, m);
    if k: nat :| LosesAt(digest, acts, k, m) && k < |init| { LosesAtPrefix(digest, init, acts, k, m); }
    if k: nat :| LosesAt(digest, init, k, m) { LosesAtPrefix(digest, init, acts, k, m); }
  }

  /** The transition is made, no event reports it and no thread will. */
  ghost predicate Gone(w: World, m: Landmark) {
    && Passed(w.db, m)
    && Silent(w.db.audit, m)
    && (forall i | i in w.threads :: Won(w.threads[i]) != Some(m))
  }

  ghost predicate Silent(log: seq<AuditEvent>, m: Landmark) {
    forall e | e in log :: MarkOf(e) != Some(m)
  }

  lemma SilentAppend(log: seq<AuditEvent>, e: AuditEvent, m: Landmark)
    requires Silent(log, m) && MarkOf(e) != Some(m)
    ensures Silent(log + [e], m)
  {}

  lemma LosingLeavesGone(digest: Digest, w: World, a: Act, m: Landmark)
    requires OneWinner(w) && AuditTrue(w) && Loses(w, a, m)
    ensures Gone(Advance(digest, w, a), m)
  {}

  lemma PassedStays(db: Db, db': Db, m: Landmark)
    requires Evolves(db, db') && Passed(db, m)
    ensures Passed(db', m)
  {}

  lemma NobodyElseWins(digest: Digest, w: World, a: Act, m: Landmark, i: nat)
    requires WorldOk(digest, w) && Gone(w, m) && i in Advance(digest, w, a).threads
    ensures Won(Advance(digest, w, a).threads[i]) != Some(m)
  {
    if Won(Advance(digest, w, a).threads[i]).Some? { NewWinner(digest, w, a, i); }
  }

  lemma NobodyElseReports(digest: Digest, w: World, a: Act, m: Landmark)
    requires WorldOk(digest, w) && Gone(w, m) && LoggedBy(w, a).Some?
    ensures MarkOf(LoggedBy(w, a).value) != Some(m)
  {
    ActLogs(digest, w, a);
  }

  lemma LogAfter(digest: Digest, w: World, a: Act)
    ensures Advance(digest, w, a).db.audit == w.db.audit + if LoggedBy(w, a).Some? then [LoggedBy(w, a).value] else []
  {}

  lemma LogStaysSilent(digest: Digest, w: World, a: Act, m: Landmark)
    requires WorldOk(digest, w) && Gone(w, m)
    ensures Silent(Advance(digest, w, a).db.audit, m)
  {
    LogAfter(digest, w, a);
    if LoggedBy(w, a).Some? {
      NobodyElseReports(digest, w, a, m);
      SilentAppend(w.db.audit, LoggedBy(w, a).value, m);
    }
  }

  lemma AdvanceKeepsPassed(digest: Digest, w: World, a: Act, m: Landmark)
    requires DbInv(w.db) && Passed(w.db, m)
    ensures Passed(Advance(digest, w, a).db, m)
  {
    ExecEvolves(w.db, NextStmt(w, a));
    PassedStays(w.db, Advance(digest, w, a).db, m);
  }

  lemma AdvanceKeepsGone(digest: Digest, w: World, a: Act, m: Landmark)
    requires WorldOk(digest, w) && Gone(w, m)
    ensures Gone(Advance(digest, w, a), m)
  {
    AdvanceKeepsPassed(digest, w, a, m);
    LogStaysSilent(digest, w, a, m);
    forall i | i in Advance(digest, w, a).threads
      ensures Won(Advance(digest, w, a).threads[i]) != Some(m)
    {
      NobodyElseWins(digest, w, a, m, i);
    }
  }

  /** A report that was lost is never made up for. */
  lemma {:induction false} LostStaysGone(digest: Digest, acts: seq<Act>, m: Landmark)
    requires Lost(digest, acts, m)
    ensures Gone(Reachable(digest, acts), m)
  {
    var init := acts[..|acts| - 1];
    assert init + [acts[|acts| - 1]] == acts;
    LostStep(digest, init, acts[|acts| - 1], m);
    SingleWinner(digest, init);
    AuditTruthful(digest, init);
    ReachableOk(digest, init);
    if Lost(digest, init, m) {
      LostStaysGone(digest, init, m);
      AdvanceKeepsGone(digest, Reachable(digest, init), acts[|acts| - 1], m);
    } else {
      LosingLeavesGone(digest, Reachable(digest, init), acts[|acts| - 1], m);
    }
  }

  /** What is not lost is in the log, or owed by a thread still on its way. */
  lemma {:induction false} KeptIsReported(digest: Digest, acts: seq<Act>, m: Landmark)
    requires Passed(Reachable(digest, acts).db, m) && !Lost(digest, acts, m)
    ensures Reported(Reachable(digest, acts), m)
  {
    if acts == [] {
    } else {
      var init := acts[..|acts| - 1];
      var w, a := Reachable(digest, init), acts[|acts| - 1];
      assert init + [a] == acts;
      LostStep(digest, init, a, m);
      ReachableOk(digest, init);
      if Passed(w.db, m) {
        KeptIsReported(digest, init, m);
        AdvanceKeepsReported(digest, w, a, m);
      } else {
        PassingOwes(digest, w, a, m);
      }
    }
  }

  /** Audit completeness, exactly: a transition made is reported, or will be by a thread still on its way, if and only if no
      thread stopped while it owed that report. */
  lemma ReportedUnlessLost(digest: Digest, acts: seq<Act>, m: Landmark)
    requires Passed(Reachable(digest, acts).db, m)
    ensures Reported(Reachable(digest, acts), m) <==> !Lost(digest, acts, m)
  {
    if Lost(digest, acts, m) { LostStaysGone(digest, acts, m); } else { KeptIsReported(digest, acts, m); }
  }

  /** So without deaths and failures every transition made is reported or about to be. */
  lemma CrashFreeAuditComplete(digest: Digest, acts: seq<Act>, m: Landmark)
    requires forall a | a in acts :: !a.Stop?
    ensures Passed(Reachable(digest, acts).db, m) ==> Reported(Reachable(digest, acts), m)
  {
    if Passed(Reachable(digest, acts).db, m) { ReportedUnlessLost(digest, acts, m); }
  }
}
