/** What Complete has found before a document arrives, and what becomes of calls that find nothing fit. */
module Uploads {
  import opened Schema
  import opened Statements
  import opened Calls
  import opened Threads
  import opened Steps
  import opened Integrity
  import opened Scanning

  /** An object of the declared length, under the declared digest as metadata, lies at the row's key. */
  predicate FitAt(db: Db, reg: Registration) {
    && reg.objectKey in db.objects
    && |db.objects[reg.objectKey].bytes| == reg.size
    && db.objects[reg.objectKey].sha256 == reg.sha256
  }

  /** The action is a call's look at the object, and it finds one that fits. */
  predicate Finds(w: World, a: Act, tid: nat, reg: Registration) {
    && a.Step? && a.tid == tid && tid in w.threads && w.threads[tid].pc.CompleteVerify? && w.threads[tid].pc.reg == reg
    && FitAt(w.db, reg)
  }

  ghost predicate FoundAt(digest: Digest, acts: seq<Act>, k: nat, tid: nat, reg: Registration) {
    k < |acts| && Finds(Reachable(digest, acts[..k]), acts[k], tid, reg)
  }

  ghost predicate Found(digest: Digest, acts: seq<Act>, tid: nat, reg: Registration) {
    exists k: nat :: FoundAt(digest, acts, k, tid, reg)
  }

  /** The look at the object, exactly: on to the UPDATE if it fits, ErrConflict if not; nothing is written either way. */
  lemma LookExactly(digest: Digest, db: Db, t: Thread, c: Choice)
    requires t.pc.CompleteVerify?
    ensures After(db, t, c) == db
    ensures Stepped(digest, db, t, c).pc ==
      if FitAt(db, t.pc.reg) then CompleteUpdate(t.pc.reg, t.pc.within) else Done(Refusal(ErrConflict))
  {
    VerifyRuns(digest, db, t, c);
  }

  /** Only a look that found a fit object leads to the UPDATE. */
  lemma UpdateStep(digest: Digest, db: Db, t: Thread, c: Choice)
    requires Stepped(digest, db, t, c).pc.CompleteUpdate? && !t.pc.CompleteUpdate?
    ensures t.pc.CompleteVerify? && t.pc.reg == Stepped(digest, db, t, c).pc.reg
    ensures FitAt(db, t.pc.reg)
  {
    var pc := t.pc;
    match pc
    case CompleteVerify(_, _) => LookExactly(digest, db, t, c);
    case _ =>
  }

  lemma UpdateEnds(digest: Digest, db: Db, t: Thread, c: Choice)
    requires t.pc.CompleteUpdate?
    ensures !Stepped(digest, db, t, c).pc.CompleteUpdate?
  {
    QuarantineRuns(digest, db, t, c);
  }

  lemma StartNotUpdating(call: Call)
    ensures !Start(call).CompleteUpdate?
  {}

  lemma UpdateOrigin(digest: Digest, w: World, a: Act, i: nat)
    requires i in Advance(digest, w, a).threads && Advance(digest, w, a).threads[i].pc.CompleteUpdate?
    ensures var reg := Advance(digest, w, a).threads[i].pc.reg;
      || (i in w.threads && w.threads[i].pc.CompleteUpdate? && w.threads[i].pc.reg == reg)
      || Finds(w, a, i, reg)
  {
    if a.Step? && a.tid == i {
      if w.threads[i].pc.CompleteUpdate? {
        UpdateEnds(digest, w.db, w.threads[i], a.choice);
      } else {
        UpdateStep(digest, w.db, w.threads[i], a.choice);
      }
    } else if a.Spawn? {
      StartNotUpdating(a.call);
    }
  }

  lemma FoundAtGrows(digest: Digest, acts: seq<Act>, acts': seq<Act>, k: nat, tid: nat, reg: Registration)
    requires acts <= acts' && FoundAt(digest, acts, k, tid, reg)
    ensures FoundAt(digest, acts', k, tid, reg)
  {
    assert acts'[..k] == acts[..k];
  }

  lemma {:induction false} UpdatingHasFound(digest: Digest, acts: seq<Act>, i: nat)
    requires i in Reachable(digest, acts).threads && Reachable(digest, acts).threads[i].pc.CompleteUpdate?
    ensures Found(digest, acts, i, Reachable(digest, acts).threads[i].pc.reg)
  {
    if acts == [] {
    } else {
      var init := acts[..|acts| - 1];
      var w, reg := Reachable(digest, init), Reachable(digest, acts).threads[i].pc.reg;
      UpdateOrigin(digest, w, acts[|acts| - 1], i);
      if i in w.threads && w.threads[i].pc.CompleteUpdate? && w.threads[i].pc.reg == reg {
        UpdatingHasFound(digest, init, i);
        var k: nat :| FoundAt(digest, init, k, i, reg);
        FoundAtGrows(digest, init, acts, k, i, reg);
      } else {
        assert FoundAt(digest, acts, |init|, i, reg);
      }
    }
  }

  /** The action takes the document out of pending_upload. */
  ghost predicate Arrives(w: World, a: Act, id: string) {
    a.Step? && a.tid in w.threads && w.threads[a.tid].pc.CompleteUpdate? && w.threads[a.tid].pc.reg.id == id
    && !Arrived(w.db, id) && Arrived(Exec(w.db, NextStmt(w, a)), id)
  }

  lemma ArrivalIsUpdate(digest: Digest, w: World, a: Act, id: string)
    requires RowsInv(w.db) && Keyed(w.db) && !Arrived(w.db, id) && Arrived(Exec(w.db, NextStmt(w, a)), id)
    ensures Arrives(w, a, id)
  {
    ArrivalStatement(w.db, NextStmt(w, a), id);
  }

  /** The step by which it did, of a call that had found the row's object fit before. */
  ghost predicate ArrivedAt(digest: Digest, acts: seq<Act>, k: nat, id: string, reg: Registration) {
    k < |acts| && Arrives(Reachable(digest, acts[..k]), acts[k], id) && Found(digest, acts[..k], acts[k].tid, reg)
  }

  /** A document that has left pending_upload did so by a step of a call that had looked at the object before, and had found the
      declared length and digest metadata at the row's own key. */
  ghost predicate ArrivedFound(digest: Digest, acts: seq<Act>, id: string) {
    Arrived(Reachable(digest, acts).db, id) ==> exists k: nat :: ArrivedAt(digest, acts, k, id, Reachable(digest, acts).db.rows[id].reg)
  }

  lemma ArrivedAtGrows(digest: Digest, acts: seq<Act>, acts': seq<Act>, k: nat, id: string, reg: Registration)
    requires acts <= acts' && ArrivedAt(digest, acts, k, id, reg)
    ensures ArrivedAt(digest, acts', k, id, reg)
  {
    assert acts'[..k] == acts[..k] && acts'[k] == acts[k];
  }

  lemma ArrivesNow(digest: Digest, init: seq<Act>, a: Act, id: string, reg: Registration)
    requires Arrives(Reachable(digest, init), a, id) && Found(digest, init, a.tid, reg)
    ensures ArrivedAt(digest, init + [a], |init|, id, reg)
  {
    assert (init + [a])[..|init|] == init;
  }

  lemma NextWorld(digest: Digest, init: seq<Act>, a: Act)
    ensures Reachable(digest, init + [a]) == Advance(digest, Reachable(digest, init), a)
  {
    assert (init + [a])[..|init|] == init;
  }

  lemma ArrivalFound(digest: Digest, init: seq<Act>, a: Act, id: string)
    requires WorldOk(digest, Reachable(digest, init)) && Arrives(Reachable(digest, init), a, id)
    ensures var w := Reachable(digest, init);
      && id in w.db.rows && w.threads[a.tid].pc.reg == w.db.rows[id].reg
      && Found(digest, init, a.tid, w.db.rows[id].reg)
  {
    var w := Reachable(digest, init);
    UpdatingHasFound(digest, init, a.tid);
    UpdaterKnows(digest, w.db, w.threads[a.tid]);
  }

  lemma UpdaterKnows(digest: Digest, db: Db, t: Thread)
    requires ThreadOk(digest, db, t) && t.pc.CompleteUpdate?
    ensures Known(db, t.pc.reg)
  {}

  lemma ArrivedFoundStep(digest: Digest, init: seq<Act>, a: Act, id: string)
    requires WorldOk(digest, Reachable(digest, init)) && ArrivedFound(digest, init, id)
    ensures ArrivedFound(digest, init + [a], id)
  {
    var w := Reachable(digest, init);
    NextWorld(digest, init, a);
    RegistrationKept(w.db, NextStmt(w, a));
    if Arrived(w.db, id) {
      var k: nat :| ArrivedAt(digest, init, k, id, w.db.rows[id].reg);
      ArrivedAtGrows(digest, init, init + [a], k, id, w.db.rows[id].reg);
    } else if Arrived(Advance(digest, w, a).db, id) {
      ArrivalIsUpdate(digest, w, a, id);
      ArrivalFound(digest, init, a, id);
      ArrivesNow(digest, init, a, id, w.db.rows[id].reg);
    }
  }

  lemma {:induction false} ArrivedWasFound(digest: Digest, acts: seq<Act>, id: string)
    ensures ArrivedFound(digest, acts, id)
  {
    if acts == [] {
    } else {
      var init := acts[..|acts| - 1];
      ArrivedWasFound(digest, init, id);
      ReachableOk(digest, init);
      ArrivedFoundStep(digest, init, acts[|acts| - 1], id);
      assert init + [acts[|acts| - 1]] == acts;
    }
  }

  /** The document a call has found an object for, from its UPDATE to its answer. */
  function LookedFor(t: Thread): Option<string> {
    match t.pc
    case CompleteUpdate(reg, _) => Some(reg.id)
    case CompleteAudit => if t.call.Complete? || t.call.UploadContent? then Some(t.call.id) else None
    case Done(Completed(id)) => Some(id)
    case _ => None
  }

  lemma LookedForVerify(digest: Digest, db: Db, t: Thread, c: Choice)
    requires t.pc.CompleteVerify? && LookedFor(Stepped(digest, db, t, c)).Some?
    ensures FitAt(db, t.pc.reg) && LookedFor(Stepped(digest, db, t, c)) == Some(t.pc.reg.id)
  {
    LookExactly(digest, db, t, c);
  }

  lemma LookedForUpdate(digest: Digest, db: Db, t: Thread, c: Choice)
    requires ThreadOk(digest, db, t) && t.pc.CompleteUpdate? && LookedFor(Stepped(digest, db, t, c)).Some?
    ensures LookedFor(Stepped(digest, db, t, c)) == LookedFor(t)
  {
    QuarantineRuns(digest, db, t, c);
  }

  lemma LookedForReport(digest: Digest, db: Db, t: Thread, c: Choice)
    requires t.pc.CompleteAudit? && LookedFor(Stepped(digest, db, t, c)).Some?
    ensures LookedFor(Stepped(digest, db, t, c)) == LookedFor(t)
  {
    if t.call.Complete? || t.call.UploadContent? { UploadReportRuns(digest, db, t, c); }
  }

  lemma OthersLookForNothing(digest: Digest, db: Db, t: Thread, c: Choice)
    requires !t.pc.CompleteVerify? && !t.pc.CompleteUpdate? && !t.pc.CompleteAudit?
    requires LookedFor(Stepped(digest, db, t, c)).Some?
    ensures LookedFor(Stepped(digest, db, t, c)) == LookedFor(t)
  {}

  lemma LookedForStep(digest: Digest, db: Db, t: Thread, c: Choice)
    requires ThreadOk(digest, db, t) && LookedFor(Stepped(digest, db, t, c)).Some?
    ensures var id := LookedFor(Stepped(digest, db, t, c));
      LookedFor(t) == id || (t.pc.CompleteVerify? && FitAt(db, t.pc.reg) && id == Some(t.pc.reg.id))
  {
    if t.pc.CompleteVerify? {
      LookedForVerify(digest, db, t, c);
    } else if t.pc.CompleteUpdate? {
      LookedForUpdate(digest, db, t, c);
    } else if t.pc.CompleteAudit? {
      LookedForReport(digest, db, t, c);
    } else {
      OthersLookForNothing(digest, db, t, c);
    }
  }

  lemma StartLooksForNothing(call: Call)
    ensures LookedFor(Thread(call, Start(call))).None?
  {}

  ghost predicate FoundFor(digest: Digest, acts: seq<Act>, tid: nat, id: string) {
    exists k: nat, reg :: FoundAt(digest, acts, k, tid, reg) && reg.id == id
  }

  lemma LookedForOrigin(digest: Digest, w: World, a: Act, i: nat)
    requires ThreadsOk(digest, w) && i in Advance(digest, w, a).threads && LookedFor(Advance(digest, w, a).threads[i]).Some?
    ensures var id := LookedFor(Advance(digest, w, a).threads[i]);
      || (i in w.threads && LookedFor(w.threads[i]) == id)
      || (i in w.threads && w.threads[i].pc.CompleteVerify? && id == Some(w.threads[i].pc.reg.id) && Finds(w, a, i, w.threads[i].pc.reg))
  {
    if a.Step? && a.tid == i {
      LookedForStep(digest, w.db, w.threads[i], a.choice);
    } else if a.Spawn? {
      StartLooksForNothing(a.call);
    }
  }

  lemma FoundNow(digest: Digest, init: seq<Act>, a: Act, tid: nat, reg: Registration)
    requires Finds(Reachable(digest, init), a, tid, reg)
    ensures FoundAt(digest, init + [a], |init|, tid, reg)
  {
    assert (init + [a])[..|init|] == init;
  }

  /** Once the call looks, it has found. */
  ghost predicate LooksFound(digest: Digest, acts: seq<Act>, i: nat) {
    var w := Reachable(digest, acts);
    i in w.threads && LookedFor(w.threads[i]).Some? ==> FoundFor(digest, acts, i, LookedFor(w.threads[i]).value)
  }

  lemma LookingStep(digest: Digest, init: seq<Act>, a: Act, i: nat)
    requires LooksFound(digest, init, i)
    ensures LooksFound(digest, init + [a], i)
  {
    var w := Reachable(digest, init);
    NextWorld(digest, init, a);
    if i in Advance(digest, w, a).threads && LookedFor(Advance(digest, w, a).threads[i]).Some? {
      var id := LookedFor(Advance(digest, w, a).threads[i]);
      ReachableOk(digest, init);
      LookedForOrigin(digest, w, a, i);
      if i in w.threads && LookedFor(w.threads[i]) == id {
        var k: nat, reg :| FoundAt(digest, init, k, i, reg) && reg.id == id.value;
        FoundAtGrows(digest, init, init + [a], k, i, reg);
      } else {
        FoundNow(digest, init, a, i, w.threads[i].pc.reg);
      }
    }
  }

  lemma {:induction false} LookingHasFound(digest: Digest, acts: seq<Act>, i: nat)
    ensures LooksFound(digest, acts, i)
  {
    if acts == [] {
    } else {
      LookingHasFound(digest, acts[..|acts| - 1], i);
      LookingStep(digest, acts[..|acts| - 1], acts[|acts| - 1], i);
      assert acts[..|acts| - 1] + [acts[|acts| - 1]] == acts;
    }
  }

  lemma FinderKnows(digest: Digest, acts: seq<Act>, k: nat, tid: nat, reg: Registration)
    requires FoundAt(digest, acts, k, tid, reg)
    ensures Known(Reachable(digest, acts).db, reg)
  {
    var w := Reachable(digest, acts[..k]);
    ThreadKnows(digest, acts[..k], tid);
    VerifierKnows(digest, w.db, w.threads[tid]);
    KnownLater(digest, acts, k, reg);
  }

  lemma VerifierKnows(digest: Digest, db: Db, t: Thread)
    requires ThreadOk(digest, db, t) && t.pc.CompleteVerify?
    ensures Known(db, t.pc.reg)
  {}

  /** A call that answers with the document had found its object fit. */
  lemma CompletedHadFound(digest: Digest, acts: seq<Act>, i: nat, id: string)
    requires i in Reachable(digest, acts).threads && Reachable(digest, acts).threads[i].pc == Done(Completed(id))
    ensures id in Reachable(digest, acts).db.rows
    ensures Found(digest, acts, i, Reachable(digest, acts).db.rows[id].reg)
  {
    LookingHasFound(digest, acts, i);
    var k: nat, reg :| FoundAt(digest, acts, k, i, reg) && reg.id == id;
    FinderKnows(digest, acts, k, i, reg);
  }
}
