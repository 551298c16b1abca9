/** What clamd was given against what readers get: verdicts, the bytes behind them, and the puts in between. */
module Scanning {
  import opened Schema
  import opened Statements
  import opened Calls
  import opened Threads
  import opened Steps
  import opened Queue
  import opened Integrity

  /** The action opens the document's object for a worker, with these bytes. */
  predicate Opens(w: World, a: Act, tid: nat, reg: Registration, bytes: seq<byte>) {
    && a.Step? && a.tid == tid && tid in w.threads && w.threads[tid].pc.ScanOpen? && w.threads[tid].pc.reg == reg
    && a.choice.readable && reg.objectKey in w.db.objects && w.db.objects[reg.objectKey].bytes == bytes
  }

  ghost predicate OpenedAt(digest: Digest, acts: seq<Act>, k: nat, tid: nat, reg: Registration, bytes: seq<byte>) {
    k < |acts| && Opens(Reachable(digest, acts[..k]), acts[k], tid, reg, bytes)
  }

  /** This worker opened the document and got these bytes. */
  ghost predicate Scanned(digest: Digest, acts: seq<Act>, tid: nat, id: string, bytes: seq<byte>) {
    exists k: nat, reg :: OpenedAt(digest, acts, k, tid, reg, bytes) && reg.id == id
  }

  /** The action decides the document, for a worker's work or for a posted result. */
  ghost predicate Rules(w: World, a: Act, id: string, outcome: Outcome, origin: Option<Work>) {
    && a.Step? && a.tid in w.threads
    && var pc := w.threads[a.tid].pc;
       && pc.RecordUpdate? && pc.id == id && pc.outcome == outcome && pc.origin == origin
       && Decides(w.db, Issue(w.db, w.threads[a.tid], a.choice), id)
  }

  ghost predicate RuledAt(digest: Digest, acts: seq<Act>, k: nat, id: string, outcome: Outcome, origin: Option<Work>) {
    k < |acts| && Rules(Reachable(digest, acts[..k]), acts[k], id, outcome, origin)
  }

  /** The document was decided, and a worker's verdict rests on bytes this same worker had opened before. */
  ghost predicate Judged(digest: Digest, acts: seq<Act>, id: string, status: Status) {
    exists k: nat, outcome, origin ::
      && RuledAt(digest, acts, k, id, outcome, origin) && StatusAfter(outcome) == status
      && (origin.Some? ==> Scanned(digest, acts[..k], acts[k].tid, id, origin.value.bytes))
  }

  lemma OpenedAtGrows(digest: Digest, acts: seq<Act>, acts': seq<Act>, k: nat, tid: nat, reg: Registration, bytes: seq<byte>)
    requires acts <= acts' && OpenedAt(digest, acts, k, tid, reg, bytes)
    ensures OpenedAt(digest, acts', k, tid, reg, bytes)
  {
    assert acts'[..k] == acts[..k];
  }

  lemma RuledAtGrows(digest: Digest, acts: seq<Act>, acts': seq<Act>, k: nat, id: string, outcome: Outcome, origin: Option<Work>)
    requires acts <= acts' && RuledAt(digest, acts, k, id, outcome, origin)
    ensures RuledAt(digest, acts', k, id, outcome, origin)
  {
    assert acts'[..k] == acts[..k];
  }

  lemma ScannedGrows(digest: Digest, acts: seq<Act>, acts': seq<Act>, tid: nat, id: string, bytes: seq<byte>)
    requires acts <= acts' && Scanned(digest, acts, tid, id, bytes)
    ensures Scanned(digest, acts', tid, id, bytes)
  {
    var k: nat, reg :| OpenedAt(digest, acts, k, tid, reg, bytes) && reg.id == id;
    OpenedAtGrows(digest, acts, acts', k, tid, reg, bytes);
  }

  lemma JudgedGrows(digest: Digest, acts: seq<Act>, acts': seq<Act>, id: string, status: Status)
    requires acts <= acts' && Judged(digest, acts, id, status)
    ensures Judged(digest, acts', id, status)
  {
    var k: nat, outcome, origin :|
      && RuledAt(digest, acts, k, id, outcome, origin) && StatusAfter(outcome) == status
      && (origin.Some? ==> Scanned(digest, acts[..k], acts[k].tid, id, origin.value.bytes));
    assert acts'[..k] == acts[..k];
    assert RuledAt(digest, acts', k, id, outcome, origin);
  }

  /** The document a thread has bytes of, from its open to its verdict. */
  function WorkOf(t: Thread): Option<(string, seq<byte>)> {
    match t.pc
    case ScanStream(reg, work) => Some((reg.id, work.bytes))
    case RecordUpdate(_, id, _, Some(work)) => Some((id, work.bytes))
    case _ => None
  }

  /** Bytes come into a worker's hands only at its open. */
  lemma WorkStep(digest: Digest, db: Db, t: Thread, c: Choice)
    requires WorkOf(Stepped(digest, db, t, c)).Some? && WorkOf(Stepped(digest, db, t, c)) != WorkOf(t)
    ensures t.pc.ScanOpen? && c.readable && t.pc.reg.objectKey in db.objects
    ensures WorkOf(Stepped(digest, db, t, c)) == Some((t.pc.reg.id, db.objects[t.pc.reg.objectKey].bytes))
  {
    var pc := t.pc;
    match pc
    case ScanStream(_, _) => DeliverRuns(digest, db, t, c);
    case _ =>
  }

  lemma StartHasNoWork(call: Call)
    ensures WorkOf(Thread(call, Start(call))).None?
  {}

  lemma WorkOrigin(digest: Digest, w: World, a: Act, i: nat)
    requires i in Advance(digest, w, a).threads && WorkOf(Advance(digest, w, a).threads[i]).Some?
    ensures var work := WorkOf(Advance(digest, w, a).threads[i]);
      || (i in w.threads && WorkOf(w.threads[i]) == work)
      || (i in w.threads && w.threads[i].pc.ScanOpen? && work.value.0 == w.threads[i].pc.reg.id
          && Opens(w, a, i, w.threads[i].pc.reg, work.value.1))
  {
    if a.Step? && a.tid == i {
      if WorkOf(Advance(digest, w, a).threads[i]) != WorkOf(w.threads[i]) { WorkStep(digest, w.db, w.threads[i], a.choice); }
    } else if a.Spawn? {
      StartHasNoWork(a.call);
    }
  }

  lemma {:induction false} WorkIsScanned(digest: Digest, acts: seq<Act>, i: nat)
    requires i in Reachable(digest, acts).threads && WorkOf(Reachable(digest, acts).threads[i]).Some?
    ensures var work := WorkOf(Reachable(digest, acts).threads[i]).value; Scanned(digest, acts, i, work.0, work.1)
  {
    if acts == [] {
    } else {
      var init := acts[..|acts| - 1];
      var w := Reachable(digest, init);
      var work := WorkOf(Reachable(digest, acts).threads[i]).value;
      WorkOrigin(digest, w, acts[|acts| - 1], i);
      if i in w.threads && WorkOf(w.threads[i]) == Some(work) {
        WorkIsScanned(digest, init, i);
        ScannedGrows(digest, init, acts, i, work.0, work.1);
      } else {
        assert OpenedAt(digest, acts, |init|, i, w.threads[i].pc.reg, work.1);
      }
    }
  }

  lemma DecidingIssuer(digest: Digest, w: World, a: Act, id: string)
    requires Decides(w.db, NextStmt(w, a), id)
    ensures a.Step? && a.tid in w.threads && w.threads[a.tid].pc.RecordUpdate? && w.threads[a.tid].pc.id == id
    ensures StatusAfter(w.threads[a.tid].pc.outcome) == StatusAfter(NextStmt(w, a).outcome)
    ensures Rules(w, a, id, w.threads[a.tid].pc.outcome, w.threads[a.tid].pc.origin)
  {}

  lemma DecidingStatement(db: Db, s: Stmt, id: string)
    requires RowsInv(db) && Keyed(db) && Decided(db, id) == 0 && Decided(Exec(db, s), id) == 1
    ensures Decides(db, s, id) && Exec(db, s).rows[id].status == StatusAfter(s.outcome)
  {
    DecidedStep(db, s, id);
  }

  lemma DecidedFrozen(db: Db, s: Stmt, id: string)
    requires DbInv(db) && Decided(db, id) == 1
    ensures Decided(Exec(db, s), id) == 1 && Exec(db, s).rows[id] == db.rows[id]
  {
    ExecEvolves(db, s);
  }

  /** An action that decides a document is a step of a thread at its verdict. */
  lemma DecidingAct(digest: Digest, w: World, a: Act, id: string) returns (outcome: Outcome, origin: Option<Work>)
    requires RowsInv(w.db) && Keyed(w.db) && Decided(w.db, id) == 0 && Decided(Exec(w.db, NextStmt(w, a)), id) == 1
    ensures Rules(w, a, id, outcome, origin) && Exec(w.db, NextStmt(w, a)).rows[id].status == StatusAfter(outcome)
    ensures origin.Some? ==> WorkOf(w.threads[a.tid]) == Some((id, origin.value.bytes))
  {
    DecidingStatement(w.db, NextStmt(w, a), id);
    DecidingIssuer(digest, w, a, id);
    outcome, origin := w.threads[a.tid].pc.outcome, w.threads[a.tid].pc.origin;
  }

  lemma JudgedNow(digest: Digest, init: seq<Act>, a: Act, id: string, outcome: Outcome, origin: Option<Work>)
    requires Rules(Reachable(digest, init), a, id, outcome, origin)
    requires origin.Some? ==> WorkOf(Reachable(digest, init).threads[a.tid]) == Some((id, origin.value.bytes))
    ensures Judged(digest, init + [a], id, StatusAfter(outcome))
  {
    if origin.Some? { WorkIsScanned(digest, init, a.tid); }
    assert (init + [a])[..|init|] == init;
    assert RuledAt(digest, init + [a], |init|, id, outcome, origin);
  }

  lemma VerdictMade(digest: Digest, init: seq<Act>, a: Act, id: string)
    requires var db := Reachable(digest, init).db; RowsInv(db) && Keyed(db) && Decided(db, id) == 0
    requires Decided(Advance(digest, Reachable(digest, init), a).db, id) == 1
    ensures Judged(digest, init + [a], id, Advance(digest, Reachable(digest, init), a).db.rows[id].status)
  {
    var outcome, origin := DecidingAct(digest, Reachable(digest, init), a, id);
    JudgedNow(digest, init, a, id, outcome, origin);
  }

  lemma VerdictKept(digest: Digest, init: seq<Act>, a: Act, id: string)
    requires DbInv(Reachable(digest, init).db) && Decided(Reachable(digest, init).db, id) == 1
    requires Judged(digest, init, id, Reachable(digest, init).db.rows[id].status)
    ensures id in Advance(digest, Reachable(digest, init), a).db.rows
    ensures Judged(digest, init + [a], id, Advance(digest, Reachable(digest, init), a).db.rows[id].status)
  {
    var w := Reachable(digest, init);
    DecidedFrozen(w.db, NextStmt(w, a), id);
    JudgedGrows(digest, init, init + [a], id, w.db.rows[id].status);
  }

  /** A verdict the document has is on record, and a worker's verdict was on bytes that worker had opened. */
  ghost predicate VerdictKnown(digest: Digest, acts: seq<Act>, id: string) {
    var db := Reachable(digest, acts).db;
    Decided(db, id) == 1 ==> Judged(digest, acts, id, db.rows[id].status)
  }

  lemma NextReachable(digest: Digest, init: seq<Act>, a: Act)
    ensures Reachable(digest, init + [a]) == Advance(digest, Reachable(digest, init), a)
  {
    assert (init + [a])[..|init|] == init;
  }

  lemma VerdictStep(digest: Digest, init: seq<Act>, a: Act, id: string)
    requires DbInv(Reachable(digest, init).db) && VerdictKnown(digest, init, id)
    ensures VerdictKnown(digest, init + [a], id)
  {
    NextReachable(digest, init, a);
    if Decided(Reachable(digest, init).db, id) == 1 {
      VerdictKept(digest, init, a, id);
    } else if Decided(Advance(digest, Reachable(digest, init), a).db, id) == 1 {
      VerdictMade(digest, init, a, id);
    }
  }

  /** Whenever a document has its verdict, the step that gave it is on record, and a worker's verdict was on bytes that
      this same worker had opened at the document's key. */
  lemma {:induction false} VerdictHasOrigin(digest: Digest, acts: seq<Act>, id: string)
    ensures VerdictKnown(digest, acts, id)
  {
    if acts == [] {
    } else {
      var init := acts[..|acts| - 1];
      VerdictHasOrigin(digest, init, id);
      ReachableDbInv(digest, init, []);
      VerdictStep(digest, init, acts[|acts| - 1], id);
      assert init + [acts[|acts| - 1]] == acts;
    }
  }

  /** The action hands a reader these bytes. */
  predicate Streams(w: World, a: Act, tid: nat, reply: Reply) {
    && a.Step? && a.tid == tid && tid in w.threads && w.threads[tid].pc.VersionOpen?
    && var (reg, key) := (w.threads[tid].pc.reg, w.threads[tid].pc.stored.objectKey);
       key in w.db.objects && reply == Streamed(reg, key, w.db.objects[key])
  }

  ghost predicate StreamedAt(digest: Digest, acts: seq<Act>, k: nat, tid: nat, reply: Reply) {
    k < |acts| && Streams(Reachable(digest, acts[..k]), acts[k], tid, reply)
  }

  lemma StreamOrigin(digest: Digest, w: World, a: Act, i: nat)
    requires i in Advance(digest, w, a).threads && HasStreamed(Advance(digest, w, a).threads[i])
    ensures var t := Advance(digest, w, a).threads[i];
      (i in w.threads && w.threads[i] == t) || Streams(w, a, i, t.pc.reply)
  {
    if a.Step? && a.tid == i {
      if w.threads[i].pc.VersionOpen? {
        OpenRuns(digest, w.db, w.threads[i], a.choice);
      } else {
        OthersStreamNothing(digest, w.db, w.threads[i], a.choice);
      }
    } else if a.Spawn? {
      StartStreamsNothing(a.call);
    }
  }

  /** What a reader got was the object of its open. */
  lemma {:induction false} StreamHasOpen(digest: Digest, acts: seq<Act>, i: nat) returns (k: nat)
    requires i in Reachable(digest, acts).threads && HasStreamed(Reachable(digest, acts).threads[i])
    ensures StreamedAt(digest, acts, k, i, Reachable(digest, acts).threads[i].pc.reply)
  {
    assert acts != [];
    var init := acts[..|acts| - 1];
    var w := Reachable(digest, init);
    StreamOrigin(digest, w, acts[|acts| - 1], i);
    if i in w.threads && w.threads[i] == Reachable(digest, acts).threads[i] {
      k := StreamHasOpen(digest, init, i);
      assert acts[..k] == init[..k];
    } else {
      k := |init|;
    }
  }

  /** The last object written to the key from one moment of a run to another, if any. */
  ghost function LastPut(digest: Digest, acts: seq<Act>, from: nat, till: nat, key: string): Option<StoredObject>
    requires from <= till <= |acts|
  {
    if till == from then None
    else
      var s := NextStmt(Reachable(digest, acts[..till - 1]), acts[till - 1]);
      if Puts(s, key) then Some(s.content) else LastPut(digest, acts, from, till - 1, key)
  }

  lemma ObjectStep(db: Db, s: Stmt, key: string)
    requires key in db.objects
    ensures key in Exec(db, s).objects && Exec(db, s).objects[key] == if Puts(s, key) then s.content else db.objects[key]
  {}

  lemma PrefixStep(digest: Digest, acts: seq<Act>, till: nat)
    requires 0 < till <= |acts|
    ensures Reachable(digest, acts[..till]) == Advance(digest, Reachable(digest, acts[..till - 1]), acts[till - 1])
  {
    assert acts[..till][..till - 1] == acts[..till - 1];
  }

  /** An object changes by puts to its own key alone. */
  lemma {:induction false} ObjectAfter(digest: Digest, acts: seq<Act>, from: nat, till: nat, key: string)
    requires from <= till <= |acts| && key in Reachable(digest, acts[..from]).db.objects
    ensures key in Reachable(digest, acts[..till]).db.objects
    ensures var last := LastPut(digest, acts, from, till, key);
      Reachable(digest, acts[..till]).db.objects[key] == if last.Some? then last.value else Reachable(digest, acts[..from]).db.objects[key]
    decreases till
  {
    if from == till {
    } else {
      var w := Reachable(digest, acts[..till - 1]);
      ObjectAfter(digest, acts, from, till - 1, key);
      PrefixStep(digest, acts, till);
      ObjectStep(w.db, NextStmt(w, acts[till - 1]), key);
    }
  }

  /** Streamed bytes are the bytes a worker opened exactly when nothing was put at their key in between, or the last thing put
      there had the same bytes. */
  lemma StreamedIsOpened(digest: Digest, acts: seq<Act>, from: nat, worker: nat, reg: Registration, bytes: seq<byte>,
                         till: nat, reader: nat, reply: Reply)
    requires OpenedAt(digest, acts, from, worker, reg, bytes) && StreamedAt(digest, acts, till, reader, reply)
    requires from <= till && reply.key == reg.objectKey
    ensures var last := LastPut(digest, acts, from, till, reg.objectKey);
      reply.content.bytes == bytes <==> last.None? || last.value.bytes == bytes
  {
    ObjectAfter(digest, acts, from, till, reg.objectKey);
  }

  lemma OpenerKnows(digest: Digest, db: Db, t: Thread)
    requires ThreadOk(digest, db, t) && t.pc.ScanOpen?
    ensures Known(db, t.pc.reg)
  {}

  lemma StreamerKnows(digest: Digest, db: Db, t: Thread)
    requires ThreadOk(digest, db, t) && t.pc.VersionOpen?
    ensures Released(db, t.pc.reg) && t.pc.stored == t.pc.reg
  {}

  lemma ThreadKnows(digest: Digest, acts: seq<Act>, tid: nat)
    requires tid in Reachable(digest, acts).threads
    ensures ThreadOk(digest, Reachable(digest, acts).db, Reachable(digest, acts).threads[tid])
  {
    ReachableOk(digest, acts);
  }

  lemma LaterEvolves(digest: Digest, acts: seq<Act>, k: nat)
    requires k <= |acts|
    ensures Evolves(Reachable(digest, acts[..k]).db, Reachable(digest, acts).db)
  {
    ReachableDbInv(digest, acts[..k], acts[k..]);
    assert acts[..k] + acts[k..] == acts;
  }

  lemma KnownLater(digest: Digest, acts: seq<Act>, k: nat, reg: Registration)
    requires k <= |acts| && Known(Reachable(digest, acts[..k]).db, reg)
    ensures Known(Reachable(digest, acts).db, reg)
  {
    LaterEvolves(digest, acts, k);
    KnownStays(Reachable(digest, acts[..k]).db, Reachable(digest, acts).db, reg);
  }

  /** A worker opens the document it has read, and the row keeps that registration. */
  lemma OpenedIsKnown(digest: Digest, acts: seq<Act>, from: nat, worker: nat, reg: Registration, bytes: seq<byte>)
    requires OpenedAt(digest, acts, from, worker, reg, bytes)
    ensures Known(Reachable(digest, acts[..from]).db, reg) && Known(Reachable(digest, acts).db, reg)
  {
    var w := Reachable(digest, acts[..from]);
    ThreadKnows(digest, acts[..from], worker);
    OpenerKnows(digest, w.db, w.threads[worker]);
    KnownLater(digest, acts, from, reg);
  }

  lemma StreamedIsReleased(digest: Digest, acts: seq<Act>, till: nat, reader: nat, reply: Reply)
    requires StreamedAt(digest, acts, till, reader, reply)
    ensures Released(Reachable(digest, acts[..till]).db, reply.document) && reply.key == reply.document.objectKey
    ensures Known(Reachable(digest, acts).db, reply.document)
  {
    var w := Reachable(digest, acts[..till]);
    ThreadKnows(digest, acts[..till], reader);
    StreamerKnows(digest, w.db, w.threads[reader]);
    KnownLater(digest, acts, till, reply.document);
  }

  /** The scan a verdict rests on, if a worker gave it: that worker's open of this document, before its verdict. */
  ghost predicate RestsOn(digest: Digest, acts: seq<Act>, verdict: nat, from: nat, reg: Registration, bytes: seq<byte>) {
    from < verdict < |acts| && acts[verdict].Step? && OpenedAt(digest, acts, from, acts[verdict].tid, reg, bytes)
  }

  /** What a reader was streamed had been found clean before its open: by a posted result, or by a worker that had itself
      opened the same document, and then the streamed bytes are the ones that worker opened exactly if the last thing put at
      the key since, if any, had those bytes. */
  lemma StreamedWasJudged(digest: Digest, acts: seq<Act>, reader: nat) returns (till: nat, verdict: nat, origin: Option<Work>)
    requires reader in Reachable(digest, acts).threads && HasStreamed(Reachable(digest, acts).threads[reader])
    ensures var reply := Reachable(digest, acts).threads[reader].pc.reply;
      && StreamedAt(digest, acts, till, reader, reply) && verdict < till
      && RuledAt(digest, acts, verdict, reply.document.id, CleanOutcome, origin)
      && (origin.Some? ==> exists from: nat :: RestsOn(digest, acts, verdict, from, reply.document, origin.value.bytes))
    ensures var reply := Reachable(digest, acts).threads[reader].pc.reply;
      origin.Some? ==> forall from: nat | RestsOn(digest, acts, verdict, from, reply.document, origin.value.bytes) ::
        var last := LastPut(digest, acts, from, till, reply.key);
        (reply.content.bytes == origin.value.bytes <==> last.None? || last.value.bytes == origin.value.bytes)
  {
    var reply := Reachable(digest, acts).threads[reader].pc.reply;
    till := StreamHasOpen(digest, acts, reader);
    StreamedIsReleased(digest, acts, till, reader, reply);
    verdict, origin := JudgedBefore(digest, acts, till, reply.document);
    if origin.Some? {
      forall from: nat | RestsOn(digest, acts, verdict, from, reply.document, origin.value.bytes)
        ensures var last := LastPut(digest, acts, from, till, reply.key);
          (reply.content.bytes == origin.value.bytes <==> last.None? || last.value.bytes == origin.value.bytes)
      {
        StreamedIsOpened(digest, acts, from, acts[verdict].tid, reply.document, origin.value.bytes, till, reader, reply);
      }
    }
  }

  lemma JudgedBefore(digest: Digest, acts: seq<Act>, till: nat, reg: Registration) returns (verdict: nat, origin: Option<Work>)
    requires till <= |acts| && Released(Reachable(digest, acts[..till]).db, reg)
    ensures verdict < till && RuledAt(digest, acts, verdict, reg.id, CleanOutcome, origin)
    ensures origin.Some? ==> exists from: nat :: RestsOn(digest, acts, verdict, from, reg, origin.value.bytes)
  {
    var before := acts[..till];
    VerdictHasOrigin(digest, before, reg.id);
    var outcome;
    verdict, outcome, origin :|
      && RuledAt(digest, before, verdict, reg.id, outcome, origin) && StatusAfter(outcome) == Available
      && (origin.Some? ==> Scanned(digest, before[..verdict], before[verdict].tid, reg.id, origin.value.bytes));
    assert before[..verdict] == acts[..verdict];
    if origin.Some? { ScanBehind(digest, acts, till, verdict, reg, origin.value.bytes); }
  }

  lemma ScanBehind(digest: Digest, acts: seq<Act>, till: nat, verdict: nat, reg: Registration, bytes: seq<byte>)
    requires verdict < till <= |acts| && acts[verdict].Step? && Known(Reachable(digest, acts[..till]).db, reg)
    requires Scanned(digest, acts[..verdict], acts[verdict].tid, reg.id, bytes)
    ensures exists from: nat :: RestsOn(digest, acts, verdict, from, reg, bytes)
  {
    var worker := acts[verdict].tid;
    var from: nat, opened_ :| OpenedAt(digest, acts[..verdict], from, worker, opened_, bytes) && opened_.id == reg.id;
    OpenedAtGrows(digest, acts[..verdict], acts, from, worker, opened_, bytes);
    OpenedIsKnown(digest, acts, from, worker, opened_, bytes);
    KnownLater(digest, acts, till, reg);
    assert RestsOn(digest, acts, verdict, from, reg, bytes);
  }

  lemma OpenedIsDeclared(digest: Digest, acts: seq<Act>, from: nat, worker: nat, reg: Registration, bytes: seq<byte>)
    requires OpenedAt(digest, acts, from, worker, reg, bytes) && ProxyOnly(acts, reg.objectKey)
    ensures Declared(digest, reg, bytes)
  {
    OpenedIsKnown(digest, acts, from, worker, reg, bytes);
    ProxyIntact(digest, acts[..from], reg.objectKey);
    assert Holds(digest, Reachable(digest, acts[..from]).db, reg);
  }

  lemma StreamedIsDeclared(digest: Digest, acts: seq<Act>, reader: nat)
    requires reader in Reachable(digest, acts).threads && HasStreamed(Reachable(digest, acts).threads[reader])
    requires ProxyOnly(acts, Reachable(digest, acts).threads[reader].pc.reply.key)
    ensures var reply := Reachable(digest, acts).threads[reader].pc.reply;
      Declared(digest, reply.document, reply.content.bytes) && Known(Reachable(digest, acts).db, reply.document)
      && reply.key == reply.document.objectKey
  {
    var reply := Reachable(digest, acts).threads[reader].pc.reply;
    var till := StreamHasOpen(digest, acts, reader);
    StreamedIsReleased(digest, acts, till, reader, reply);
    ProxyIntact(digest, acts, reply.key);
  }

  /** At a key no client wrote to, scanned and streamed bytes have the one declared digest and length. */
  lemma ProxyScanAgrees(digest: Digest, acts: seq<Act>, from: nat, worker: nat, reg: Registration, bytes: seq<byte>, reader: nat)
    requires OpenedAt(digest, acts, from, worker, reg, bytes) && ProxyOnly(acts, reg.objectKey)
    requires reader in Reachable(digest, acts).threads && HasStreamed(Reachable(digest, acts).threads[reader])
    requires Reachable(digest, acts).threads[reader].pc.reply.document == reg
    ensures Declared(digest, reg, bytes)
    ensures Declared(digest, reg, Reachable(digest, acts).threads[reader].pc.reply.content.bytes)
  {
    OpenedIsDeclared(digest, acts, from, worker, reg, bytes);
    var till := StreamHasOpen(digest, acts, reader);
    StreamedIsReleased(digest, acts, till, reader, Reachable(digest, acts).threads[reader].pc.reply);
    StreamedIsDeclared(digest, acts, reader);
  }

  /** What is streamed, exactly: the bytes have the declared length and digest, which is the one the reader asked for, if and
      only if, as they were opened, the last write to the key was not a client's or was a client's with such bytes. */
  lemma StreamedExactly(digest: Digest, acts: seq<Act>, reader: nat) returns (till: nat)
    requires reader in Reachable(digest, acts).threads && HasStreamed(Reachable(digest, acts).threads[reader])
    ensures var reply := Reachable(digest, acts).threads[reader].pc.reply;
      && StreamedAt(digest, acts, till, reader, reply)
      && var last := LastClientPut(digest, acts[..till], reply.key);
         (Declared(digest, reply.document, reply.content.bytes) <==> last.None? || Declared(digest, reply.document, last.value.bytes))
  {
    var reply := Reachable(digest, acts).threads[reader].pc.reply;
    till := StreamHasOpen(digest, acts, reader);
    StreamedIsReleased(digest, acts, till, reader, reply);
    DeclaredExactly(digest, acts[..till], reply.document.id);
  }

  lemma RulingDecides(digest: Digest, w: World, a: Act, id: string, outcome: Outcome, origin: Option<Work>)
    requires Keyed(w.db) && Rules(w, a, id, outcome, origin)
    ensures id in Advance(digest, w, a).db.rows
    ensures var row := Advance(digest, w, a).db.rows[id];
      && (outcome == CleanOutcome ==> row.status == Available && row.scan == Clean)
      && (outcome == InfectedOutcome ==> row.status == Rejected && row.scan == Infected)
      && (outcome == CleanOutcome || outcome == InfectedOutcome)
  {
    var pc := w.threads[a.tid].pc;
    RecordRuns(digest, w.db, w.threads[a.tid], a.choice);
    VerdictColumns(w.db, id, Partition(pc.scope.tenant, pc.scope.environment), outcome);
  }

  lemma RuledForGood(digest: Digest, acts: seq<Act>, k: nat, id: string, outcome: Outcome, origin: Option<Work>)
    requires RuledAt(digest, acts, k, id, outcome, origin)
    ensures id in Reachable(digest, acts).db.rows
    ensures var row := Reachable(digest, acts).db.rows[id];
      && (outcome == CleanOutcome ==> row.status == Available && row.scan == Clean)
      && (outcome == InfectedOutcome ==> row.status == Rejected && row.scan == Infected)
  {
    PrefixStep(digest, acts, k + 1);
    ReachableDbInv(digest, acts[..k], []);
    RulingDecides(digest, Reachable(digest, acts[..k]), acts[k], id, outcome, origin);
    LaterEvolves(digest, acts, k + 1);
  }

  ghost predicate FoundClean(digest: Digest, acts: seq<Act>, id: string) {
    exists k: nat, origin :: RuledAt(digest, acts, k, id, CleanOutcome, origin)
  }

  ghost predicate FoundInfected(digest: Digest, acts: seq<Act>, id: string) {
    exists k: nat, origin :: RuledAt(digest, acts, k, id, InfectedOutcome, origin)
  }

  /** A document is available if and only if some step of the run recorded it clean, and rejected if and only if some step
      recorded it infected. */
  lemma AvailableExactly(digest: Digest, acts: seq<Act>, id: string)
    ensures var db := Reachable(digest, acts).db;
      && (id in db.rows && db.rows[id].status == Available <==> FoundClean(digest, acts, id))
      && (id in db.rows && db.rows[id].status == Rejected <==> FoundInfected(digest, acts, id))
  {
    var db := Reachable(digest, acts).db;
    VerdictHasOrigin(digest, acts, id);
    if Decided(db, id) == 1 { VerdictFound(digest, acts, id); }
    if k: nat, origin :| RuledAt(digest, acts, k, id, CleanOutcome, origin) {
      RuledForGood(digest, acts, k, id, CleanOutcome, origin);
    }
    if k: nat, origin :| RuledAt(digest, acts, k, id, InfectedOutcome, origin) {
      RuledForGood(digest, acts, k, id, InfectedOutcome, origin);
    }
  }

  lemma VerdictFound(digest: Digest, acts: seq<Act>, id: string)
    requires Decided(Reachable(digest, acts).db, id) == 1 && VerdictKnown(digest, acts, id)
    ensures var status := Reachable(digest, acts).db.rows[id].status;
      if status == Available then FoundClean(digest, acts, id) else FoundInfected(digest, acts, id)
  {
    var status := Reachable(digest, acts).db.rows[id].status;
    var k: nat, outcome, origin :| RuledAt(digest, acts, k, id, outcome, origin) && StatusAfter(outcome) == status;
    RuledForGood(digest, acts, k, id, outcome, origin);
  }
}
