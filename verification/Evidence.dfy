/** A check once passed stays passed: evidence, downloads and the opens that follow them in later statements. */
module Evidence {
  import opened Text
  import opened Schema
  import opened Access
  import opened Statements
  import opened Calls
  import opened Threads
  import opened Integrity
  import opened Rounds
  import opened Steps

  /** The access check of get reads columns that never change: run as a statement of its own at any later time, it decides
      as it would have decided with the row. */
  lemma AccessStable(db: Db, db': Db, scope: Scope, id: string)
    requires Keyed(db) && id in db.rows && Evolves(db, db')
    ensures Selected(db, scope, id) <==> Selected(db', scope, id)
    ensures AccessGranted(db, scope, db.rows[id].reg) <==> AccessGranted(db', scope, db.rows[id].reg)
  {}

  /** A passed version check passes in every later state, with the same row, and the lookup that follows it finds that row. */
  lemma CheckStands(db: Db, db': Db, gate: Gate, scope: Scope, id: string)
    requires Keyed(db) && Evolves(db, db') && CheckVersion(db, gate, scope, id).Ok?
    ensures id in db.rows && CheckVersion(db, gate, scope, id) == Ok(db.rows[id])
    ensures CheckVersion(db', gate, scope, id) == Ok(db.rows[id])
    ensures FetchVersion(db', gate, scope, id) == Ok(db.rows[id])
  {
    assert Blank("");
    AccessStable(db, db', scope, id);
  }

  /** A passed download gate passes in every later state, with the same row. */
  lemma DownloadStands(db: Db, db': Db, scope: Scope, id: string)
    requires Keyed(db) && Evolves(db, db') && Get(db, scope, id).Ok? && Get(db, scope, id).value.status == Available
    ensures Get(db', scope, id) == Get(db, scope, id)
  {
    AccessStable(db, db', scope, id);
  }

  /** The world after the three statements, each followed by anything of the other threads. */
  ghost function AtOpen(digest: Digest, w: World, tid: nat, c: Choice, first: seq<Act>, second: seq<Act>, third: seq<Act>): World {
    Round(digest, Round(digest, Round(digest, w, tid, c, first), tid, c, second), tid, c, third)
  }

  lemma ThreeRounds(digest: Digest, w: World, tid: nat, t1: Thread, t2: Thread, t3: Thread, c: Choice,
                    first: seq<Act>, second: seq<Act>, third: seq<Act>)
    requires DbInv(w.db) && tid in w.threads && Rests(tid, first) && Rests(tid, second) && Rests(tid, third)
    requires Stepped(digest, w.db, w.threads[tid], c) == t1
    requires Stepped(digest, Round(digest, w, tid, c, first).db, t1, c) == t2
    requires Stepped(digest, Round(digest, Round(digest, w, tid, c, first), tid, c, second).db, t2, c) == t3
    ensures var w3 := AtOpen(digest, w, tid, c, first, second, third);
      Evolves(w.db, w3.db) && tid in w3.threads && w3.threads[tid] == t3
  {
    var w1 := Round(digest, w, tid, c, first);
    var w2 := Round(digest, w1, tid, c, second);
    RoundLeads(digest, w, tid, c, first);
    RoundLeads(digest, w1, tid, c, second);
    RoundLeads(digest, w2, tid, c, third);
    EvolvesTransitive(w.db, w1.db, w2.db);
    EvolvesTransitive(w.db, w2.db, AtOpen(digest, w, tid, c, first, second, third).db);
  }

  lemma ChecksAndFetches(digest: Digest, w: World, tid: nat, call: Call, row: Row, c: Choice, first: seq<Act>, second: seq<Act>, third: seq<Act>)
    requires DbInv(w.db) && tid in w.threads && w.threads[tid] == Thread(call, VersionCheck) && call.OpenEvidence?
    requires Resume(digest, w.db, Thread(call, VersionCheck), c) == VersionFetch(row.reg)
    requires Resume(digest, Round(digest, w, tid, c, first).db, Thread(call, VersionFetch(row.reg)), c) == VersionAudit(row.reg, row.reg)
    requires Rests(tid, first) && Rests(tid, second) && Rests(tid, third)
    ensures var w3 := AtOpen(digest, w, tid, c, first, second, third);
      && Evolves(w.db, w3.db)
      && tid in w3.threads && w3.threads[tid] == Thread(call, VersionOpen(row.reg, row.reg))
  {
    ThreeRounds(digest, w, tid, Thread(call, VersionFetch(row.reg)), Thread(call, VersionAudit(row.reg, row.reg)),
                Thread(call, VersionOpen(row.reg, row.reg)), c, first, second, third);
  }

  lemma CleanStands(db: Db, db': Db, id: string, digest: string)
    requires Evolves(db, db') && id in db.rows && CleanVersion(db.rows[id], digest)
    ensures id in db'.rows && db'.rows[id] == db.rows[id]
  {}

  lemma CheckedIsClean(db: Db, gate: Gate, scope: Scope, id: string)
    requires CheckVersion(db, gate, scope, id).Ok?
    ensures id in db.rows && CheckVersion(db, gate, scope, id).value == db.rows[id] && CleanVersion(db.rows[id], gate.digest)
  {}

  /** Check-then-open: a call that passed its check, in whatever company, arrives at the open with the checked row's own key;
      the row is still that clean version, and the object is there. */
  lemma CheckedOpens(digest: Digest, acts: seq<Act>, tid: nat, call: Call, c: Choice, first: seq<Act>, second: seq<Act>, third: seq<Act>)
    requires var w := Reachable(digest, acts);
      && tid in w.threads && w.threads[tid] == Thread(call, VersionCheck) && call.OpenEvidence?
      && CheckVersion(w.db, call.gate, call.scope, call.id).Ok?
    requires Rests(tid, first) && Rests(tid, second) && Rests(tid, third)
    ensures var w := Reachable(digest, acts);
      var w3 := AtOpen(digest, w, tid, c, first, second, third);
      && call.id in w.db.rows && call.id in w3.db.rows && w3.db.rows[call.id] == w.db.rows[call.id]
      && CleanVersion(w3.db.rows[call.id], call.gate.digest)
      && tid in w3.threads && w3.threads[tid] == Thread(call, VersionOpen(w.db.rows[call.id].reg, w.db.rows[call.id].reg))
      && w.db.rows[call.id].reg.objectKey in w3.db.objects
  {
    var w := Reachable(digest, acts);
    var row := CheckVersion(w.db, call.gate, call.scope, call.id).value;
    ReachableDbInv(digest, acts, []);
    UploadedHasObject(digest, acts);
    RoundLeads(digest, w, tid, c, first);
    CheckStands(w.db, Round(digest, w, tid, c, first).db, call.gate, call.scope, call.id);
    CheckRuns(digest, w.db, w.threads[tid], c);
    FetchRuns(digest, Round(digest, w, tid, c, first).db, Thread(call, VersionFetch(row.reg)), c);
    ChecksAndFetches(digest, w, tid, call, row, c, first, second, third);
    CheckedIsClean(w.db, call.gate, call.scope, call.id);
    CleanStands(w.db, AtOpen(digest, w, tid, c, first, second, third).db, call.id, call.gate.digest);
    assert Arrived(w.db, call.id);
  }
}
