/** Runs from the empty database that show where the service's promises end: each exists for every workable request. */
module Witnesses {
  import opened Schema
  import opened Access
  import opened Statements
  import opened Creation
  import opened Calls
  import opened Threads
  import opened Steps
  import opened Audit
  import opened Leases
  import opened Idempotency
  import opened Scanning
  import opened Runs
  import opened Evidence

  /** One row, at most one object, which is at the row's key, no time passed, and threads numbered below next. */
  predicate Stage(w: World, row: Row, content: Option<StoredObject>, next: nat) {
    && w.db.rows == map[row.reg.id := row] && w.db.now == 0
    && w.db.objects == (if content.Some? then map[row.reg.objectKey := content.value] else map[])
    && forall tid | tid in w.threads :: tid < next
  }

  /** A request that can be carried through: accepted, in one of the five environments, by a caller who may complete it, for
      content of the declared length and digest metadata; the bytes are any. */
  predicate Workable(scope: Scope, input: CreateInput, c: Choice, content: StoredObject) {
    && Prepare(scope, input).Ok? && Prepare(scope, input).value.scope.environment in ENVIRONMENTS
    && CreatorMayComplete(scope, input) && c.partyExists && c.pick == c.id && c.readable
    && |content.bytes| == input.size && content.sha256 == Prepare(scope, input).value.input.sha256
  }

  function CreatedRow(scope: Scope, input: CreateInput, c: Choice): Row
    requires Prepare(scope, input).Ok?
  {
    FreshRow(Register(Prepare(scope, input).value, c.id, 0), c.ttl)
  }

  function QuarantinedRow(row: Row): Row {
    row.(status := Quarantined, uploadedAt := Some(0), updatedAt := 0)
  }

  function ClaimedRow(row: Row): Row {
    row.(scan := Scanning, attempts := row.attempts + 1, lease := Some(LEASE), updatedAt := 0)
  }

  function FailedRow(row: Row): Row {
    row.(scan := Failed, status := Quarantined, lease := None, updatedAt := 0)
  }

  function CleanRow(row: Row): Row {
    row.(scan := Clean, status := Available, lease := None, updatedAt := 0)
  }

  lemma FirstInsert(r: Request, c: Choice)
    requires CheckConstraints(Register(r, c.id, 0))
    ensures KeyFree(EMPTY_DB, r)
    ensures var db := Inserting(EMPTY_DB, r, c);
      db.rows == map[c.id := FreshRow(Register(r, c.id, 0), c.ttl)] && db.objects == map[] && db.now == 0
  {}

  lemma RunToCreated(digest: Digest, scope: Scope, input: CreateInput, c: Choice) returns (acts: seq<Act>)
    requires Prepare(scope, input).Ok? && Prepare(scope, input).value.scope.environment in ENVIRONMENTS && c.partyExists
    ensures Stage(Reachable(digest, acts), CreatedRow(scope, input, c), None, 1)
  {
    AcceptedMeetsChecks(scope, input, c.id, 0);
    FirstInsert(Prepare(scope, input).value, c);
    acts := RunCreate(digest, [], 0, scope, input, c);
  }

  lemma RunPut(digest: Digest, acts: seq<Act>, row: Row, before: Option<StoredObject>, content: StoredObject, next: nat)
    requires Stage(Reachable(digest, acts), row, before, next)
    ensures var w := Reachable(digest, acts + [ClientPut(row.reg.objectKey, content)]);
      Stage(w, row, Some(content), next) && w.threads == Reachable(digest, acts).threads
  {
    Put(digest, acts, row.reg.objectKey, content);
  }

  lemma RunComplete(digest: Digest, acts: seq<Act>, row: Row, content: StoredObject, scope: Scope, within: Partition, c: Choice)
      returns (acts': seq<Act>)
    requires Stage(Reachable(digest, acts), row, Some(content), 1) && row.status == PendingUpload
    requires |content.bytes| == row.reg.size && content.sha256 == row.reg.sha256
    requires PlanCompletion(Reachable(digest, acts).db, scope, row.reg.id) == Ok((row, within)) && Within(row.reg, within)
    ensures var w := Reachable(digest, acts');
      && Stage(w, QuarantinedRow(row), Some(content), 2)
      && 1 in w.threads && w.threads[1] == Thread(Complete(scope, row.reg.id), CompleteAudit)
  {
    var w, call := Reachable(digest, acts), Complete(scope, row.reg.id);
    Join(digest, acts, 1, call);
    acts' := acts + [Spawn(1, call)];
    CompleteGetRuns(digest, w.db, Thread(call, CompleteGet), c);
    Look(digest, acts', w, 1, Thread(call, CompleteGet), c);
    acts' := acts' + [Step(1, c)];
    acts' := RunUpdate(digest, acts', w, call, row, within, c);
  }

  lemma LoneQuarantine(db: Db, row: Row, within: Partition)
    requires db.rows == map[row.reg.id := row] && db.now == 0 && row.status == PendingUpload && Within(row.reg, within)
    ensures Quarantinable(db, row.reg.id, within)
    ensures Exec(db, Stmt.Quarantine(row.reg.id, within)).rows == map[row.reg.id := QuarantinedRow(row)]
  {}

  lemma RunUpdate(digest: Digest, acts: seq<Act>, w: World, call: Call, row: Row, within: Partition, c: Choice) returns (acts': seq<Act>)
    requires With(digest, acts, w, 1, Thread(call, CompleteVerify(row.reg, within))) && Verified(w.db, row.reg)
    requires w.db.rows == map[row.reg.id := row] && w.db.now == 0 && row.status == PendingUpload && Within(row.reg, within)
    ensures With(digest, acts', World(Exec(w.db, Stmt.Quarantine(row.reg.id, within)), w.threads), 1, Thread(call, CompleteAudit))
    ensures Exec(w.db, Stmt.Quarantine(row.reg.id, within)).rows == map[row.reg.id := QuarantinedRow(row)]
  {
    VerifyRuns(digest, w.db, Thread(call, CompleteVerify(row.reg, within)), c);
    Look(digest, acts, w, 1, Thread(call, CompleteVerify(row.reg, within)), c);
    LoneQuarantine(w.db, row, within);
    QuarantineRuns(digest, w.db, Thread(call, CompleteUpdate(row.reg, within)), c);
    Go(digest, acts + [Step(1, c)], w, 1, Thread(call, CompleteUpdate(row.reg, within)), c);
    acts' := acts + [Step(1, c)] + [Step(1, c)];
  }

  /** A Create, a PUT and a Complete whose audit event is still to come. */
  lemma RunToQuarantine(digest: Digest, scope: Scope, input: CreateInput, c: Choice, content: StoredObject) returns (acts: seq<Act>)
    requires Workable(scope, input, c, content)
    ensures var w := Reachable(digest, acts);
      && Stage(w, QuarantinedRow(CreatedRow(scope, input, c)), Some(content), 2)
      && 1 in w.threads && w.threads[1] == Thread(Complete(scope, c.id), CompleteAudit)
  {
    var row := CreatedRow(scope, input, c);
    assert Prepare(scope, input).value.input == Normalise(input);
    acts := RunToCreated(digest, scope, input, c);
    RunPut(digest, acts, row, None, content, 1);
    acts := acts + [ClientPut(row.reg.objectKey, content)];
    var db := Reachable(digest, acts).db;
    CreateThenComplete(scope, input, c.id, 0, db);
    acts := RunComplete(digest, acts, row, content, scope, PlanCompletion(db, scope, c.id).value.1, c);
  }

  /** A death between a transition and its event loses the event: for every workable request a run ends with the document in
      quarantine, nothing in the log about it, and nobody left to write it. */
  lemma LostEventRun(digest: Digest, scope: Scope, input: CreateInput, c: Choice, content: StoredObject) returns (acts: seq<Act>)
    requires Workable(scope, input, c, content)
    ensures Passed(Reachable(digest, acts).db, Landmark(c.id, false)) && !Reported(Reachable(digest, acts), Landmark(c.id, false))
  {
    var before := RunToQuarantine(digest, scope, input, c, content);
    var m := Landmark(c.id, false);
    acts := before + [Stop(1)];
    Extend(digest, before, Stop(1));
    assert acts[..|before|] == before;
    assert LosesAt(digest, acts, |before|, m);
    ReportedUnlessLost(digest, acts, m);
  }

  /** Complete does not look at bytes: whatever bytes of the declared length lie at the key under the declared digest as
      metadata, the document arrives in quarantine, matching or not. */
  lemma UnmatchedBytesRun(digest: Digest, scope: Scope, input: CreateInput, c: Choice, content: StoredObject) returns (acts: seq<Act>)
    requires Workable(scope, input, c, content)
    ensures var db := Reachable(digest, acts).db;
      && Arrived(db, c.id) && db.rows[c.id].reg.objectKey in db.objects && db.objects[db.rows[c.id].reg.objectKey] == content
      && (digest(content.bytes) != content.sha256 ==> !Declared(digest, db.rows[c.id].reg, content.bytes))
  {
    acts := RunToQuarantine(digest, scope, input, c, content);
  }

  lemma LoneClaim(db: Db, row: Row)
    requires db.rows == map[row.reg.id := row] && db.now == 0 && row.status == Quarantined && row.attempts < MAX_ATTEMPTS
    requires row.scan == Pending || row.scan == Failed
    ensures Oldest(db, row.reg.id)
    ensures Exec(db, ClaimOldest(row.reg.id)).rows == map[row.reg.id := ClaimedRow(row)]
  {}

  /** A worker claims the document. */
  lemma RunClaim(digest: Digest, acts: seq<Act>, row: Row, content: Option<StoredObject>, c: Choice) returns (acts': seq<Act>)
    requires Stage(Reachable(digest, acts), row, content, 2) && c.pick == row.reg.id
    requires row.status == Quarantined && row.scan == Pending && row.attempts == 0
    ensures var w := Reachable(digest, acts');
      && Stage(w, ClaimedRow(row), content, 3) && 2 in w.threads && w.threads[2] == Thread(ProcessOne, ScanOpen(row.reg, LEASE))
  {
    var w := Reachable(digest, acts);
    Join(digest, acts, 2, ProcessOne);
    LoneClaim(w.db, row);
    ClaimHits(digest, w.db, ProcessOne, c);
    Go(digest, acts + [Spawn(2, ProcessOne)], w, 2, Thread(ProcessOne, ScanClaim), c);
    acts' := acts + [Spawn(2, ProcessOne)] + [Step(2, c)];
  }

  /** For every workable request a run leads to a worker about to open its document. */
  lemma RunToClaimed(digest: Digest, scope: Scope, input: CreateInput, c: Choice, content: StoredObject) returns (acts: seq<Act>)
    requires Workable(scope, input, c, content)
    ensures var (w, row) := (Reachable(digest, acts), QuarantinedRow(CreatedRow(scope, input, c)));
      && Stage(w, ClaimedRow(row), Some(content), 3) && 2 in w.threads && w.threads[2] == Thread(ProcessOne, ScanOpen(row.reg, LEASE))
  {
    acts := RunToQuarantine(digest, scope, input, c, content);
    acts := RunClaim(digest, acts, QuarantinedRow(CreatedRow(scope, input, c)), Some(content), c);
  }

  predicate BothScan(w: World, i: nat, j: nat, id: string) {
    && i != j && i in w.threads && j in w.threads && HoldOf(w.threads[i]).Some? && HoldOf(w.threads[j]).Some?
    && HoldOf(w.threads[i]).value.id == id && HoldOf(w.threads[j]).value.id == id
  }

  lemma RunSecondWorker(digest: Digest, acts: seq<Act>, i: nat, q: nat, c: Choice) returns (acts': seq<Act>)
    requires var w := Reachable(digest, acts);
      && i in w.threads && HoldOf(w.threads[i]).Some? && Keyed(w.db) && q !in w.threads
      && c.pick == HoldOf(w.threads[i]).value.id && Oldest(w.db, c.pick)
    ensures BothScan(Reachable(digest, acts'), i, q, c.pick) && Reachable(digest, acts').db.now == Reachable(digest, acts).db.now
  {
    var w := Reachable(digest, acts);
    Join(digest, acts, q, ProcessOne);
    ClaimHits(digest, w.db, ProcessOne, c);
    Go(digest, acts + [Spawn(q, ProcessOne)], w, q, Thread(ProcessOne, ScanClaim), c);
    acts' := acts + [Spawn(q, ProcessOne)] + [Step(q, c)];
  }

  lemma LoneExpiry(db: Db, row: Row)
    requires db.rows == map[row.reg.id := ClaimedRow(row)] && db.now == 0 && row.status == Quarantined && row.attempts == 0
    ensures Oldest(Exec(db, Tick(LEASE + 1)), row.reg.id) && Keyed(Exec(db, Tick(LEASE + 1)))
  {}

  /** Exclusion is out of reach without the timing assumption: every workable request has a run with two scanners after which
      both scan its document. */
  lemma OverlapRun(digest: Digest, scope: Scope, input: CreateInput, c: Choice, content: StoredObject) returns (acts: seq<Act>)
    requires Workable(scope, input, c, content)
    ensures BothScan(Reachable(digest, acts), 2, 3, c.id)
  {
    var before := RunToClaimed(digest, scope, input, c, content);
    LoneExpiry(Reachable(digest, before).db, QuarantinedRow(CreatedRow(scope, input, c)));
    Extend(digest, before, Elapse(LEASE + 1));
    acts := RunSecondWorker(digest, before + [Elapse(LEASE + 1)], 2, 3, c);
  }

  lemma LoneFailure(db: Db, row: Row, within: Partition)
    requires db.rows == map[row.reg.id := ClaimedRow(row)] && db.now == 0 && row.status == Quarantined && row.attempts == 0
    requires Within(row.reg, within)
    ensures var db' := Exec(db, RecordVerdict(row.reg.id, within, FailedOutcome));
      && db'.rows == map[row.reg.id := FailedRow(ClaimedRow(row))] && db'.now == 0
      && Oldest(db', row.reg.id) && Keyed(db')
  {}

  /** A posted failure frees the document. */
  lemma RunFailure(digest: Digest, acts: seq<Act>, row: Row, content: StoredObject, by_: Scope, c: Choice) returns (acts': seq<Act>)
    requires Stage(Reachable(digest, acts), ClaimedRow(row), Some(content), 3) && row.status == Quarantined && row.attempts == 0
    requires Within(row.reg, Partition(by_.tenant, by_.environment)) && 2 in Reachable(digest, acts).threads
    ensures var w := Reachable(digest, acts');
      && Oldest(w.db, row.reg.id) && Keyed(w.db) && w.db.now == 0 && 2 in w.threads && w.threads[2] == Reachable(digest, acts).threads[2]
      && forall tid | tid in w.threads :: tid < 4
  {
    var w, call := Reachable(digest, acts), RecordScan(by_, row.reg.id, FailedOutcome);
    Join(digest, acts, 3, call);
    LoneFailure(w.db, row, Partition(by_.tenant, by_.environment));
    RecordRuns(digest, w.db, Thread(call, RecordUpdate(by_, row.reg.id, FailedOutcome, None)), c);
    Go(digest, acts + [Spawn(3, call)], w, 3, Thread(call, RecordUpdate(by_, row.reg.id, FailedOutcome, None)), c);
    acts' := acts + [Spawn(3, call)] + [Step(3, c)];
  }

  /** Nor without excluding posted failures: every workable request has a run in which no time passes and a posted "failed"
      result lets a second scanner in beside the first. */
  lemma FreedOverlapRun(digest: Digest, scope: Scope, input: CreateInput, c: Choice, content: StoredObject, by_: Scope) returns (acts: seq<Act>)
    requires Workable(scope, input, c, content)
    requires Within(CreatedRow(scope, input, c).reg, Partition(by_.tenant, by_.environment))
    ensures BothScan(Reachable(digest, acts), 2, 4, c.id) && Reachable(digest, acts).db.now == 0
  {
    acts := RunToClaimed(digest, scope, input, c, content);
    acts := RunFailure(digest, acts, QuarantinedRow(CreatedRow(scope, input, c)), content, by_, c);
    acts := RunSecondWorker(digest, acts, 2, 4, c);
  }

  /** The worker opens the object it finds. */
  lemma RunScanOpen(digest: Digest, acts: seq<Act>, row: Row, content: StoredObject, c: Choice)
    requires var w := Reachable(digest, acts);
      Stage(w, row, Some(content), 3) && 2 in w.threads && w.threads[2] == Thread(ProcessOne, ScanOpen(row.reg, LEASE)) && c.readable
    ensures var w := Reachable(digest, acts + [Step(2, c)]);
      && Stage(w, row, Some(content), 3)
      && 2 in w.threads && w.threads[2] == Thread(ProcessOne, ScanStream(row.reg, Work(LEASE, content.bytes)))
    ensures OpenedAt(digest, acts + [Step(2, c)], |acts|, 2, row.reg, content.bytes)
  {
    var w := Reachable(digest, acts);
    assert w.threads[2 := w.threads[2]] == w.threads;
    OpenForScanRuns(digest, w.db, w.threads[2], c);
    Look(digest, acts, w, 2, w.threads[2], c);
    assert (acts + [Step(2, c)])[..|acts|] == acts;
  }

  lemma LoneVerdict(db: Db, row: Row, s: Scope)
    requires db.rows == map[row.reg.id := row] && db.now == 0 && row.status == Quarantined && row.scan == Scanning
    requires Within(row.reg, Partition(s.tenant, s.environment))
    ensures var within := Partition(s.tenant, s.environment);
      && Recordable(db, row.reg.id, within)
      && Exec(db, RecordVerdict(row.reg.id, within, CleanOutcome)).rows == map[row.reg.id := CleanRow(row)]
  {}

  /** clamd finds nothing, and the worker records it. */
  lemma RunVerdict(digest: Digest, acts: seq<Act>, row: Row, content: StoredObject, work: Work, c: Choice) returns (acts': seq<Act>)
    requires var w := Reachable(digest, acts);
      && Stage(w, row, Some(content), 3) && 2 in w.threads && w.threads[2] == Thread(ProcessOne, ScanStream(row.reg, work))
      && row.status == Quarantined && row.scan == Scanning && c.outcome == CleanOutcome
    ensures acts <= acts' && Stage(Reachable(digest, acts'), CleanRow(row), Some(content), 3)
    ensures RuledAt(digest, acts', |acts| + 1, row.reg.id, CleanOutcome, Some(work))
  {
    var w, by_ := Reachable(digest, acts), ScannerScope(row.reg);
    var t := Thread(ProcessOne, RecordUpdate(by_, row.reg.id, CleanOutcome, Some(work)));
    assert w.threads[2 := w.threads[2]] == w.threads;
    DeliverRuns(digest, w.db, w.threads[2], c);
    Look(digest, acts, w, 2, w.threads[2], c);
    var between := acts + [Step(2, c)];
    LoneVerdict(w.db, row, by_);
    RecordRuns(digest, w.db, t, c);
    Go(digest, between, w, 2, t, c);
    acts' := between + [Step(2, c)];
    assert acts'[..|acts| + 1] == between;
  }

  lemma RowsDecide(db: Db, db': Db, gate: Gate, scope: Scope, id: string)
    requires db.rows == db'.rows
    ensures CheckVersion(db, gate, scope, id) == CheckVersion(db', gate, scope, id)
    ensures FetchVersion(db, gate, scope, id) == FetchVersion(db', gate, scope, id)
  {}

  lemma LonePasses(db: Db, row: Row, gate: Gate, reader: Scope)
    requires db.rows == map[row.reg.id := row] && CheckVersion(Db(map[row.reg.id := row], [], map[], 0), gate, reader, row.reg.id).Ok?
    ensures CheckVersion(db, gate, reader, row.reg.id) == Ok(row) && FetchVersion(db, gate, reader, row.reg.id) == Ok(row)
  {
    var lone := Db(map[row.reg.id := row], [], map[], 0);
    CheckStands(lone, lone, gate, reader, row.reg.id);
    RowsDecide(lone, db, gate, reader, row.reg.id);
  }

  lemma RunChecked(digest: Digest, acts: seq<Act>, w: World, row: Row, reader: Scope, gate: Gate, c: Choice) returns (w': World)
    requires With(digest, acts, w, 3, Thread(OpenEvidence(reader, row.reg.id, gate), VersionCheck))
    requires CheckVersion(w.db, gate, reader, row.reg.id) == Ok(row)
    ensures With(digest, acts + [Step(3, c)], w', 3, Thread(OpenEvidence(reader, row.reg.id, gate), VersionFetch(row.reg)))
    ensures w'.db.rows == w.db.rows && w'.db.objects == w.db.objects
  {
    var t := Thread(OpenEvidence(reader, row.reg.id, gate), VersionCheck);
    CheckRuns(digest, w.db, t, c);
    Go(digest, acts, w, 3, t, c);
    w' := World(Exec(w.db, Issue(w.db, t, c)), w.threads);
  }

  lemma JoinReader(digest: Digest, acts: seq<Act>, row: Row, content: StoredObject, reader: Scope, gate: Gate)
    requires Stage(Reachable(digest, acts), row, Some(content), 3)
    ensures var (w, call) := (Reachable(digest, acts), OpenEvidence(reader, row.reg.id, gate));
      && With(digest, acts + [Spawn(3, call)], w, 3, Thread(call, VersionCheck))
      && w.db.rows == map[row.reg.id := row] && w.db.objects == map[row.reg.objectKey := content]
  {
    Join(digest, acts, 3, OpenEvidence(reader, row.reg.id, gate));
  }

  /** A reader that passes the check is streamed what lies at the key. */
  lemma RunStream(digest: Digest, acts: seq<Act>, row: Row, content: StoredObject, reader: Scope, gate: Gate, c: Choice) returns (acts': seq<Act>)
    requires Stage(Reachable(digest, acts), row, Some(content), 3)
    requires CheckVersion(Db(map[row.reg.id := row], [], map[], 0), gate, reader, row.reg.id).Ok?
    ensures acts <= acts'
    ensures var w := Reachable(digest, acts');
      3 in w.threads && w.threads[3].pc == Done(Streamed(row.reg, row.reg.objectKey, content))
  {
    JoinReader(digest, acts, row, content, reader, gate);
    var begun := acts + [Spawn(3, OpenEvidence(reader, row.reg.id, gate))];
    acts' := RunFromCheck(digest, begun, Reachable(digest, acts), row, content, reader, gate, c);
  }

  lemma RunFromCheck(digest: Digest, acts: seq<Act>, w: World, row: Row, content: StoredObject, reader: Scope, gate: Gate, c: Choice)
      returns (acts': seq<Act>)
    requires With(digest, acts, w, 3, Thread(OpenEvidence(reader, row.reg.id, gate), VersionCheck))
    requires w.db.rows == map[row.reg.id := row] && w.db.objects == map[row.reg.objectKey := content]
    requires CheckVersion(Db(map[row.reg.id := row], [], map[], 0), gate, reader, row.reg.id).Ok?
    ensures acts <= acts'
    ensures var w' := Reachable(digest, acts');
      3 in w'.threads && w'.threads[3].pc == Done(Streamed(row.reg, row.reg.objectKey, content))
  {
    LonePasses(w.db, row, gate, reader);
    var w1 := RunChecked(digest, acts, w, row, reader, gate, c);
    RowsDecide(w.db, w1.db, gate, reader, row.reg.id);
    acts' := RunFetched(digest, acts + [Step(3, c)], w1, row, content, reader, gate, c);
  }

  lemma RunFetched(digest: Digest, acts: seq<Act>, w: World, row: Row, content: StoredObject, reader: Scope, gate: Gate, c: Choice)
      returns (acts': seq<Act>)
    requires With(digest, acts, w, 3, Thread(OpenEvidence(reader, row.reg.id, gate), VersionFetch(row.reg)))
    requires w.db.rows == map[row.reg.id := row] && w.db.objects == map[row.reg.objectKey := content]
    requires FetchVersion(w.db, gate, reader, row.reg.id) == Ok(row)
    ensures acts <= acts'
    ensures var w' := Reachable(digest, acts');
      3 in w'.threads && w'.threads[3].pc == Done(Streamed(row.reg, row.reg.objectKey, content))
  {
    var call := OpenEvidence(reader, row.reg.id, gate);
    FetchRuns(digest, w.db, Thread(call, VersionFetch(row.reg)), c);
    Look(digest, acts, w, 3, Thread(call, VersionFetch(row.reg)), c);
    acts' := acts + [Step(3, c)];
    acts' := RunReported(digest, acts', w, call, row.reg, content, c);
  }

  lemma RunReported(digest: Digest, acts: seq<Act>, w: World, call: Call, reg: Registration, content: StoredObject, c: Choice)
      returns (acts': seq<Act>)
    requires With(digest, acts, w, 3, Thread(call, VersionAudit(reg, reg))) && call.OpenEvidence?
    requires w.db.objects == map[reg.objectKey := content]
    ensures acts <= acts'
    ensures var w' := Reachable(digest, acts');
      3 in w'.threads && w'.threads[3].pc == Done(Streamed(reg, reg.objectKey, content))
  {
    var t := Thread(call, VersionAudit(reg, reg));
    OpenReportRuns(digest, w.db, t, c);
    Go(digest, acts, w, 3, t, c);
    var w1 := World(Exec(w.db, Issue(w.db, t, c)), w.threads);
    acts' := acts + [Step(3, c)];
    OpenRuns(digest, w1.db, Thread(call, VersionOpen(reg, reg)), c);
    Look(digest, acts', w1, 3, Thread(call, VersionOpen(reg, reg)), c);
    acts' := acts' + [Step(3, c)];
  }

  /** The document as it is once a worker has found it clean. */
  function PassedRow(scope: Scope, input: CreateInput, c: Choice): Row
    requires Prepare(scope, input).Ok?
  {
    CleanRow(ClaimedRow(QuarantinedRow(CreatedRow(scope, input, c))))
  }

  /** Up to the clean verdict, with a client's PUT between the worker's open and it. */
  lemma RunToSwapped(digest: Digest, scope: Scope, input: CreateInput, c: Choice, content: StoredObject, other: StoredObject)
      returns (acts: seq<Act>, from: nat, verdict: nat)
    requires Workable(scope, input, c, content) && c.outcome == CleanOutcome
    ensures var (w, row) := (Reachable(digest, acts), PassedRow(scope, input, c));
      && Stage(w, row, Some(other), 3)
      && OpenedAt(digest, acts, from, 2, row.reg, content.bytes)
      && RuledAt(digest, acts, verdict, c.id, CleanOutcome, Some(Work(LEASE, content.bytes)))
  {
    var row := ClaimedRow(QuarantinedRow(CreatedRow(scope, input, c)));
    var claimed := RunToClaimed(digest, scope, input, c, content);
    RunScanOpen(digest, claimed, row, content, c);
    var started := claimed + [Step(2, c)];
    RunPut(digest, started, row, Some(content), other, 3);
    var swapped := started + [ClientPut(row.reg.objectKey, other)];
    acts := RunVerdict(digest, swapped, row, other, Work(LEASE, content.bytes), c);
    from, verdict := |claimed|, |swapped| + 1;
    OpenedAtGrows(digest, started, acts, from, 2, row.reg, content.bytes);
  }

  /** What is streamed need not be what was scanned: with a presigned PUT after the worker's open, every workable request and
      every reader who may read the clean document have a run in which clamd passes one object and the reader gets another. */
  lemma UnscannedStreamRun(digest: Digest, scope: Scope, input: CreateInput, c: Choice, content: StoredObject, other: StoredObject,
                           reader: Scope, gate: Gate)
      returns (acts: seq<Act>, from: nat, verdict: nat)
    requires Workable(scope, input, c, content) && c.outcome == CleanOutcome
    requires CheckVersion(Db(map[c.id := PassedRow(scope, input, c)], [], map[], 0), gate, reader, c.id).Ok?
    ensures OpenedAt(digest, acts, from, 2, PassedRow(scope, input, c).reg, content.bytes)
    ensures RuledAt(digest, acts, verdict, c.id, CleanOutcome, Some(Work(LEASE, content.bytes)))
    ensures var w := Reachable(digest, acts);
      3 in w.threads && w.threads[3].pc == Done(Streamed(PassedRow(scope, input, c).reg, PassedRow(scope, input, c).reg.objectKey, other))
  {
    var row := PassedRow(scope, input, c);
    var before;
    before, from, verdict := RunToSwapped(digest, scope, input, c, content, other);
    acts := RunStream(digest, before, row, other, reader, gate, c);
    OpenedAtGrows(digest, before, acts, from, 2, row.reg, content.bytes);
    RuledAtGrows(digest, before, acts, verdict, c.id, CleanOutcome, Some(Work(LEASE, content.bytes)));
  }
}
