/** The INSTREAM session with clamd: the framing loop, the stream it must be read back as, and the verdict. */
module Clamd {
  import opened Text
  import opened Schema

  const BUFFER := 32768

  /** "zINSTREAM" and its terminating NUL. */
  const COMMAND: seq<byte> := [122, 73, 78, 83, 84, 82, 69, 65, 77, 0]

  /** The command's bytes are those of its text. */
  lemma CommandText()
    ensures |COMMAND| == |"zINSTREAM\0"| && forall i | 0 <= i < |COMMAND| :: COMMAND[i] == "zINSTREAM\0"[i] as int
  {}

  const TERMINATOR: seq<byte> := [0, 0, 0, 0]

  /** binary.BigEndian.PutUint32. */
  function BigEndian(n: nat): seq<byte>
    requires n < 0x1_0000_0000
  {
    [n / 0x100_0000, n / 0x1_0000 % 0x100, n / 0x100 % 0x100, n % 0x100]
  }

  function FromBigEndian(b: seq<byte>): nat
    requires |b| == 4
  {
    (b[0] as int) * 0x100_0000 + (b[1] as int) * 0x1_0000 + (b[2] as int) * 0x100 + (b[3] as int)
  }

  lemma BigEndianDecodes(n: nat)
    requires n < 0x1_0000_0000
    ensures FromBigEndian(BigEndian(n)) == n
  {
    var a, b := n / 0x100, n / 0x1_0000;
    assert n == a * 0x100 + n % 0x100;
    assert a == b * 0x100 + a % 0x100 && b == a / 0x100;
    assert b == b / 0x100 * 0x100 + b % 0x100 && n / 0x100_0000 == b / 0x100;
  }

  function Frame(chunk: seq<byte>): seq<byte>
    requires |chunk| < 0x1_0000_0000
  {
    BigEndian(|chunk|) + chunk
  }

  predicate Sized(chunks: seq<seq<byte>>) {
    forall c | c in chunks :: 0 < |c| <= BUFFER
  }

  function Stream(chunks: seq<seq<byte>>): seq<byte>
    requires Sized(chunks)
  {
    if chunks == [] then [] else Frame(chunks[0]) + Stream(chunks[1..])
  }

  function Flatten(chunks: seq<seq<byte>>): seq<byte> {
    if chunks == [] then [] else chunks[0] + Flatten(chunks[1..])
  }

  /** How clamd reads a stream: length-prefixed chunks up to a zero length, or an unfinished stream. */
  datatype Parsed = Complete(chunks: seq<seq<byte>>, rest: seq<byte>) | Truncated

  function Parse(wire: seq<byte>): Parsed {
    if |wire| < 4 then Truncated
    else
      var n := FromBigEndian(wire[..4]);
      if n == 0 then Complete([], wire[4..])
      else if |wire| < 4 + n then Truncated
      else
        match Parse(wire[4 + n..])
        case Complete(chunks, rest) => Complete([wire[4..4 + n]] + chunks, rest)
        case Truncated => Truncated
  }

  lemma ParseFrame(chunk: seq<byte>, tail: seq<byte>)
    requires 0 < |chunk| <= BUFFER
    ensures Parse(Frame(chunk) + tail) ==
      match Parse(tail)
      case Complete(chunks, rest) => Complete([chunk] + chunks, rest)
      case Truncated => Truncated
  {
    var wire := Frame(chunk) + tail;
    BigEndianDecodes(|chunk|);
    assert wire[..4] == BigEndian(|chunk|);
    assert wire[4..4 + |chunk|] == chunk && wire[4 + |chunk|..] == tail;
  }

  lemma ParseEnd(tail: seq<byte>)
    ensures Parse(TERMINATOR + tail) == Complete([], tail)
  {}

  /** Round trip: a terminated stream reads back as exactly its chunks, and only its own terminator ends it. */
  lemma {:induction false} StreamParses(chunks: seq<seq<byte>>, tail: seq<byte>)
    requires Sized(chunks)
    ensures Parse(Stream(chunks) + (TERMINATOR + tail)) == Complete(chunks, tail)
  {
    if chunks == [] {
      ParseEnd(tail);
      assert Stream(chunks) + (TERMINATOR + tail) == TERMINATOR + tail;
    } else {
      var later := Stream(chunks[1..]) + (TERMINATOR + tail);
      StreamParses(chunks[1..], tail);
      ParseFrame(chunks[0], later);
      assert Stream(chunks) + (TERMINATOR + tail) == Frame(chunks[0]) + later;
      assert [chunks[0]] + chunks[1..] == chunks;
    }
  }

  /** A session cut off anywhere before its terminator is complete is never read as a whole document. */
  lemma {:induction false} CutStreamTruncated(chunks: seq<seq<byte>>, wire: seq<byte>)
    requires Sized(chunks) && wire < Stream(chunks) + TERMINATOR
    ensures Parse(wire) == Truncated
  {
    if |wire| >= 4 {
      var whole := Stream(chunks) + TERMINATOR;
      if chunks != [] {
        var first, later := Frame(chunks[0]), Stream(chunks[1..]) + TERMINATOR;
        assert whole == first + later;
        assert wire == whole[..|wire|];
        assert wire[..4] == first[..4] == BigEndian(|chunks[0]|);
        BigEndianDecodes(|chunks[0]|);
        if |wire| >= |first| {
          assert wire[|first|..] == later[..|wire| - |first|];
          CutStreamTruncated(chunks[1..], wire[|first|..]);
        }
      }
    }
  }

  datatype End = More | Eof | ReadError

  /** One answer of io.Reader.Read: bytes, possibly none, possibly together with the end. */
  datatype Delivery = Delivery(data: seq<byte>, end: End)

  /** What a Read into a buffer of that capacity takes from the schedule, and what it leaves. */
  function NextRead(feed: seq<Delivery>, capacity: nat): (r: (Delivery, seq<Delivery>))
    ensures |r.0.data| <= capacity
  {
    if feed == [] then (Delivery([], Eof), [])
    else if |feed[0].data| > capacity then
      (Delivery(feed[0].data[..capacity], More), [Delivery(feed[0].data[capacity..], feed[0].end)] + feed[1..])
    else (feed[0], feed[1..])
  }

  /** The non-empty buffers the loop sees, up to the end or the error. */
  function Chunks(feed: seq<Delivery>): seq<seq<byte>>
    decreases |feed|, if feed == [] then 0 else |feed[0].data|
  {
    var (d, rest) := NextRead(feed, BUFFER);
    (if d.data == [] then [] else [d.data]) + (if d.end == More then Chunks(rest) else [])
  }

  /** The bytes the loop still has to write for a schedule: one frame for each non-empty Read. */
  function Owed(feed: seq<Delivery>): seq<byte>
    decreases |feed|, if feed == [] then 0 else |feed[0].data|
  {
    var (d, rest) := NextRead(feed, BUFFER);
    (if d.data == [] then [] else Frame(d.data)) + (if d.end == More then Owed(rest) else [])
  }

  /** The object's bytes, up to its end or the error. */
  function Payload(feed: seq<Delivery>): seq<byte> {
    if feed == [] then []
    else feed[0].data + if feed[0].end == More then Payload(feed[1..]) else []
  }

  function EndsWell(feed: seq<Delivery>): bool {
    feed == [] || feed[0].end == Eof || (feed[0].end == More && EndsWell(feed[1..]))
  }

  lemma Prepend(chunk: seq<byte>, chunks: seq<seq<byte>>)
    requires 0 < |chunk| <= BUFFER && Sized(chunks)
    ensures Sized([chunk] + chunks)
    ensures Stream([chunk] + chunks) == Frame(chunk) + Stream(chunks)
    ensures Flatten([chunk] + chunks) == chunk + Flatten(chunks)
  {}

  /** Splitting a large delivery loses nothing. */
  lemma PayloadPeel(feed: seq<Delivery>)
    ensures var (d, rest) := NextRead(feed, BUFFER);
      && Payload(feed) == d.data + (if d.end == More then Payload(rest) else [])
      && EndsWell(feed) == (d.end == Eof || (d.end == More && EndsWell(rest)))
  {}

  lemma {:induction false} ChunksSized(feed: seq<Delivery>)
    ensures Sized(Chunks(feed))
    decreases |feed|, if feed == [] then 0 else |feed[0].data|
  {
    var (d, rest) := NextRead(feed, BUFFER);
    if d.end == More { ChunksSized(rest); }
  }

  /** What the loop writes is the stream of its chunks, and its chunks hold the object's bytes. */
  lemma {:induction false} ChunksAreThePayload(feed: seq<Delivery>)
    ensures Sized(Chunks(feed)) && Stream(Chunks(feed)) == Owed(feed) && Flatten(Chunks(feed)) == Payload(feed)
    decreases |feed|, if feed == [] then 0 else |feed[0].data|
  {
    var (d, rest) := NextRead(feed, BUFFER);
    var later := if d.end == More then Chunks(rest) else [];
    if d.end == More { ChunksAreThePayload(rest); }
    ChunksSized(feed);
    PayloadPeel(feed);
    if d.data == [] {
      assert Chunks(feed) == later;
    } else {
      Prepend(d.data, later);
      assert Chunks(feed) == [d.data] + later;
    }
  }

  /** Framing is faithful: for every schedule of reads, short, empty, oversized or carrying data with the end, the stream of a
      finished session parses to exactly the object's bytes in chunks of 1 to 32768; of an unfinished one, to nothing. */
  lemma FramingFaithful(feed: seq<Delivery>, sent: seq<byte>)
    requires sent <= Owed(feed) + TERMINATOR
    ensures Sized(Chunks(feed)) && Flatten(Chunks(feed)) == Payload(feed)
    ensures Parse(sent) == if sent == Owed(feed) + TERMINATOR then Complete(Chunks(feed), []) else Truncated
  {
    ChunksAreThePayload(feed);
    if sent == Owed(feed) + TERMINATOR {
      StreamParses(Chunks(feed), []);
      assert Stream(Chunks(feed)) + (TERMINATOR + []) == sent;
    } else {
      CutStreamTruncated(Chunks(feed), sent);
    }
  }

  /** A body that serves these bytes: all of them if its reads end well, the beginning of them otherwise. */
  predicate Delivers(feed: seq<Delivery>, bytes: seq<byte>) {
    Payload(feed) <= bytes && (EndsWell(feed) ==> Payload(feed) == bytes)
  }

  /** clamd has got its command and then, read as INSTREAM, exactly these bytes and nothing after them. */
  predicate Received(sent: seq<byte>, bytes: seq<byte>) {
    && COMMAND <= sent
    && var parsed := Parse(sent[|COMMAND|..]);
       parsed.Complete? && parsed.rest == [] && Flatten(parsed.chunks) == bytes
  }

  /** A whole session of a body that ended well gives clamd the bytes the body serves. */
  lemma SessionReceived(feed: seq<Delivery>, bytes: seq<byte>)
    requires EndsWell(feed) && Delivers(feed, bytes)
    ensures Received(Session(feed), bytes)
  {
    var stream := Owed(feed) + TERMINATOR;
    FramingFaithful(feed, stream);
    Regroup(COMMAND, Owed(feed), TERMINATOR);
    HeadAndTail(COMMAND, stream);
  }

  lemma HeadAndTail(head: seq<byte>, tail: seq<byte>)
    ensures head <= head + tail && (head + tail)[|head|..] == tail
  {}

  /** The verdict of a response, and whether Scan also returns an error. */
  function Classify(response: string): Outcome {
    if HasSuffix(response, "OK") then CleanOutcome
    else if Contains(response, " FOUND") then InfectedOutcome
    else FailedOutcome
  }

  /** The response without its NUL and surrounding space. */
  function TrimResponse(raw: string): string {
    TrimSpace(Body(raw))
  }

  /** The reply ends in OK, but for space and a NUL. */
  ghost predicate SaysClean(reply: string) {
    exists p, t, z :: Spaces(t) && (z == "" || z == "\0") && reply == p + "OK" + t + z
  }

  /** The reply has FOUND after a space and something that is not space. */
  predicate NamesVirusAt(reply: string, i: nat) {
    StandsAt(reply, i, " FOUND") && !Spaces(reply[..i])
  }

  ghost predicate SaysInfected(reply: string) {
    !SaysClean(reply) && exists i: nat :: NamesVirusAt(reply, i)
  }

  /** The outcome is what the reply says: clean, infected, or neither and so failed. */
  ghost predicate Told(reply: string, outcome: Outcome) {
    && (outcome == CleanOutcome <==> SaysClean(reply))
    && (outcome == InfectedOutcome <==> SaysInfected(reply))
    && (outcome == FailedOutcome <==> !SaysClean(reply) && !SaysInfected(reply))
  }

  ghost predicate EndsInOK(body: string) {
    exists p, t :: Spaces(t) && body == p + "OK" + t
  }

  lemma TrimmedEndsInOK(body: string)
    ensures HasSuffix(TrimSpace(body), "OK") <==> EndsInOK(body)
  {
    var l, r := TrimParts(body);
    var m := TrimSpace(body);
    if HasSuffix(m, "OK") {
      assert m == m[..|m| - 2] + "OK";
      assert body == (l + m[..|m| - 2]) + "OK" + r;
    }
    if p, t :| Spaces(t) && body == p + "OK" + t {
      OKIsLast(body, p, t, l, m, r);
    }
  }

  lemma OKIsLast(body: string, p: string, t: string, l: string, m: string, r: string)
    requires body == p + "OK" + t == l + m + r && Spaces(t) && Spaces(l) && Spaces(r)
    requires m == "" || (!IsSpace(m[0]) && !IsSpace(m[|m| - 1]))
    ensures HasSuffix(m, "OK")
  {
    var o, k, last := |p|, |p| + 1, |l| + |m| - 1;
    assert body[o] == 'O' && body[k] == 'K';
    assert forall x | 0 <= x < |l| :: body[x] == l[x];
    assert forall x | |l| + |m| <= x < |body| :: body[x] == r[x - |l| - |m|];
    assert forall x | k < x < |body| :: body[x] == t[x - k - 1];
    assert |l| <= o && k <= last;
    assert body[last] == m[|m| - 1];
    assert m[|m| - 2] == body[o] && m[|m| - 1] == body[k];
    assert m[|m| - 2..] == "OK";
  }

  lemma TrimmedNamesVirus(body: string)
    ensures Contains(TrimSpace(body), " FOUND") <==> exists i: nat :: NamesVirusAt(body, i)
  {
    var l, r := TrimParts(body);
    var m := TrimSpace(body);
    ContainsExactly(m, " FOUND");
    if j: nat :| StandsAt(m, j, " FOUND") {
      VirusInBody(body, l, m, r, j);
    }
    if i: nat :| NamesVirusAt(body, i) {
      VirusInTrimmed(body, l, m, r, i);
    }
  }

  lemma VirusInBody(body: string, l: string, m: string, r: string, j: nat)
    requires body == l + m + r && StandsAt(m, j, " FOUND") && !IsSpace(m[0])
    ensures NamesVirusAt(body, |l| + j)
  {
    assert m[j] == m[j..j + 6][0] == ' ';
    assert body[|l| + j..|l| + j + 6] == m[j..j + 6];
    assert body[..|l| + j][|l|] == m[0];
  }

  lemma VirusInTrimmed(body: string, l: string, m: string, r: string, i: nat)
    requires body == l + m + r && Spaces(l) && Spaces(r) && NamesVirusAt(body, i)
    ensures exists j: nat :: StandsAt(m, j, " FOUND")
  {
    var k :| 0 <= k < i && !IsSpace(body[..i][k]);
    assert forall x | 0 <= x < |l| :: body[x] == l[x];
    assert forall x | |l| + |m| <= x < |body| :: body[x] == r[x - |l| - |m|];
    assert body[i + 5] == body[i..i + 6][5] == 'D';
    assert |l| <= k && i + 5 < |l| + |m|;
    assert m[i - |l|..i - |l| + 6] == body[i..i + 6];
    assert StandsAt(m, i - |l|, " FOUND");
  }

  /** What comes before a closing NUL, or all of it. */
  function Body(reply: string): string {
    if HasSuffix(reply, "\0") then reply[..|reply| - 1] else reply
  }

  lemma NulAside(reply: string)
    ensures EndsInOK(Body(reply)) <==> SaysClean(reply)
    ensures forall i: nat :: NamesVirusAt(Body(reply), i) <==> NamesVirusAt(reply, i)
  {
    var body := Body(reply);
    if p, t :| Spaces(t) && body == p + "OK" + t {
      assert reply == p + "OK" + t + (if HasSuffix(reply, "\0") then "\0" else "");
    }
    if p, t, z :| Spaces(t) && (z == "" || z == "\0") && reply == p + "OK" + t + z {
      assert z == "" ==> reply[|reply| - 1] == (if t == "" then 'K' else t[|t| - 1]);
      assert body == p + "OK" + t;
    }
    forall i: nat
      ensures NamesVirusAt(body, i) <==> NamesVirusAt(reply, i)
    {
      if i + 6 <= |reply| && reply[i..i + 6] == " FOUND" {
        assert reply[i + 5] == reply[i..i + 6][5] == 'D';
      }
      if i + 6 <= |body| {
        assert reply[i..i + 6] == body[i..i + 6] && reply[..i] == body[..i];
      }
    }
  }

  /** The verdict of any reply, in terms of the reply itself. */
  lemma ReplyTold(reply: string)
    ensures Told(reply, Classify(TrimResponse(reply)))
  {
    TrimmedEndsInOK(Body(reply));
    TrimmedNamesVirus(Body(reply));
    NulAside(reply);
  }

  /** Whatever clamd puts before it, OK means clean. */
  lemma OKMeansClean(p: string, outcome: Outcome)
    ensures Told(p + "OK", outcome) ==> outcome == CleanOutcome
    ensures Told(p + "OK\0", outcome) ==> outcome == CleanOutcome
  {
    assert Spaces("");
    assert p + "OK" == p + "OK" + "" + "" && p + "OK\0" == p + "OK" + "" + "\0";
  }

  /** A name, a space and FOUND mean infected; FOUND after nothing but space does not. */
  lemma FoundMeansInfected(p: string, q: string, outcome: Outcome)
    requires q == "" || q == "\0"
    ensures Told(p + " FOUND" + q, outcome) ==> outcome == if Spaces(p) then FailedOutcome else InfectedOutcome
  {
    var reply := p + " FOUND" + q;
    FoundIsNotOK(p, q);
    if Spaces(p) {
      forall i: nat ensures !NamesVirusAt(reply, i) { OnlyOneFound(p, q, i); }
    } else {
      assert reply[|p|..|p| + 6] == " FOUND" && reply[..|p|] == p;
      assert NamesVirusAt(reply, |p|);
    }
  }

  lemma OKEnding(body: string)
    requires EndsInOK(body)
    ensures body != "" && (body[|body| - 1] == 'K' || IsSpace(body[|body| - 1]))
  {
    var p, t :| Spaces(t) && body == p + "OK" + t;
    assert body[|body| - 1] == if t == "" then 'K' else t[|t| - 1];
  }

  lemma FoundIsNotOK(p: string, q: string)
    requires q == "" || q == "\0"
    ensures !SaysClean(p + " FOUND" + q)
  {
    var reply := p + " FOUND" + q;
    assert reply[|reply| - 1] == if q == "" then 'D' else '\0';
    assert q != "" ==> reply[|reply| - 1..] == "\0";
    assert Body(reply) == p + " FOUND";
    assert Body(reply)[|p| + 5] == 'D';
    NulAside(reply);
    if EndsInOK(Body(reply)) { OKEnding(Body(reply)); }
  }

  lemma OnlyOneFound(p: string, q: string, i: nat)
    requires Spaces(p) && (q == "" || q == "\0")
    ensures !NamesVirusAt(p + " FOUND" + q, i)
  {
    var reply := p + " FOUND" + q;
    if StandsAt(reply, i, " FOUND") {
      assert forall x | 0 <= x < |p| :: reply[x] == p[x];
      assert forall x | |p| < x < |reply| :: reply[x] != ' ';
      assert reply[i] == reply[i..i + 6][0] == ' ';
      assert reply[..i] == p[..i];
    }
  }

  /** A reply in which neither stands anywhere means failed. */
  lemma SilenceMeansFailed(reply: string, outcome: Outcome)
    requires forall i: nat :: !StandsAt(reply, i, "OK") && !StandsAt(reply, i, " FOUND")
    ensures Told(reply, outcome) ==> outcome == FailedOutcome
  {
    if p, t, z :| Spaces(t) && (z == "" || z == "\0") && reply == p + "OK" + t + z {
      assert reply[|p|..|p| + 2] == "OK";
      assert StandsAt(reply, |p|, "OK");
    }
  }

  /** An object body opened for reading. */
  class Content {
    var feed: seq<Delivery>

    constructor (schedule: seq<Delivery>)
      ensures feed == schedule
    {
      feed := schedule;
    }

    method Read(buf: array<byte>) returns (n: nat, end: End)
      modifies this, buf
      ensures var (d, rest) := NextRead(old(feed), buf.Length);
        feed == rest && end == d.end && n == |d.data| <= buf.Length && buf[..n] == d.data
    {
      var (d, rest) := NextRead(feed, buf.Length);
      n, end := |d.data|, d.end;
      forall i | 0 <= i < n { buf[i] := d.data[i]; }
      feed := rest;
    }
  }

  /** GetObject: a body over the object's bytes, cut into reads in any way, and perhaps breaking off. */
  method Serve(bytes: seq<byte>) returns (content: Content)
    ensures fresh(content) && Delivers(content.feed, bytes)
  {
    var feed: seq<Delivery> := *;
    if !Delivers(feed, bytes) {
      feed := [Delivery(bytes, Eof)];
    }
    content := new Content(feed);
  }

  /** The TCP connection: it takes bytes until it breaks, possibly in the middle of a write, and then takes none. */
  class Conn {
    var sent: seq<byte>
    var capacity: nat
    const reply: string
    const replyLost: bool

    constructor (capacity: nat, reply: string, replyLost: bool)
      ensures sent == [] && this.capacity == capacity && this.reply == reply && this.replyLost == replyLost
    {
      this.sent, this.capacity, this.reply, this.replyLost := [], capacity, reply, replyLost;
    }

    method Write(data: seq<byte>) returns (ok: bool)
      modifies this
      ensures ok == (|data| <= old(capacity))
      ensures ok ==> sent == old(sent) + data && capacity == old(capacity) - |data|
      ensures !ok ==> sent == old(sent) + data[..old(capacity)] && capacity == 0
    {
      ok := |data| <= capacity;
      if ok {
        sent, capacity := sent + data, capacity - |data|;
      } else {
        sent, capacity := sent + data[..capacity], 0;
      }
    }

    /** ReadString(0), unless the connection fails first. */
    method ReadReply() returns (response: string, ok: bool)
      ensures ok == !replyLost && response == reply
    {
      response, ok := reply, !replyLost;
    }
  }

  /** The whole session a schedule of reads asks for. */
  function Session(feed: seq<Delivery>): seq<byte> {
    COMMAND + Owed(feed) + TERMINATOR
  }

  lemma Regroup(before: seq<byte>, frame: seq<byte>, rest: seq<byte>)
    ensures before + (frame + rest) == (before + frame) + rest
  {}

  /** The two writes of one chunk: its big-endian length, then its bytes. */
  method WriteChunk(conn: Conn, chunk: seq<byte>) returns (ok: bool)
    requires 0 < |chunk| <= BUFFER
    modifies conn
    ensures ok == (|Frame(chunk)| <= old(conn.capacity))
    ensures ok ==> conn.sent == old(conn.sent) + Frame(chunk)
    ensures !ok ==> conn.sent <= old(conn.sent) + Frame(chunk)
    ensures conn.capacity == old(conn.capacity) + |old(conn.sent)| - |conn.sent|
  {
    ok := conn.Write(BigEndian(|chunk|));
    if ok {
      ok := conn.Write(chunk);
    }
  }

  /** One turn of the loop: a Read, and the frame of what it read. What was written plus what is still owed does not change. */
  method CopyRead(content: Content, conn: Conn, buf: array<byte>) returns (ok: bool, end: End)
    requires buf.Length == BUFFER
    modifies content, conn, buf
    ensures content.feed == NextRead(old(content.feed), BUFFER).1 && end == NextRead(old(content.feed), BUFFER).0.end
    ensures ok ==> old(conn.sent) + Owed(old(content.feed)) == conn.sent + if end == More then Owed(content.feed) else []
    ensures !ok ==> conn.sent <= old(conn.sent) + Owed(old(content.feed)) && old(conn.capacity) < |Owed(old(content.feed))|
    ensures conn.capacity == old(conn.capacity) + |old(conn.sent)| - |conn.sent|
  {
    ghost var before, ahead := conn.sent, Owed(content.feed);
    var n;
    n, end := content.Read(buf);
    ghost var frame := if n == 0 then [] else Frame(buf[..n]);
    ghost var rest := if end == More then Owed(content.feed) else [];
    assert ahead == frame + rest;
    Regroup(before, frame, rest);
    ok := true;
    if n > 0 {
      ok := WriteChunk(conn, buf[..n]);
    } else {
      assert before + frame == before;
    }
  }

  /** The loop: the object's bytes, frame by frame, to its end or the first failure. */
  method SendContent(content: Content, conn: Conn) returns (ok: bool, reason: string)
    modifies content, conn
    ensures ok ==> EndsWell(old(content.feed)) && conn.sent == old(conn.sent) + Owed(old(content.feed))
    ensures !ok ==>
      && conn.sent <= old(conn.sent) + Owed(old(content.feed))
      && (!EndsWell(old(content.feed)) || old(conn.capacity) < |Owed(old(content.feed))|)
    ensures conn.capacity == old(conn.capacity) + |old(conn.sent)| - |conn.sent|
  {
    ghost var feed, whole, capacity := content.feed, conn.sent + Owed(content.feed), conn.capacity + |conn.sent|;
    var buf := new byte[BUFFER](_ => 0);
    var done := false;
    while !done
      invariant whole == conn.sent + if done then [] else Owed(content.feed)
      invariant EndsWell(feed) == (done || EndsWell(content.feed))
      invariant conn.capacity == capacity - |conn.sent|
      decreases !done, |content.feed|, if content.feed == [] then 0 else |content.feed[0].data|
    {
      PayloadPeel(content.feed);
      var copied, end := CopyRead(content, conn, buf);
      if !copied {
        return false, "clamd stream failed";
      }
      if end == Eof {
        done := true;
      } else if end == ReadError {
        return false, "object read failed";
      }
    }
    return true, "";
  }

  /** A beginning of the first two parts is a beginning of all three. */
  lemma Cut(command: seq<byte>, frames: seq<byte>, end: seq<byte>, sent: seq<byte>)
    requires sent <= command || sent <= command + frames
    ensures sent <= command + frames + end
  {}

  /** The terminator, the reply and its verdict. */
  method Finish(conn: Conn) returns (outcome: Outcome, reason: string, err: bool)
    modifies conn
    ensures conn.sent <= old(conn.sent) + TERMINATOR
    ensures |TERMINATOR| <= old(conn.capacity) && !conn.replyLost ==>
      Told(conn.reply, outcome) && reason == TrimResponse(conn.reply)
    ensures outcome != FailedOutcome ==> conn.sent == old(conn.sent) + TERMINATOR && Told(conn.reply, outcome)
    ensures outcome == CleanOutcome || outcome == InfectedOutcome || outcome == FailedOutcome
    ensures err == (outcome == FailedOutcome)
  {
    var ok := conn.Write(TERMINATOR);
    if !ok {
      return FailedOutcome, "clamd finalize failed", true;
    }
    var response, received := conn.ReadReply();
    if !received {
      return FailedOutcome, "clamd response failed", true;
    }
    reason := TrimResponse(response);
    outcome := Classify(reason);
    ReplyTold(response);
    err := outcome == FailedOutcome;
  }

  /** Clamd.Scan on a fresh connection, or none when the dial failed. Whatever it returns, clamd has received the session of
      this object or a proper part of it; a verdict is only ever returned for a whole session, and the reply decides it. */
  method Scan(content: Content, conn: Conn?) returns (outcome: Outcome, reason: string, err: bool)
    requires conn != null ==> conn.sent == []
    modifies content, conn
    ensures conn != null ==> conn.sent <= Session(old(content.feed))
    ensures conn != null && EndsWell(old(content.feed)) && |Session(old(content.feed))| <= old(conn.capacity) && !conn.replyLost ==>
      Told(conn.reply, outcome) && reason == TrimResponse(conn.reply)
    ensures outcome != FailedOutcome ==>
      && conn != null && EndsWell(old(content.feed)) && conn.sent == Session(old(content.feed))
      && Told(conn.reply, outcome)
    ensures outcome == CleanOutcome || outcome == InfectedOutcome || outcome == FailedOutcome
    ensures err == (outcome == FailedOutcome)
  {
    ghost var feed := content.feed;
    if conn == null {
      return FailedOutcome, "clamd unavailable", true;
    }
    var ok := conn.Write(COMMAND);
    if !ok {
      Cut(COMMAND, Owed(feed), TERMINATOR, conn.sent);
      return FailedOutcome, "clamd command failed", true;
    }
    ok, reason := SendContent(content, conn);
    if !ok {
      Cut(COMMAND, Owed(feed), TERMINATOR, conn.sent);
      return FailedOutcome, reason, true;
    }
    outcome, reason, err := Finish(conn);
  }
}
