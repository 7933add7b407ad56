/** The client's network layer (client.c): the enable gate, the partial-write
    send loop, the integer message encoders, and the bounded inbound line
    queue that the receive thread fills and the application drains.

    The process-wide statics of client.c (client_enabled, recv_buffer) become
    the fields of one Client object; each mutex-protected region is one
    method. The socket's send() is a parameter, and the bytes it accepted are
    recorded in the ordinary field `wire`. */
module CraftClient {
  import opened Text
  import opened Decimal

  /** Capacity of recv_buffer, including its terminating NUL. */
  const QUEUE_SIZE := 65536
  /** Size of the encoders' snprintf buffer. */
  const LINE_SIZE := 1024
  const NUL: char := 0 as char

  /** C's int. */
  newtype int32 = x: int | -0x8000_0000 <= x < 0x8000_0000

  // ---------------------------------------------------------------------------
  // Sending

  /** The transport's send(): given the bytes offered, the number of bytes it
      wrote, or -1. Within one client_sendall every call is offered a shorter
      suffix of the data than the one before, so the bytes offered tell the
      calls apart. */
  type SendOracle = string -> int

  /** send() on a blocking stream socket writes at least one of the bytes
      offered, or fails. */
  ghost predicate WellBehaved(send: SendOracle)
  {
    forall s: string :: |s| > 0 ==> send(s) == -1 || 1 <= send(s) <= |s|
  }

  /** What a send loop returns (0 or -1) and how many bytes it got written. */
  datatype SendOutcome = SendOutcome(status: int, count: nat)

  /** The loop of client_sendall as written: `count` bytes are sent and
      `length` remain, and the loop runs only while count < length. It
      therefore stops as soon as at least half of the data is out. */
  function SendLoop(data: string, send: SendOracle, count: nat, length: nat): (r: SendOutcome)
    requires WellBehaved(send) && count + length == |data|
    ensures r.status == 0 || r.status == -1
    ensures count <= r.count <= |data|
    ensures r.status == 0 ==> 2 * r.count >= |data|
    ensures r.status == -1 ==> r.count < |data| && send(data[r.count..]) == -1
    ensures (forall s: string :: |s| > 0 ==> send(s) != -1) ==> r.status == 0
    decreases length
  {
    if count >= length then SendOutcome(0, count)
    else
      assert data[count..count + length] == data[count..];
      var n := send(data[count..count + length]);
      if n == -1 then SendOutcome(-1, count)
      else SendLoop(data, send, count + n, length - n)
  }

  /** One pass of the loop: a send() that does not fail writes part of what
      remains, and the loop carries on after it. */
  lemma SendStep(data: string, send: SendOracle, count: nat, length: nat, n: int)
    requires WellBehaved(send) && count + length == |data| && count < length
    requires n == send(data[count..count + length]) && n != -1
    ensures 1 <= n <= length
    ensures SendLoop(data, send, count, length) == SendLoop(data, send, count + n, length - n)
  {
  }

  /** The loop client_sendall evidently means: keep sending while bytes remain. */
  function IntendedSendLoop(data: string, send: SendOracle, count: nat, length: nat): (r: SendOutcome)
    requires WellBehaved(send) && count + length == |data|
    ensures r.status == 0 || r.status == -1
    ensures count <= r.count <= |data|
    ensures r.status == 0 ==> r.count == |data|
    ensures r.status == -1 ==> r.count < |data| && send(data[r.count..]) == -1
    ensures (forall s: string :: |s| > 0 ==> send(s) != -1) ==> r.status == 0
    decreases length
  {
    if length == 0 then SendOutcome(0, count)
    else
      assert data[count..count + length] == data[count..];
      var n := send(data[count..count + length]);
      if n == -1 then SendOutcome(-1, count)
      else IntendedSendLoop(data, send, count + n, length - n)
  }

  /** A send() that writes half of what it is offered, rounded up. */
  function HalfWriter(s: string): int
  {
    (|s| + 1) / 2
  }

  /** client_sendall as written reports success after sending only the first
      three bytes of a six-byte chunk request, where the intended loop sends
      all six. */
  lemma SendAllStopsShort()
    ensures WellBehaved(HalfWriter)
    ensures SendLoop("C,1,2\n", HalfWriter, 0, 6) == SendOutcome(0, 3)
    ensures IntendedSendLoop("C,1,2\n", HalfWriter, 0, 6) == SendOutcome(0, 6)
  {
    assert HalfWriter("C,1,2\n") == 3;
  }

  /** A send() that always writes everything it is offered, or fails. */
  ghost predicate WritesWhole(send: SendOracle)
  {
    forall s: string :: |s| > 0 ==> send(s) == -1 || send(s) == |s|
  }

  /** When every send() writes all it is offered, the loop as written and the
      intended loop agree: the quirk is invisible. */
  lemma SendLoopAgreesOnWholeWrites(data: string, send: SendOracle)
    requires WritesWhole(send)
    ensures WellBehaved(send)
    ensures SendLoop(data, send, 0, |data|) == IntendedSendLoop(data, send, 0, |data|)
  {
    if |data| > 0 {
      var n := send(data[0..|data|]);
      assert n == -1 || n == |data|;
    }
  }

  /** The loop of client_sendall, run: it returns what SendLoop describes, and
      the bytes send() accepted, which are the first `count` bytes of the
      data. */
  method SendLoopRun(data: string, send: SendOracle) returns (status: int, count: nat)
    requires WellBehaved(send)
    ensures SendOutcome(status, count) == SendLoop(data, send, 0, |data|)
  {
    var length: nat := |data|;
    count := 0;
    ghost var outcome := SendLoop(data, send, 0, |data|);
    while count < length
      invariant count + length == |data|
      invariant SendLoop(data, send, count, length) == outcome
      decreases length
    {
      var n := send(data[count..count + length]);
      if n == -1 {
        assert outcome == SendOutcome(-1, count);
        return -1, count;
      }
      SendStep(data, send, count, length, n);
      count, length := count + n, length - n;
    }
    assert outcome == SendOutcome(0, count);
    status := 0;
  }

  /** The string C sees through strlen(): everything before the first NUL. */
  function CString(s: string): (r: string)
    ensures NUL !in r && r <= s
    ensures r == s || s[|r|] == NUL
    ensures NUL !in s ==> r == s
  {
    if NUL in s then s[..IndexOf(s, NUL)] else s
  }

  /** snprintf into the encoders' 1024-byte buffer keeps at most 1023 characters. */
  function Snprintf(s: string): (r: string)
    ensures |r| < LINE_SIZE && r <= s
    ensures |s| < LINE_SIZE ==> r == s
    ensures |s| >= LINE_SIZE ==> |r| == LINE_SIZE - 1
  {
    if |s| < LINE_SIZE then s else s[..LINE_SIZE - 1]
  }

  /** The chunk request client_chunk formats with "C,%d,%d\n": the record
      C,p,q, which snprintf never truncates. */
  function ChunkMessage(p: int32, q: int32): (r: string)
    ensures r == Record(["C", FormatInt(p as int), FormatInt(q as int)])
    ensures |r| <= 26
  {
    FormatInt32Length(p as int);
    FormatInt32Length(q as int);
    ChunkText(FormatInt(p as int), FormatInt(q as int));
    Snprintf("C," + FormatInt(p as int) + "," + FormatInt(q as int) + "\n")
  }

  /** The block edit client_block formats with "B,%d,%d,%d,%d,%d,%d\n": the
      record B,p,q,x,y,z,w, which snprintf never truncates. */
  function BlockMessage(p: int32, q: int32, x: int32, y: int32, z: int32, w: int32): (r: string)
    ensures r == Record(["B", FormatInt(p as int), FormatInt(q as int), FormatInt(x as int),
                         FormatInt(y as int), FormatInt(z as int), FormatInt(w as int)])
    ensures |r| <= 74
  {
    FormatInt32Length(p as int);
    FormatInt32Length(q as int);
    FormatInt32Length(x as int);
    FormatInt32Length(y as int);
    FormatInt32Length(z as int);
    FormatInt32Length(w as int);
    BlockText(FormatInt(p as int), FormatInt(q as int), FormatInt(x as int),
              FormatInt(y as int), FormatInt(z as int), FormatInt(w as int));
    Snprintf("B," + FormatInt(p as int) + "," + FormatInt(q as int) + ","
      + FormatInt(x as int) + "," + FormatInt(y as int) + "," + FormatInt(z as int) + ","
      + FormatInt(w as int) + "\n")
  }

  /** A field printed by FormatInt holds neither a separator, a newline, a
      carriage return nor a NUL. */
  lemma FormatIntIsPlain(n: int)
    ensures ',' !in FormatInt(n) && '\n' !in FormatInt(n) && '\r' !in FormatInt(n) && NUL !in FormatInt(n)
  {
  }

  lemma JoinThree(t: string, a: string, b: string)
    ensures Record([t, a, b]) == t + "," + a + "," + b + "\n"
  {
    assert JoinWith([b], ',') == b;
    assert JoinWith([a, b], ',') == a + "," + b;
    assert JoinWith([t, a, b], ',') == t + "," + (a + "," + b);
  }

  lemma JoinSeven(t: string, a: string, b: string, c: string, d: string, e: string, f: string)
    ensures Record([t, a, b, c, d, e, f])
      == t + "," + a + "," + b + "," + c + "," + d + "," + e + "," + f + "\n"
  {
    var j6 := JoinWith([f], ',');
    var j5 := JoinWith([e, f], ',');
    var j4 := JoinWith([d, e, f], ',');
    var j3 := JoinWith([c, d, e, f], ',');
    var j2 := JoinWith([b, c, d, e, f], ',');
    var j1 := JoinWith([a, b, c, d, e, f], ',');
    var j0 := JoinWith([t, a, b, c, d, e, f], ',');
    assert j6 == f;
    assert j5 == e + "," + j6;
    assert j4 == d + "," + j5;
    assert j3 == c + "," + j4;
    assert j2 == b + "," + j3;
    assert j1 == a + "," + j2;
    assert j0 == t + "," + j1;
    // Regroup the join field by field into the left-nested form printf builds.
    var s1 := t + "," + a;
    assert j0 == s1 + "," + j2;
    var s2 := s1 + "," + b;
    assert j0 == s2 + "," + j3;
    var s3 := s2 + "," + c;
    assert j0 == s3 + "," + j4;
    var s4 := s3 + "," + d;
    assert j0 == s4 + "," + j5;
    var s5 := s4 + "," + e;
    assert j0 == s5 + "," + f;
  }

  /** The chunk request holds no NUL, so client_send passes all of it on. */
  lemma ChunkMessageIsPlain(p: int32, q: int32)
    ensures CString(ChunkMessage(p, q)) == ChunkMessage(p, q)
  {
    FormatIntIsPlain(p as int);
    FormatIntIsPlain(q as int);
  }

  /** The text "C,%d,%d\n" formats, for fields of at most eleven characters:
      the record of those fields, short enough for the line buffer. */
  lemma ChunkText(a: string, b: string)
    requires |a| <= 11 && |b| <= 11
    ensures var raw := "C," + a + "," + b + "\n";
      |raw| <= 26 && Snprintf(raw) == raw && raw == Record(["C", a, b])
  {
    assert "C" + "," == "C,";
    JoinThree("C", a, b);
  }

  /** The block edit holds no NUL, so client_send passes all of it on. */
  lemma BlockMessageIsPlain(p: int32, q: int32, x: int32, y: int32, z: int32, w: int32)
    ensures CString(BlockMessage(p, q, x, y, z, w)) == BlockMessage(p, q, x, y, z, w)
  {
    FormatIntIsPlain(p as int);
    FormatIntIsPlain(q as int);
    FormatIntIsPlain(x as int);
    FormatIntIsPlain(y as int);
    FormatIntIsPlain(z as int);
    FormatIntIsPlain(w as int);
  }

  /** The text "B,%d,%d,%d,%d,%d,%d\n" formats, for fields of at most eleven
      characters: the record of those fields, short enough for the line
      buffer. */
  lemma BlockText(a: string, b: string, c: string, d: string, e: string, f: string)
    requires |a| <= 11 && |b| <= 11 && |c| <= 11 && |d| <= 11 && |e| <= 11 && |f| <= 11
    ensures var raw := "B," + a + "," + b + "," + c + "," + d + "," + e + "," + f + "\n";
      |raw| <= 74 && Snprintf(raw) == raw && raw == Record(["B", a, b, c, d, e, f])
  {
    assert "B" + "," == "B,";
    JoinSeven("B", a, b, c, d, e, f);
  }

  // ---------------------------------------------------------------------------
  // The inbound line queue

  /** What client_recv hands back: its return value, the line copied into the
      caller's buffer, and the queue left behind. */
  datatype Popped = Popped(result: int, line: string, rest: string)

  /** The first length - 1 characters of a line: what strncpy followed by
      data[length - 1] = '\0' leaves in a buffer of `length` bytes. */
  function Truncate(line: string, length: int): (r: string)
    requires length >= 1
    ensures |r| < length && r <= line
    ensures |line| < length ==> r == line
    ensures |line| >= length ==> |r| == length - 1
  {
    if |line| < length then line else line[..length - 1]
  }

  /** The locked region of client_recv: take the first complete line out of
      the queue, keeping the bytes after its newline in order. */
  function PopLine(buf: string, length: int): (r: Popped)
    requires length >= 1
    ensures r.result == 0 || r.result == 1
    ensures r.result == 1 <==> '\n' in buf
    ensures r.result == 0 ==> r.line == [] && r.rest == buf
    ensures r.result == 1 ==> '\n' !in r.line && |r.line| < length && |r.rest| < |buf|
  {
    if '\n' !in buf then Popped(0, [], buf)
    else
      var i := IndexOf(buf, '\n');
      Popped(1, Truncate(buf[..i], length), buf[i + 1..])
  }

  /** A queue that starts with a line and a newline yields that line (cut to
      the caller's buffer) and keeps exactly what followed. */
  lemma PopLineTakesFirstLine(line: string, rest: string, length: int)
    requires length >= 1 && '\n' !in line
    ensures PopLine(line + "\n" + rest, length) == Popped(1, Truncate(line, length), rest)
  {
    var buf := line + "\n" + rest;
    IndexOfAfter(line, rest, '\n');
    assert buf == line + ['\n'] + rest;
    assert buf[..|line|] == line;
    assert buf[|line| + 1..] == rest;
  }

  /** The lines the consumer gets by calling client_recv until it returns 0,
      and what is left in the queue. */
  datatype Drained = Drained(lines: seq<string>, rest: string)

  function Drain(buf: string, length: int): Drained
    requires length >= 1
    decreases |buf|
  {
    var p := PopLine(buf, length);
    if p.result == 0 then Drained([], buf)
    else
      var d := Drain(p.rest, length);
      Drained([p.line] + d.lines, d.rest)
  }

  /** Each record as a caller's buffer of `length` bytes receives it. */
  function Truncated(lines: seq<string>, length: int): seq<string>
    requires length >= 1
  {
    seq(|lines|, j requires 0 <= j < |lines| => Truncate(lines[j], length))
  }

  /** Draining newline-terminated records gives each record back, in order
      and cut to the caller's buffer, and leaves the unterminated tail in the
      queue: a record too long for the buffer is cut, yet the whole of it
      leaves the queue. Records that fit come back whole. */
  lemma {:induction false} DrainRecords(lines: seq<string>, tail: string, length: int)
    requires length >= 1
    requires Free(lines, '\n') && '\n' !in tail
    ensures Drain(JoinLines(lines) + tail, length) == Drained(Truncated(lines, length), tail)
    ensures (forall j :: 0 <= j < |lines| ==> |lines[j]| < length) ==>
      Drain(JoinLines(lines) + tail, length) == Drained(lines, tail)
    decreases |lines|
  {
    if lines == [] {
      assert JoinLines(lines) + tail == tail;
    } else {
      var head, rest := lines[0], lines[1..];
      FreeTail(lines, '\n');
      assert JoinLines(lines) == head + "\n" + JoinLines(rest);
      Regroup(head + "\n", JoinLines(rest), tail);
      PopLineTakesFirstLine(head, JoinLines(rest) + tail, length);
      DrainRecords(rest, tail, length);
      TruncatedCons(lines, length);
    }
    if forall j :: 0 <= j < |lines| ==> |lines[j]| < length {
      TruncatedWhole(lines, length);
    }
  }

  lemma TruncatedCons(lines: seq<string>, length: int)
    requires length >= 1 && lines != []
    ensures Truncated(lines, length) == [Truncate(lines[0], length)] + Truncated(lines[1..], length)
  {
  }

  /** Records that fit the caller's buffer are received whole. */
  lemma TruncatedWhole(lines: seq<string>, length: int)
    requires length >= 1 && forall j :: 0 <= j < |lines| ==> |lines[j]| < length
    ensures Truncated(lines, length) == lines
  {
  }

  /** The append step of recv_worker: the received bytes (up to their first
      NUL) are added to the queue only if the result still fits; otherwise
      the queue is left alone and the receive thread retries later. */
  function Appended(buf: string, received: string): (r: Option<string>)
    ensures r.Some? <==> |buf| + |CString(received)| < QUEUE_SIZE
    ensures r.Some? ==> |r.value| == |buf| + |CString(received)| < QUEUE_SIZE
    ensures r.Some? ==> r.value[..|buf|] == buf && r.value[|buf|..] == CString(received)
  {
    var data := CString(received);
    if |buf| + |data| < QUEUE_SIZE then Some(buf + data) else None
  }

  function Concat(chunks: seq<string>): string
  {
    if chunks == [] then [] else chunks[0] + Concat(chunks[1..])
  }

  /** The queue after the receive thread appends each chunk in turn, or None
      if some append would not fit. */
  function AppendAll(buf: string, chunks: seq<string>): Option<string>
    decreases |chunks|
  {
    if chunks == [] then Some(buf)
    else
      match Appended(buf, chunks[0])
      case None => None
      case Some(b) => AppendAll(b, chunks[1..])
  }

  /** Chunks free of NUL whose total fits are all appended, in order, with
      nothing lost. */
  lemma {:induction false} AppendAllConcatenates(buf: string, chunks: seq<string>)
    requires Free(chunks, NUL)
    requires |buf| + |Concat(chunks)| < QUEUE_SIZE
    ensures AppendAll(buf, chunks) == Some(buf + Concat(chunks))
    decreases |chunks|
  {
    if chunks == [] {
      assert buf + Concat(chunks) == buf;
    } else {
      var head, rest := chunks[0], chunks[1..];
      assert head in chunks;
      assert Concat(chunks) == head + Concat(rest);
      AppendFits(buf, head);
      assert Free(rest, NUL) by {
        forall c | c in rest ensures NUL !in c { assert c in chunks; }
      }
      AppendAllConcatenates(buf + head, rest);
      Regroup(buf, head, Concat(rest));
    }
  }

  lemma AppendFits(buf: string, data: string)
    requires NUL !in data && |buf| + |data| < QUEUE_SIZE
    ensures Appended(buf, data) == Some(buf + data)
  {
  }

  /** The queue is first-in first-out: whatever chunking the receive thread
      sees, the consumer gets the records back in the order and with the
      content they arrived. */
  lemma QueueIsFifo(chunks: seq<string>, lines: seq<string>, tail: string, length: int)
    requires length >= 1
    requires Free(chunks, NUL)
    requires Concat(chunks) == JoinLines(lines) + tail && |Concat(chunks)| < QUEUE_SIZE
    requires Free(lines, '\n') && '\n' !in tail
    ensures AppendAll([], chunks) == Some(JoinLines(lines) + tail)
    ensures Drain(JoinLines(lines) + tail, length) == Drained(Truncated(lines, length), tail)
    ensures (forall j :: 0 <= j < |lines| ==> |lines[j]| < length) ==>
      Drain(JoinLines(lines) + tail, length) == Drained(lines, tail)
  {
    AppendAllConcatenates([], chunks);
    assert [] + Concat(chunks) == Concat(chunks);
    DrainRecords(lines, tail, length);
  }

  /** A chunk request received into an empty queue comes out as one line and
      leaves the queue empty. */
  lemma ChunkLineRoundTrip(length: int)
    requires length > 5
    ensures Appended([], "C,1,2\n") == Some("C,1,2\n")
    ensures PopLine("C,1,2\n", length) == Popped(1, "C,1,2", [])
  {
    AppendFits([], "C,1,2\n");
    PopLineTakesFirstLine("C,1,2", [], length);
    assert "C,1,2" + "\n" + [] == "C,1,2\n";
  }

  // ---------------------------------------------------------------------------
  // The client object

  /** exit(1) after perror is the only failure client_send knows. */
  datatype Status = Ok | Fatal(reason: string)

  class Client {
    /** client_enabled */
    var enabled: bool
    /** recv_buffer, as the C string it holds */
    var recvBuffer: string
    /** every byte send() accepted on the socket so far */
    var wire: string

    ghost predicate Valid()
      reads this
    {
      |recvBuffer| < QUEUE_SIZE && NUL !in recvBuffer
    }

    constructor ()
      ensures Valid() && !enabled && recvBuffer == [] && wire == []
    {
      enabled := false;
      recvBuffer := [];
      wire := [];
    }

    method Enable()
      modifies this`enabled
      ensures enabled
    {
      enabled := true;
    }

    method Disable()
      modifies this`enabled
      ensures !enabled
    {
      enabled := false;
    }

    /** client_sendall: nothing while disabled; otherwise the loop as written. */
    method SendAll(data: string, send: SendOracle) returns (r: int)
      requires WellBehaved(send)
      modifies this`wire
      ensures !enabled ==> r == 0 && wire == old(wire)
      ensures enabled ==>
        var o := SendLoop(data, send, 0, |data|);
        r == o.status && wire == old(wire) + data[..o.count]
    {
      if !enabled {
        return 0;
      }
      var status, count := SendLoopRun(data, send);
      wire := wire + data[..count];
      return status;
    }

    /** client_send: the whole C string goes to client_sendall, and a failure
        there ends the process. */
    method Send(data: string, send: SendOracle) returns (status: Status)
      requires WellBehaved(send)
      modifies this`wire
      ensures !enabled ==> status == Ok && wire == old(wire)
      ensures enabled ==>
        var o := SendLoop(CString(data), send, 0, |CString(data)|);
        wire == old(wire) + CString(data)[..o.count] && (status.Fatal? <==> o.status == -1)
    {
      if !enabled {
        return Ok;
      }
      var r := SendAll(CString(data), send);
      if r == -1 {
        return Fatal("client_sendall");
      }
      return Ok;
    }

    /** client_chunk: request chunk (p, q). */
    method Chunk(p: int32, q: int32, send: SendOracle) returns (status: Status)
      requires WellBehaved(send)
      modifies this`wire
      ensures !enabled ==> status == Ok && wire == old(wire)
      ensures enabled ==>
        var m := ChunkMessage(p, q);
        var o := SendLoop(m, send, 0, |m|);
        wire == old(wire) + m[..o.count] && (status.Fatal? <==> o.status == -1)
    {
      if !enabled {
        return Ok;
      }
      var m := ChunkMessage(p, q);
      ChunkMessageIsPlain(p, q);
      status := Send(m, send);
    }

    /** client_block: set block (x, y, z) of chunk (p, q) to w. */
    method Block(p: int32, q: int32, x: int32, y: int32, z: int32, w: int32, send: SendOracle)
      returns (status: Status)
      requires WellBehaved(send)
      modifies this`wire
      ensures !enabled ==> status == Ok && wire == old(wire)
      ensures enabled ==>
        var m := BlockMessage(p, q, x, y, z, w);
        var o := SendLoop(m, send, 0, |m|);
        wire == old(wire) + m[..o.count] && (status.Fatal? <==> o.status == -1)
    {
      if !enabled {
        return Ok;
      }
      var m := BlockMessage(p, q, x, y, z, w);
      BlockMessageIsPlain(p, q, x, y, z, w);
      status := Send(m, send);
    }

    /** client_recv: while enabled, pop the first complete line into a buffer
        of `length` bytes under the lock; 1 if a line was there, else 0. */
    method Recv(length: int) returns (result: int, line: string)
      requires Valid() && length >= 1
      modifies this`recvBuffer
      ensures Valid()
      ensures !enabled ==> result == 0 && line == [] && recvBuffer == old(recvBuffer)
      ensures enabled ==> PopLine(old(recvBuffer), length) == Popped(result, line, recvBuffer)
    {
      result, line := 0, [];
      if !enabled {
        return;
      }
      if '\n' in recvBuffer {
        var i := IndexOf(recvBuffer, '\n');
        line := Truncate(recvBuffer[..i], length);
        recvBuffer := recvBuffer[i + 1..];
        result := 1;
      }
    }

    /** One locked attempt of recv_worker to append what recv() read. */
    method Append(received: string) returns (done: bool)
      requires Valid()
      modifies this`recvBuffer
      ensures Valid()
      ensures done <==> Appended(old(recvBuffer), received).Some?
      ensures recvBuffer == if done then Appended(old(recvBuffer), received).value else old(recvBuffer)
    {
      var data := CString(received);
      done := false;
      if |recvBuffer| + |data| < QUEUE_SIZE {
        recvBuffer := recvBuffer + data;
        done := true;
      }
    }
  }
}
