/** The server's per-connection handler (Handler in server.py): it turns the
    chunks a socket delivers into protocol lines for the model's queue, and
    serialises outgoing fields into one record. */
module ServerHandler {
  import opened Text

  /** What Handler.handle puts on the model's queue: on_connect first, one
      on_data per line, on_disconnect last. */
  datatype Event = Connected | Data(line: string) | Disconnected

  /** The bytes the handler consumes: recv() results up to the first empty
      one, which marks the peer closing the connection. */
  function Received(chunks: seq<string>): string
  {
    if chunks == [] || chunks[0] == [] then [] else chunks[0] + Received(chunks[1..])
  }

  /** Complete lines and the unterminated tail that follows them. */
  datatype Framed = Framed(lines: seq<string>, tail: string)

  /** The reference framing of a stream: split at every newline. */
  function Frame(s: string): Framed
    decreases |s|
  {
    if '\n' !in s then Framed([], s)
    else
      var i := IndexOf(s, '\n');
      var rest := Frame(s[i + 1..]);
      Framed([s[..i]] + rest.lines, rest.tail)
  }

  /** One step of Frame: the stream is the first line, its newline, and the
      rest, which frames on its own. */
  lemma FrameStep(s: string) returns (head: string, after: string)
    requires '\n' in s
    ensures s == head + "\n" + after && '\n' !in head
    ensures Frame(s) == Framed([head] + Frame(after).lines, Frame(after).tail)
  {
    var i := IndexOf(s, '\n');
    head, after := s[..i], s[i + 1..];
    assert s == head + "\n" + after;
  }

  lemma FreeCons(head: string, rest: seq<string>, c: char)
    requires c !in head && Free(rest, c)
    ensures Free([head] + rest, c)
  {
  }

  lemma FreeSnoc(lines: seq<string>, line: string, c: char)
    requires Free(lines, c) && c !in line
    ensures Free(lines + [line], c)
  {
  }

  lemma JoinLinesCons(head: string, rest: seq<string>)
    ensures JoinLines([head] + rest) == head + "\n" + JoinLines(rest)
  {
    assert ([head] + rest)[1..] == rest;
  }

  /** Framing loses nothing: the lines, each with its newline, followed by
      the tail, are the stream. */
  lemma {:induction false} FrameRoundTrip(s: string)
    ensures JoinLines(Frame(s).lines) + Frame(s).tail == s
    decreases |s|
  {
    if '\n' in s {
      var head, after := FrameStep(s);
      FrameRoundTrip(after);
      JoinLinesCons(head, Frame(after).lines);
      Regroup(head + "\n", JoinLines(Frame(after).lines), Frame(after).tail);
    } else {
      assert JoinLines([]) + s == s;
    }
  }

  /** Framing splits at every newline: neither a line nor the tail holds one. */
  lemma {:induction false} FrameSplitsAtNewlines(s: string)
    ensures Free(Frame(s).lines, '\n') && '\n' !in Frame(s).tail
    decreases |s|
  {
    if '\n' in s {
      var head, after := FrameStep(s);
      FrameSplitsAtNewlines(after);
      FreeCons(head, Frame(after).lines, '\n');
    }
  }

  /** A newline-free line followed by a newline frames as that line, then the
      framing of what follows. */
  lemma FrameCons(head: string, rest: string)
    requires '\n' !in head
    ensures Frame(head + "\n" + rest) == Framed([head] + Frame(rest).lines, Frame(rest).tail)
  {
    IndexOfAfter(head, rest, '\n');
    Pieces(head, '\n', rest);
  }

  /** Framing is the inverse of JoinLines: newline-free records followed by a
      newline-free tail frame back into exactly those records and that tail. */
  lemma {:induction false} FrameOfRecords(lines: seq<string>, tail: string)
    requires Free(lines, '\n') && '\n' !in tail
    ensures Frame(JoinLines(lines) + tail) == Framed(lines, tail)
    decreases |lines|
  {
    if lines == [] {
      assert JoinLines(lines) + tail == tail;
    } else {
      var head, rest := lines[0], lines[1..];
      FreeTail(lines, '\n');
      assert lines == [head] + rest;
      JoinLinesCons(head, rest);
      Regroup(head + "\n", JoinLines(rest), tail);
      assert JoinLines(lines) + tail == head + "\n" + (JoinLines(rest) + tail);
      FrameCons(head, JoinLines(rest) + tail);
      FrameOfRecords(rest, tail);
    }
  }

  /** One on_data event per line, in order. */
  function DataEvents(lines: seq<string>): (es: seq<Event>)
    ensures |es| == |lines|
    ensures forall j :: 0 <= j < |lines| ==> es[j] == Data(lines[j])
  {
    if lines == [] then []
    else DataEvents(lines[..|lines| - 1]) + [Data(lines[|lines| - 1])]
  }

  lemma ReceivedStep(chunks: seq<string>, i: nat)
    requires i < |chunks| && chunks[i] != []
    ensures Without(Received(chunks[i..]), '\r')
      == Without(chunks[i], '\r') + Without(Received(chunks[i + 1..]), '\r')
  {
    assert chunks[i..][1..] == chunks[i + 1..];
    assert Received(chunks[i..]) == chunks[i] + Received(chunks[i + 1..]);
    WithoutAppend(chunks[i], Received(chunks[i + 1..]), '\r');
  }

  /** Moving the first line of buf into the emitted lines keeps the stream. */
  lemma LineStep(lines: seq<string>, buf: string, index: nat, more: string)
    requires index < |buf| && buf[index] == '\n' && '\n' !in buf[..index]
    ensures JoinLines(lines) + (buf + more) == JoinLines(lines + [buf[..index]]) + (buf[index + 1..] + more)
    ensures DataEvents(lines + [buf[..index]]) == DataEvents(lines) + [Data(buf[..index])]
  {
    assert buf == buf[..index] + "\n" + buf[index + 1..];
    JoinLinesSnoc(lines, buf[..index]);
    assert (lines + [buf[..index]])[..|lines|] == lines;
  }

  /** The inner loop of Handler.handle: while the buffer holds a newline,
      enqueue the line before it and keep what follows. */
  method TakeLines(buf0: string, ghost lines0: seq<string>, events0: seq<Event>, ghost more: string)
    returns (buf: string, ghost lines: seq<string>, events: seq<Event>)
    requires Free(lines0, '\n') && events0 == [Connected] + DataEvents(lines0)
    ensures '\n' !in buf && Free(lines, '\n') && events == [Connected] + DataEvents(lines)
    ensures JoinLines(lines0) + (buf0 + more) == JoinLines(lines) + (buf + more)
  {
    buf, lines, events := buf0, lines0, events0;
    while '\n' in buf
      invariant JoinLines(lines0) + (buf0 + more) == JoinLines(lines) + (buf + more)
      invariant Free(lines, '\n')
      invariant events == [Connected] + DataEvents(lines)
      decreases |buf|
    {
      var index := IndexOf(buf, '\n');
      var line := buf[..index];
      LineStep(lines, buf, index, more);
      FreeSnoc(lines, line, '\n');
      lines := lines + [line];
      buf := buf[index + 1..];
      events := events + [Data(line)];
    }
  }

  /** Handler.handle: enqueue on_connect, then accumulate the received bytes
      with every carriage return dropped, enqueue each complete line as soon
      as its newline arrives, and enqueue on_disconnect when the stream ends
      (an empty recv(), or the end of `chunks`, which stands for recv()
      raising). The unterminated tail left in `buf` is discarded. */
  method Handle(chunks: seq<string>) returns (events: seq<Event>, buf: string)
    ensures events == [Connected] + DataEvents(Frame(Without(Received(chunks), '\r')).lines) + [Disconnected]
    ensures buf == Frame(Without(Received(chunks), '\r')).tail
  {
    ghost var stream := Without(Received(chunks), '\r');
    events := [Connected];
    buf := [];
    ghost var lines: seq<string> := [];
    var i := 0;
    while i < |chunks|
      invariant 0 <= i <= |chunks|
      invariant stream == JoinLines(lines) + (buf + Without(Received(chunks[i..]), '\r'))
      invariant Free(lines, '\n') && '\n' !in buf
      invariant events == [Connected] + DataEvents(lines)
    {
      var data := chunks[i];
      if data == [] {
        assert Received(chunks[i..]) == [];
        break;
      }
      ghost var more := Without(Received(chunks[i + 1..]), '\r');
      ReceivedStep(chunks, i);
      Regroup(buf, Without(data, '\r'), more);
      buf, lines, events := TakeLines(buf + Without(data, '\r'), lines, events, more);
      i := i + 1;
    }
    assert Without(Received(chunks[i..]), '\r') == [];
    assert stream == JoinLines(lines) + buf;
    FrameOfRecords(lines, buf);
    events := events + [Disconnected];
  }

  /** A line free of newlines and carriage returns, sent with its newline,
      frames as that one line. */
  lemma FrameLine(line: string)
    requires '\n' !in line && '\r' !in line
    ensures Frame(Without(line + "\n", '\r')) == Framed([line], [])
  {
    assert '\r' !in line + "\n";
    FrameCons(line, []);
    assert line + "\n" + [] == line + "\n";
  }

  /** What one Handler.send writes (a Record) is read back by a framer as exactly one
      line, and splitting that line at its commas recovers the fields, when
      no field holds a comma, newline or carriage return. */
  lemma SerializeRoundTrip(fields: seq<string>)
    requires |fields| >= 1
    requires Free(fields, ',') && Free(fields, '\n') && Free(fields, '\r')
    ensures Frame(Without(Record(fields), '\r')) == Framed([JoinWith(fields, ',')], [])
    ensures SplitOn(JoinWith(fields, ','), ',') == fields
  {
    var line := JoinWith(fields, ',');
    JoinFree(fields, ',', '\n');
    JoinFree(fields, ',', '\r');
    FrameLine(line);
    SplitJoin(fields, ',');
  }
}
