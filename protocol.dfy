/** The two ends of the wire together: what the client's encoders write is
    what the server's framer and dispatcher read, and what the server's
    Handler.send writes is what the client's line queue hands back. */
module Protocol {
  import opened Text
  import opened Decimal
  import CraftClient
  import ServerHandler
  import ServerModel

  /** A chunk request arrives at the server as the single line C,p,q, whose
      command is C and whose arguments read back as p and q. */
  lemma ServerReadsChunkRequest(p: CraftClient.int32, q: CraftClient.int32)
    ensures var line := JoinWith(["C", FormatInt(p as int), FormatInt(q as int)], ',');
      && ServerHandler.Frame(Without(CraftClient.ChunkMessage(p, q), '\r')) == ServerHandler.Framed([line], [])
      && ServerModel.Command(line) == ServerModel.CHUNK
      && ServerModel.ParseInts(ServerModel.Arguments(line)) == Some([p as int, q as int])
  {
    var fields := ["C", FormatInt(p as int), FormatInt(q as int)];
    CraftClient.FormatIntIsPlain(p as int);
    CraftClient.FormatIntIsPlain(q as int);
    ServerHandler.SerializeRoundTrip(fields);
    CommandAndArguments(fields);
    var args := fields[1..];
    ParseEach(args, [p as int, q as int]);
    ParseAll(args, [p as int, q as int]);
  }

  /** The server's record of a block edit is, byte for byte, what
      client_block writes for the same values. */
  lemma BlockRecordsAgree(p: CraftClient.int32, q: CraftClient.int32, x: CraftClient.int32,
                          y: CraftClient.int32, z: CraftClient.int32, w: CraftClient.int32)
    ensures ServerModel.BlockMessage([p as int, q as int, x as int, y as int, z as int, w as int])
      == CraftClient.BlockMessage(p, q, x, y, z, w)
  {
    var v := [p as int, q as int, x as int, y as int, z as int, w as int];
    assert [ServerModel.BLOCK] + ServerModel.Ints(v)
      == ["B", FormatInt(v[0]), FormatInt(v[1]), FormatInt(v[2]), FormatInt(v[3]), FormatInt(v[4]), FormatInt(v[5])];
  }

  /** A block edit sent by one client is framed by the server into one line
      and relayed unchanged to the other clients exactly when its w is not
      negative; an edit with a negative w reaches no one. */
  lemma ServerRelaysBlockEdit(client: ServerModel.ClientId, floatText: ServerModel.FloatText,
                              p: CraftClient.int32, q: CraftClient.int32, x: CraftClient.int32,
                              y: CraftClient.int32, z: CraftClient.int32, w: CraftClient.int32)
    ensures var fields := ["B", FormatInt(p as int), FormatInt(q as int), FormatInt(x as int),
                           FormatInt(y as int), FormatInt(z as int), FormatInt(w as int)];
      var line := JoinWith(fields, ',');
      && ServerHandler.Frame(Without(CraftClient.BlockMessage(p, q, x, y, z, w), '\r')) == ServerHandler.Framed([line], [])
      && ServerModel.React(client, line, floatText)
        == if w >= 0 then ServerModel.Relay(CraftClient.BlockMessage(p, q, x, y, z, w)) else ServerModel.Ignore
  {
    var v := [p as int, q as int, x as int, y as int, z as int, w as int];
    var fields := ["B", FormatInt(p as int), FormatInt(q as int), FormatInt(x as int),
                   FormatInt(y as int), FormatInt(z as int), FormatInt(w as int)];
    assert fields == [ServerModel.BLOCK] + ServerModel.Ints(v);
    ServerModel.IntsArePlain(v);
    ServerHandler.SerializeRoundTrip(fields);
    ServerReactsToBlock(client, floatText, v);
    BlockRecordsAgree(p, q, x, y, z, w);
  }

  /** The server's reaction to the line B,p,q,x,y,z,w with each value
      printed in decimal. */
  lemma ServerReactsToBlock(client: ServerModel.ClientId, floatText: ServerModel.FloatText, v: seq<int>)
    requires |v| == 6
    ensures ServerModel.React(client, JoinWith([ServerModel.BLOCK] + ServerModel.Ints(v), ','), floatText)
      == if v[5] >= 0 then ServerModel.Relay(ServerModel.BlockMessage(v)) else ServerModel.Ignore
  {
    var fields := [ServerModel.BLOCK] + ServerModel.Ints(v);
    ServerModel.IntsArePlain(v);
    CommandAndArguments(fields);
    assert fields[1..] == ServerModel.Ints(v);
    ParseEach(ServerModel.Ints(v), v);
    ParseAll(ServerModel.Ints(v), v);
    ServerModel.BlockGate(client, JoinWith(fields, ','), floatText, v);
  }

  /** on_data's split of a record: the first field is the command, the rest
      are the arguments. */
  lemma CommandAndArguments(fields: seq<string>)
    requires |fields| >= 1 && Free(fields, ',')
    ensures ServerModel.Command(JoinWith(fields, ',')) == fields[0]
    ensures ServerModel.Arguments(JoinWith(fields, ',')) == fields[1..]
  {
    SplitJoin(fields, ',');
  }

  lemma ParseEach(args: seq<string>, v: seq<int>)
    requires |args| == |v| && forall j :: 0 <= j < |v| ==> args[j] == FormatInt(v[j])
    ensures forall j :: 0 <= j < |v| ==> ParseInt(args[j]) == Some(v[j])
  {
    forall j | 0 <= j < |v| ensures ParseInt(args[j]) == Some(v[j]) {
      ParseFormat(v[j]);
    }
  }

  lemma {:induction false} ParseAll(args: seq<string>, v: seq<int>)
    requires |args| == |v| && forall j :: 0 <= j < |v| ==> ParseInt(args[j]) == Some(v[j])
    ensures ServerModel.ParseInts(args) == Some(v)
    decreases |v|
  {
    if v != [] {
      var n := |v| - 1;
      ParseAll(args[..n], v[..n]);
      assert v == v[..n] + [v[n]];
    }
  }

  /** A record the server sends fits an empty client queue, and client_recv
      hands back its line and leaves the queue empty; when the caller's
      buffer holds the whole line, splitting it at its commas gives back the
      fields the server sent. */
  lemma ClientReadsServerRecord(fields: seq<string>, length: int)
    requires |fields| >= 1 && length >= 1
    requires Free(fields, ',') && Free(fields, '\n') && Free(fields, CraftClient.NUL)
    requires |Record(fields)| < CraftClient.QUEUE_SIZE
    ensures CraftClient.Appended([], Record(fields)) == Some(Record(fields))
    ensures CraftClient.PopLine(Record(fields), length)
      == CraftClient.Popped(1, CraftClient.Truncate(JoinWith(fields, ','), length), [])
    ensures |JoinWith(fields, ',')| < length ==>
      SplitOn(CraftClient.PopLine(Record(fields), length).line, ',') == fields
  {
    var line := JoinWith(fields, ',');
    JoinFree(fields, ',', '\n');
    JoinFree(fields, ',', CraftClient.NUL);
    assert Record(fields) == line + "\n" + [];
    CraftClient.PopLineTakesFirstLine(line, [], length);
    SplitJoin(fields, ',');
  }
}
