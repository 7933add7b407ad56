/** The server's game model (Model in server.py): it numbers connecting
    clients, keeps the list of connected clients with their last known
    position, dispatches each received line on its command field, and relays
    messages to every client other than the one they came from.

    What the model hands to Handler.send is recorded in `sent`, one Delivery
    per call, holding the serialised record. The database and the spawn
    point it picks are a parameter of OnConnect; Python's float() and str()
    on coordinates are the parameter `floatText`. */
module ServerModel {
  import opened Text
  import opened Decimal
  import ServerHandler

  const YOU := "U"
  const BLOCK := "B"
  const CHUNK := "C"
  const POSITION := "P"
  const DISCONNECT := "D"
  const CHAT := "T"

  /** Every connected Handler is known to the model by its client_id. */
  type ClientId = nat

  /** A position (x, y, z, rx, ry), held as the text str() gives each value,
      which is what every message carrying it sends. */
  datatype Pose = Pose(x: string, y: string, z: string, rx: string, ry: string)

  function PoseFields(pose: Pose): seq<string>
  {
    [pose.x, pose.y, pose.z, pose.rx, pose.ry]
  }

  /** str(float(s)) for a field, or None where float() raises. */
  type FloatText = string -> Option<string>

  /** One Handler.send: the record written to one client's socket. */
  datatype Delivery = Delivery(to: ClientId, data: string)

  // ---------------------------------------------------------------------------
  // Messages

  /** str() of each value, in order. */
  function Ints(values: seq<int>): (fields: seq<string>)
    ensures |fields| == |values|
    ensures forall j :: 0 <= j < |values| ==> fields[j] == FormatInt(values[j])
  {
    if values == [] then []
    else Ints(values[..|values| - 1]) + [FormatInt(values[|values| - 1])]
  }

  /** The fields of a B record hold no comma, newline or carriage return. */
  lemma IntsArePlain(values: seq<int>)
    ensures var fields := [BLOCK] + Ints(values);
      Free(fields, ',') && Free(fields, '\n') && Free(fields, '\r')
  {
    var fields := [BLOCK] + Ints(values);
    forall f | f in fields ensures ',' !in f && '\n' !in f && '\r' !in f {
      var j :| 0 <= j < |fields| && fields[j] == f;
      if j > 0 {
        assert f == FormatInt(values[j - 1]);
      }
    }
  }

  /** U,id,x,y,z,rx,ry: a client's own id and position. */
  function YouMessage(id: ClientId, pose: Pose): (r: string)
    ensures |r| >= 2 && r[0] == 'U' && r[1] == ','
  {
    Record([YOU, FormatInt(id)] + PoseFields(pose))
  }

  /** P,id,x,y,z,rx,ry: where client id is. */
  function PositionMessage(id: ClientId, pose: Pose): (r: string)
    ensures |r| >= 2 && r[0] == 'P' && r[1] == ','
  {
    Record([POSITION, FormatInt(id)] + PoseFields(pose))
  }

  /** D,id: client id has left. */
  function DisconnectMessage(id: ClientId): (r: string)
    ensures |r| >= 2 && r[0] == 'D' && r[1] == ','
  {
    Record([DISCONNECT, FormatInt(id)])
  }

  /** B,p,q,x,y,z,w: a block edit. */
  function BlockMessage(values: seq<int>): (r: string)
    ensures |r| >= 1 && r[0] == 'B'
  {
    Record([BLOCK] + Ints(values))
  }

  /** T,id,message: a chat message from client id. */
  function ChatMessage(id: ClientId, message: string): (r: string)
    ensures |r| >= 2 && r[0] == 'T' && r[1] == ','
  {
    Record([CHAT, FormatInt(id), message])
  }

  /** Every record the model sends is one line, so a client's line queue
      hands each back whole: always for D and B, and for U, P and T when the
      position texts or the chat message hold no newline. */
  lemma MessagesAreLines(id: ClientId, pose: Pose, values: seq<int>, message: string)
    ensures OneLine(DisconnectMessage(id)) && OneLine(BlockMessage(values))
    ensures Free(PoseFields(pose), '\n') ==> OneLine(YouMessage(id, pose)) && OneLine(PositionMessage(id, pose))
    ensures '\n' !in message ==> OneLine(ChatMessage(id, message))
  {
    assert Free([DISCONNECT, FormatInt(id)], '\n');
    IntsArePlain(values);
    FreeAppend([YOU, FormatInt(id)], PoseFields(pose), '\n');
    FreeAppend([POSITION, FormatInt(id)], PoseFields(pose), '\n');
    FreeAppend([CHAT, FormatInt(id)], [message], '\n');
    assert [CHAT, FormatInt(id)] + [message] == [CHAT, FormatInt(id), message];
  }

  // ---------------------------------------------------------------------------
  // Fan-out

  /** The clients a broadcast from `origin` reaches: the list in its order,
      skipping every entry equal to the originator. */
  function Others(clients: seq<ClientId>, origin: ClientId): (r: seq<ClientId>)
    ensures |r| <= |clients|
  {
    if clients == [] then []
    else
      var last := clients[|clients| - 1];
      Others(clients[..|clients| - 1], origin) + (if last == origin then [] else [last])
  }

  /** A broadcast skips exactly the originator's entries: every other entry
      of the list is reached as many times as it is listed. */
  lemma {:induction false} OthersCount(clients: seq<ClientId>, origin: ClientId)
    ensures multiset(Others(clients, origin)) == multiset(clients)[origin := 0]
    decreases |clients|
  {
    if clients != [] {
      var init, last := clients[..|clients| - 1], clients[|clients| - 1];
      assert clients == init + [last];
      OthersCount(init, origin);
    }
  }

  /** A broadcast reaches a client exactly when it is listed and is not the
      originator. */
  lemma OthersMembers(clients: seq<ClientId>, origin: ClientId)
    ensures forall c :: c in Others(clients, origin) <==> c in clients && c != origin
  {
    OthersCount(clients, origin);
    forall c ensures c in Others(clients, origin) <==> c in clients && c != origin {
      assert c in Others(clients, origin) <==> c in multiset(Others(clients, origin));
      assert c in clients <==> c in multiset(clients);
    }
  }

  /** When the originator is not listed (after on_disconnect removed it), a
      broadcast reaches the whole list. */
  lemma {:induction false} OthersOfAbsent(clients: seq<ClientId>, origin: ClientId)
    requires origin !in clients
    ensures Others(clients, origin) == clients
    decreases |clients|
  {
    if clients != [] {
      var init := clients[..|clients| - 1];
      assert clients == init + [clients[|clients| - 1]];
      OthersOfAbsent(init, origin);
    }
  }

  /** A broadcast reaches only listed clients, so only clients with a
      position. */
  lemma {:induction false} OthersPlaced(clients: seq<ClientId>, origin: ClientId, positions: map<ClientId, Pose>)
    requires Placed(clients, positions)
    ensures Placed(Others(clients, origin), positions)
    decreases |clients|
  {
    if clients != [] {
      var init := clients[..|clients| - 1];
      assert Placed(init, positions) by {
        assert forall k :: 0 <= k < |init| ==> init[k] == clients[k];
      }
      OthersPlaced(init, origin, positions);
      var last := clients[|clients| - 1];
      var r := Others(init, origin) + (if last == origin then [] else [last]);
      assert forall k :: 0 <= k < |Others(init, origin)| ==> r[k] == Others(init, origin)[k];
    }
  }

  /** The same record sent to each of `recipients`, in order. */
  function To(recipients: seq<ClientId>, data: string): seq<Delivery>
  {
    seq(|recipients|, j requires 0 <= j < |recipients| => Delivery(recipients[j], data))
  }

  /** send_positions: one P record per other client, all sent to `to`. */
  function Reports(others: seq<ClientId>, positions: map<ClientId, Pose>, to: ClientId): seq<Delivery>
    requires Placed(others, positions)
  {
    seq(|others|, j requires 0 <= j < |others| => Delivery(to, PositionMessage(others[j], positions[others[j]])))
  }

  /** list.remove: the list without the first entry equal to x. */
  function RemoveFirst(s: seq<ClientId>, x: ClientId): (r: seq<ClientId>)
    requires x in s
    ensures |r| == |s| - 1
  {
    var i := IndexOf(s, x);
    s[..i] + s[i + 1..]
  }

  predicate Increasing(s: seq<ClientId>)
  {
    forall i :: 0 <= i < |s| - 1 ==> s[i] < s[i + 1]
  }

  /** In an increasing list every entry is below every later one. */
  lemma {:induction false} IncreasingFar(s: seq<ClientId>, i: nat, j: nat)
    requires Increasing(s) && i < j < |s|
    ensures s[i] < s[j]
    decreases j - i
  {
    if i + 1 < j {
      IncreasingFar(s, i + 1, j);
    }
  }

  /** Every listed id is below n. */
  predicate Below(s: seq<ClientId>, n: nat)
  {
    forall i :: 0 <= i < |s| ==> s[i] < n
  }

  /** Every listed client has a position. */
  predicate Placed(s: seq<ClientId>, positions: map<ClientId, Pose>)
  {
    forall i :: 0 <= i < |s| ==> s[i] in positions
  }

  /** list.remove drops one occurrence of the client and keeps the rest. */
  lemma RemoveFirstCount(s: seq<ClientId>, x: ClientId)
    requires x in s
    ensures multiset(RemoveFirst(s, x)) == multiset(s) - multiset{x}
  {
    var i := IndexOf(s, x);
    assert s == s[..i] + [x] + s[i + 1..];
  }

  lemma RemoveFirstShape(s: seq<ClientId>, x: ClientId) returns (i: nat)
    requires x in s
    ensures i < |s| && s[i] == x && |RemoveFirst(s, x)| == |s| - 1
    ensures forall k :: 0 <= k < i ==> RemoveFirst(s, x)[k] == s[k]
    ensures forall k :: i <= k < |s| - 1 ==> RemoveFirst(s, x)[k] == s[k + 1]
  {
    i := IndexOf(s, x);
  }

  /** Removing a client from an increasing list removes every entry equal
      to it, keeps the list increasing, and keeps every property of the
      entries that remain. */
  lemma RemoveFromIncreasing(s: seq<ClientId>, x: ClientId, n: nat, positions: map<ClientId, Pose>)
    requires x in s && Increasing(s)
    ensures x !in RemoveFirst(s, x) && Increasing(RemoveFirst(s, x))
    ensures Below(s, n) ==> Below(RemoveFirst(s, x), n)
    ensures Placed(s, positions) ==> Placed(RemoveFirst(s, x), positions)
  {
    var i := RemoveFirstShape(s, x);
    var r := RemoveFirst(s, x);
    forall k | 0 <= k < |r| ensures r[k] != x {
      if k < i { IncreasingFar(s, k, i); } else { IncreasingFar(s, i, k + 1); }
    }
    if 0 < i < |r| {
      assert r[i - 1] == s[i - 1] && r[i] == s[i + 1];
      IncreasingFar(s, i - 1, i + 1);
    }
  }

  // ---------------------------------------------------------------------------
  // Dispatch

  /** int() on every argument, or None if one of them is not an integer. */
  function ParseInts(args: seq<string>): (r: Option<seq<int>>)
    ensures r.Some? <==> forall j :: 0 <= j < |args| ==> ParseInt(args[j]).Some?
    ensures r.Some? ==> |r.value| == |args|
    ensures r.Some? ==> forall j :: 0 <= j < |args| ==> ParseInt(args[j]) == Some(r.value[j])
  {
    if args == [] then Some([])
    else
      match (ParseInts(args[..|args| - 1]), ParseInt(args[|args| - 1]))
      case (Some(init), Some(v)) => Some(init + [v])
      case _ => None
  }

  /** The float() of every coordinate of on_position, as str() prints it. */
  function PoseUpdate(args: seq<string>, floatText: FloatText): (r: Option<Pose>)
    ensures r.Some? <==> |args| == 5 && forall j :: 0 <= j < 5 ==> floatText(args[j]).Some?
    ensures r.Some? ==> PoseFields(r.value) == seq(5, j requires 0 <= j < 5 => floatText(args[j]).value)
  {
    if |args| != 5 then None
    else
      match (floatText(args[0]), floatText(args[1]), floatText(args[2]), floatText(args[3]), floatText(args[4]))
      case (Some(x), Some(y), Some(z), Some(rx), Some(ry)) => Some(Pose(x, y, z, rx, ry))
      case _ => None
  }

  /** What a line from a client makes the model do. */
  datatype Reaction =
    | Ignore                      // unknown command, on_chunk, or a handler that raises
    | Move(pose: Pose)            // on_position: store the pose and relay it
    | Relay(data: string)         // on_block with w >= 0, on_chat with a message

  /** The command of a line: its text before the first comma, or all of it. */
  function Command(line: string): (r: string)
    ensures ',' !in r && r <= line
    ensures ',' in line ==> r == line[..IndexOf(line, ',')]
    ensures ',' !in line ==> r == line
  {
    SplitOn(line, ',')[0]
  }

  /** The arguments of a line: the comma-free fields after the command, which
      joined back behind it with commas give the line again. */
  function Arguments(line: string): (r: seq<string>)
    ensures Free(r, ',')
    ensures JoinWith([Command(line)] + r, ',') == line
  {
    var pieces := SplitOn(line, ',');
    JoinSplit(line, ',');
    assert pieces == [pieces[0]] + pieces[1..];
    assert Free(pieces[1..], ',') by {
      forall f | f in pieces[1..] ensures ',' !in f {
        assert f in pieces;
      }
    }
    pieces[1..]
  }

  /** on_data: the first comma field picks the handler, the others are its
      arguments. A handler given the wrong number of arguments raises before
      it changes anything, as does one whose int() or float() fails. */
  function React(client: ClientId, line: string, floatText: FloatText): (r: Reaction)
    ensures Command(line) !in {BLOCK, POSITION, CHAT} ==> r == Ignore
    ensures r.Move? ==> Command(line) == POSITION && PoseUpdate(Arguments(line), floatText) == Some(r.pose)
    ensures r.Relay? ==> Command(line) == BLOCK || Command(line) == CHAT
    ensures Command(line) == POSITION ==>
      r == match PoseUpdate(Arguments(line), floatText) case Some(pose) => Move(pose) case None => Ignore
    ensures Command(line) == BLOCK && (ParseInts(Arguments(line)).None? || |ParseInts(Arguments(line)).value| != 6) ==>
      r == Ignore
  {
    var command, args := Command(line), Arguments(line);
    if command == BLOCK then
      match ParseInts(args)
      case Some(v) =>
        if |v| == 6 && v[5] >= 0 then Relay(BlockMessage(v)) else Ignore
      case None => Ignore
    else if command == POSITION then
      match PoseUpdate(args, floatText)
      case Some(pose) => Move(pose)
      case None => Ignore
    else if command == CHAT then
      var message := JoinWith(args, ',');
      if |message| > 0 then Relay(ChatMessage(client, message)) else Ignore
    else Ignore
  }

  /** on_chat relays everything after the first comma of the line, commas
      included; a line without a comma or with nothing after it is dropped. */
  lemma ChatIsRestOfLine(client: ClientId, line: string, floatText: FloatText)
    requires Command(line) == CHAT
    ensures ',' in line ==>
      var rest := line[IndexOf(line, ',') + 1..];
      React(client, line, floatText) == if rest == [] then Ignore else Relay(ChatMessage(client, rest))
    ensures ',' !in line ==> React(client, line, floatText) == Ignore
  {
    if ',' in line {
      var i := IndexOf(line, ',');
      JoinSplit(line[i + 1..], ',');
      assert Arguments(line) == SplitOn(line[i + 1..], ',');
    }
  }

  /** on_block relays a well-formed edit exactly when its w is not negative. */
  lemma BlockGate(client: ClientId, line: string, floatText: FloatText, v: seq<int>)
    requires Command(line) == BLOCK && ParseInts(Arguments(line)) == Some(v) && |v| == 6
    ensures v[5] >= 0 ==> React(client, line, floatText) == Relay(BlockMessage(v))
    ensures v[5] < 0 ==> React(client, line, floatText) == Ignore
  {
  }

  // ---------------------------------------------------------------------------
  // The model

  /** The position a new client starts at: a random stored block's (x, y, z),
      or the origin when there is none, with both rotations 0. Each field is
      the str() of an integer, and int() reads that integer back. */
  function SpawnPose(spawn: Option<(int, int, int)>): (pose: Pose)
    ensures ParseInt(pose.rx) == Some(0) && ParseInt(pose.ry) == Some(0)
    ensures spawn.Some? ==>
      ParseInt(pose.x) == Some(spawn.value.0) && ParseInt(pose.y) == Some(spawn.value.1)
      && ParseInt(pose.z) == Some(spawn.value.2)
    ensures spawn.None? ==> ParseInt(pose.x) == Some(0) && ParseInt(pose.y) == Some(0) && ParseInt(pose.z) == Some(0)
  {
    ParseFormat(0);
    match spawn
    case Some((x, y, z)) =>
      ParseFormat(x);
      ParseFormat(y);
      ParseFormat(z);
      Pose(FormatInt(x), FormatInt(y), FormatInt(z), FormatInt(0), FormatInt(0))
    case None => Pose(FormatInt(0), FormatInt(0), FormatInt(0), FormatInt(0), FormatInt(0))
  }

  class Model {
    var nextClientId: ClientId
    var clients: seq<ClientId>
    var positions: map<ClientId, Pose>
    var sent: seq<Delivery>

    /** Ids are handed out in increasing order and never reused, so the list
        of connected clients is increasing, each below the next id, and each
        has a position. */
    ghost predicate Valid()
      reads this`nextClientId, this`clients, this`positions
    {
      Increasing(clients) && Below(clients, nextClientId) && Placed(clients, positions)
    }

    /** Model.__init__: no clients yet, and the first id is 0. */
    constructor ()
      ensures Valid()
      ensures nextClientId == 0 && clients == [] && positions == map[] && sent == []
    {
      nextClientId := 0;
      clients := [];
      positions := map[];
      sent := [];
    }

    /** The loop shared by send_position, send_disconnect, send_block and
        send_chat: send `data` to every listed client except `origin`. */
    method Broadcast(origin: ClientId, data: string)
      modifies this`sent
      ensures sent == old(sent) + To(Others(clients, origin), data)
    {
      var i := 0;
      while i < |clients|
        invariant 0 <= i <= |clients|
        invariant sent == old(sent) + To(Others(clients[..i], origin), data)
      {
        assert clients[..i + 1][..i] == clients[..i];
        if clients[i] != origin {
          sent := sent + [Delivery(clients[i], data)];
        }
        i := i + 1;
      }
      assert clients[..i] == clients;
    }

    /** send_position: every other client learns where `client` is. */
    method SendPosition(client: ClientId)
      requires client in positions
      modifies this`sent
      ensures sent == old(sent) + To(Others(clients, client), PositionMessage(client, positions[client]))
    {
      Broadcast(client, PositionMessage(client, positions[client]));
    }

    /** send_positions: `client` learns where every other client is, in list
        order. */
    method SendPositions(client: ClientId)
      requires Placed(clients, positions)
      modifies this`sent
      ensures Placed(Others(clients, client), positions)
      ensures sent == old(sent) + Reports(Others(clients, client), positions, client)
    {
      var i := 0;
      while i < |clients|
        invariant 0 <= i <= |clients|
        invariant Placed(Others(clients[..i], client), positions)
        invariant sent == old(sent) + Reports(Others(clients[..i], client), positions, client)
      {
        assert Placed(clients[..i + 1], positions);
        OthersPlaced(clients[..i + 1], client, positions);
        assert clients[..i + 1][..i] == clients[..i];
        var other := clients[i];
        if other != client {
          sent := sent + [Delivery(client, PositionMessage(other, positions[other]))];
        }
        i := i + 1;
      }
      assert clients[..i] == clients;
    }

    /** send_disconnect: every other client learns that `client` left. */
    method SendDisconnect(client: ClientId)
      modifies this`sent
      ensures sent == old(sent) + To(Others(clients, client), DisconnectMessage(client))
    {
      Broadcast(client, DisconnectMessage(client));
    }

    /** send_block: every other client receives the block edit. */
    method SendBlock(client: ClientId, values: seq<int>)
      modifies this`sent
      ensures sent == old(sent) + To(Others(clients, client), BlockMessage(values))
    {
      Broadcast(client, BlockMessage(values));
    }

    /** send_chat: every other client receives the message, tagged with the
        sender's id. */
    method SendChat(client: ClientId, message: string)
      modifies this`sent
      ensures sent == old(sent) + To(Others(clients, client), ChatMessage(client, message))
    {
      Broadcast(client, ChatMessage(client, message));
    }

    /** on_connect: the new client takes the next id, is placed at the spawn
        point and appended to the list; it is told its id and position, the
        others are told its position, and it is told theirs. */
    method OnConnect(spawn: Option<(int, int, int)>) returns (id: ClientId)
      requires Valid()
      modifies this
      ensures Valid()
      ensures id == old(nextClientId) && nextClientId == id + 1
      ensures id !in old(clients) && clients == old(clients) + [id]
      ensures positions == old(positions)[id := SpawnPose(spawn)]
      ensures sent == old(sent) + [Delivery(id, YouMessage(id, SpawnPose(spawn)))]
        + To(old(clients), PositionMessage(id, SpawnPose(spawn)))
        + Reports(old(clients), old(positions), id)
    {
      var pose := SpawnPose(spawn);
      ghost var before, placed := clients, positions;
      id := Register(pose);
      Announce(before, placed, id, pose);
      sent := sent + [Delivery(id, YouMessage(id, pose))];
      ghost var told := sent;
      SendPosition(id);
      assert sent == told + To(before, PositionMessage(id, pose));
      ghost var announced := sent;
      SendPositions(id);
      assert sent == announced + Reports(before, placed, id);
    }

    /** The registry part of on_connect: take the next id, place the client
        and append it to the list. Its broadcasts then reach exactly the
        clients listed before it, whose positions are unchanged. */
    method Register(pose: Pose) returns (id: ClientId)
      requires Valid()
      modifies this`nextClientId, this`clients, this`positions
      ensures Valid()
      ensures id == old(nextClientId) && nextClientId == id + 1
      ensures id !in old(clients) && clients == old(clients) + [id]
      ensures positions == old(positions)[id := pose]
    {
      id := nextClientId;
      Admit(clients, positions, id, pose);
      nextClientId := id + 1;
      positions := positions[id := pose];
      clients := clients + [id];
    }

    /** on_data: run the handler the line's command names. */
    method OnData(client: ClientId, line: string, floatText: FloatText)
      requires Valid()
      modifies this
      ensures Valid()
      ensures nextClientId == old(nextClientId) && clients == old(clients)
      ensures match React(client, line, floatText)
        case Ignore => positions == old(positions) && sent == old(sent)
        case Move(pose) =>
          positions == old(positions)[client := pose]
          && sent == old(sent) + To(Others(clients, client), PositionMessage(client, pose))
        case Relay(data) =>
          positions == old(positions) && sent == old(sent) + To(Others(clients, client), data)
    {
      var command, args := Command(line), Arguments(line);
      if command == BLOCK {
        OnBlock(client, args);
      } else if command == POSITION {
        OnPosition(client, args, floatText);
      } else if command == CHAT {
        OnChat(client, args);
      }
    }

    /** on_block: after the store (not modelled), relay the edit only when
        its w is not negative. */
    method OnBlock(client: ClientId, args: seq<string>)
      modifies this`sent
      ensures match ParseInts(args)
        case Some(v) =>
          if |v| == 6 && v[5] >= 0 then sent == old(sent) + To(Others(clients, client), BlockMessage(v))
          else sent == old(sent)
        case None => sent == old(sent)
    {
      var parsed := ParseInts(args);
      if parsed.Some? && |parsed.value| == 6 && parsed.value[5] >= 0 {
        SendBlock(client, parsed.value);
      }
    }

    /** on_position: store the client's new pose and relay it to the others. */
    method OnPosition(client: ClientId, args: seq<string>, floatText: FloatText)
      requires Valid()
      modifies this`positions, this`sent
      ensures Valid()
      ensures match PoseUpdate(args, floatText)
        case Some(pose) =>
          positions == old(positions)[client := pose]
          && sent == old(sent) + To(Others(clients, client), PositionMessage(client, pose))
        case None => positions == old(positions) && sent == old(sent)
    {
      var update := PoseUpdate(args, floatText);
      if update.Some? {
        positions := positions[client := update.value];
        SendPosition(client);
      }
    }

    /** on_chat: rejoin the arguments with commas and relay a non-empty
        message. */
    method OnChat(client: ClientId, args: seq<string>)
      modifies this`sent
      ensures var message := JoinWith(args, ',');
        if |message| > 0 then sent == old(sent) + To(Others(clients, client), ChatMessage(client, message))
        else sent == old(sent)
    {
      var message := JoinWith(args, ',');
      if |message| > 0 {
        SendChat(client, message);
      }
    }

    /** on_disconnect: remove the client from the list and tell every client
        still listed. A client that is not listed makes list.remove raise, and
        nothing changes. */
    method OnDisconnect(client: ClientId)
      requires Valid()
      modifies this`clients, this`sent
      ensures Valid()
      ensures old(client in clients) ==> clients == RemoveFirst(old(clients), client)
      ensures old(client in clients) ==> client !in clients
      ensures old(client in clients) ==> sent == old(sent) + To(clients, DisconnectMessage(client))
      ensures old(client !in clients) ==> clients == old(clients) && sent == old(sent)
    {
      if client in clients {
        Remove(client);
        SendDisconnect(client);
      }
    }

    /** self.clients.remove(client) on a listed client. */
    method Remove(client: ClientId)
      requires Valid() && client in clients
      modifies this`clients
      ensures Valid()
      ensures clients == RemoveFirst(old(clients), client)
      ensures client !in clients && Others(clients, client) == clients
    {
      Dismiss(clients, positions, nextClientId, client);
      clients := RemoveFirst(clients, client);
    }
  }

  /** Admitting a client with a fresh id keeps the registry well formed. */
  lemma Admit(s: seq<ClientId>, positions: map<ClientId, Pose>, id: ClientId, pose: Pose)
    requires Increasing(s) && Below(s, id) && Placed(s, positions)
    ensures id !in s
    ensures Increasing(s + [id]) && Below(s + [id], id + 1) && Placed(s + [id], positions[id := pose])
  {
    FreshId(s, id);
    IncreasingSnoc(s, id);
    PlacedSnoc(s, positions, id, pose);
  }

  /** Once a fresh client is appended and placed, its broadcasts reach
      exactly the clients listed before it, and the reports it receives
      about them are unchanged by its own placement. */
  lemma Announce(s: seq<ClientId>, positions: map<ClientId, Pose>, id: ClientId, pose: Pose)
    requires Below(s, id) && Placed(s, positions)
    ensures Others(s + [id], id) == s
    ensures Placed(s, positions[id := pose])
    ensures Reports(s, positions[id := pose], id) == Reports(s, positions, id)
  {
    FreshId(s, id);
    OthersOfAbsent(s, id);
    OthersSnoc(s, id);
    ReportsElsewhere(s, positions, id, pose);
  }

  /** Removing a listed client keeps the registry well formed, and its
      broadcasts then reach every client still listed. */
  lemma Dismiss(s: seq<ClientId>, positions: map<ClientId, Pose>, n: nat, x: ClientId)
    requires x in s && Increasing(s) && Below(s, n) && Placed(s, positions)
    ensures var r := RemoveFirst(s, x);
      Increasing(r) && Below(r, n) && Placed(r, positions) && x !in r && Others(r, x) == r
  {
    RemoveFromIncreasing(s, x, n, positions);
    OthersOfAbsent(RemoveFirst(s, x), x);
  }

  lemma PlacedSnoc(s: seq<ClientId>, positions: map<ClientId, Pose>, id: ClientId, pose: Pose)
    requires Placed(s, positions)
    ensures Placed(s, positions[id := pose]) && Placed(s + [id], positions[id := pose])
  {
    var t := s + [id];
    assert forall k :: 0 <= k < |s| ==> t[k] == s[k];
  }

  lemma ReportsElsewhere(s: seq<ClientId>, positions: map<ClientId, Pose>, id: ClientId, pose: Pose)
    requires Below(s, id) && Placed(s, positions)
    ensures Placed(s, positions[id := pose])
    ensures Reports(s, positions[id := pose], id) == Reports(s, positions, id)
  {
  }

  /** An id no listed id reaches is not listed. */
  lemma FreshId(s: seq<ClientId>, id: ClientId)
    requires Below(s, id)
    ensures id !in s
  {
  }

  /** Appending a fresh id (above every listed one) keeps the list
      increasing. */
  lemma IncreasingSnoc(s: seq<ClientId>, id: ClientId)
    requires Increasing(s) && Below(s, id)
    ensures Increasing(s + [id]) && Below(s + [id], id + 1)
  {
    var t := s + [id];
    assert forall k :: 0 <= k < |s| ==> t[k] == s[k];
  }

  lemma OthersSnoc(clients: seq<ClientId>, id: ClientId)
    ensures Others(clients + [id], id) == Others(clients, id)
  {
    assert (clients + [id])[..|clients|] == clients;
  }
}
