# Craft client/server protocol core in Dafny

This project models the two sequential cores of the Craft voxel game's
networking. Both speak the game's own text protocol: comma-separated fields,
one record per line, each record ended by a newline.

- **Client (`client.c`)**, in `client.dfy`, module `CraftClient`:
  - the `client_enabled` gate;
  - the partial-write loop `client_sendall` and its caller `client_send`;
  - the integer encoders `client_chunk` (`C,p,q`) and `client_block` (`B,p,q,x,y,z,w`);
  - the bounded inbound line queue `recv_buffer`, with its two locked
    operations: the append step of `recv_worker` and the line pop of
    `client_recv`.

  The globals become the fields of a `Client` class. Each locked region is
  one method. Every byte `send()` accepted is appended to the `wire` field.
  The socket's `send()` is a parameter (an oracle).
- **Server (`server.py`)**, in two modules:
  - `server_handler.dfy`, module `ServerHandler`: the stream framer
    `Handler.handle` and the serialiser `Handler.send`;
  - `server_model.dfy`, module `ServerModel`: the game `Model`. It assigns
    client ids, keeps the client list and positions, dispatches a line on its
    command field, and fans messages out to every client except the one they
    came from. Every `Handler.send` the model makes is appended to the `sent`
    field, addressed by client id.
- **Shared pieces**:
  - `text.dfy`, module `Text`: search, `str.replace`, `split`/`join`, and
    newline-terminated records;
  - `decimal.dfy`, module `Decimal`: C's `%d`, and Python's `str()`/`int()`
    on integers.
- **Both ends together**, in `protocol.dfy`, module `Protocol`:
  - what the client encoders write is what the server frames and dispatches;
  - what the server serialises is what the client's queue hands back.

`client_sendall` is modelled as written. Its name, like the socket call
`sendall` it mirrors, promises to keep writing until the whole payload is
out, and its caller treats a 0 result as success. The loop in `client.c` compares the
bytes sent with the *shrinking* remaining length, so it can report success
after only half the data has gone out (see Findings). The `Client` class
follows the code. A corrected loop is proved next to it.

## Model

| member | source | states |
|---|---|---|
| Text.IndexOf | client.c:103 | the index is that of the first occurrence (strstr, list.index): the element there is the one sought, and none comes before it |
| Text.IndexOfAfter | server.py:56-57 | in a sequence that starts with a prefix free of x and then holds x, the first x is right after that prefix |
| Text.Without | server.py:55 | str.replace(c, '') leaves no c; it never lengthens the string, and a string without c is unchanged |
| Text.WithoutCount | server.py:55 | str.replace(c, '') shortens the string by exactly the number of c's it holds |
| Text.WithoutAppend | server.py:55 | dropping carriage returns chunk by chunk equals dropping them from the concatenation |
| Text.SplitOn | server.py:116 | str.split(',') gives at least one piece, and no piece holds the separator |
| Text.JoinSplit | server.py:116 | joining the pieces of a split with the separator gives back the original string |
| Text.SplitJoin | server.py:64 | splitting a join of separator-free fields gives back exactly those fields |
| Text.JoinFree | server.py:64 | a character in no field, and not the separator, is not in the join |
| Text.JoinWith | server.py:64 | definition of sep.join, no contract of its own; JoinSplit and SplitJoin show it inverts str.split, and JoinFree that it adds only separators |
| Text.Record | server.py:63-66 | the record of some fields ends with a newline, and holds no other newline when no field holds one |
| Decimal.Digits | client.c:84 | the decimal digits of a natural number: at least one, all digits, no leading zero |
| Decimal.FormatInt | client.c:84 | %d prints at least one character, each a digit or '-' |
| Decimal.ParseFormat | server.py:136 | int() of the text %d or str() printed gives back the same integer |
| Decimal.ParseInt | server.py:136 | int() succeeds only on an optional leading '-' followed by at least one digit; a negative result needs the '-', and a '-' gives no positive result |
| Decimal.FormatInt32Length | client.c:84 | a 32-bit int prints in at most 11 characters |
| CraftClient.SendLoop | client.c:37-46 | the loop as written returns 0 or -1 and never counts more bytes than the data holds. It returns -1 only when send() on the bytes still unsent failed, and 0 whenever no send() fails; a 0 result means only that at least half the data went out |
| CraftClient.SendLoopRun | client.c:37-46 | the loop run step by step, calling send() on what remains, returns exactly the status and the count SendLoop describes |
| CraftClient.IntendedSendLoop | client.c:33-47 | the corrected loop returns 0 only after every byte was sent, returns -1 only when send() on the bytes still unsent failed, and returns 0 whenever no send() fails |
| CraftClient.SendAllStopsShort | client.c:38-44 | counterexample: a send() writing half of what it is offered makes the loop as written report success for "C,1,2\n" after 3 of its 6 bytes, while the corrected loop sends all 6 |
| CraftClient.SendLoopAgreesOnWholeWrites | client.c:38-44 | when every send() writes all it is offered, the loop as written and the corrected loop give the same outcome |
| CraftClient.CString | client.c:53 | strlen sees the NUL-free prefix that is either the whole string or ends just before a NUL (the first one); a string without NUL is seen whole |
| CraftClient.Snprintf | client.c:84 | snprintf into a 1024-byte buffer keeps a prefix of at most 1023 characters: a shorter text whole, a longer one cut to exactly 1023 |
| CraftClient.ChunkMessage | client.c:84 | "C,%d,%d\n" is the record C,p,q, never truncated (at most 26 bytes) |
| CraftClient.BlockMessage | client.c:93 | "B,%d,%d,%d,%d,%d,%d\n" is the record B,p,q,x,y,z,w, never truncated (at most 74 bytes) |
| CraftClient.ChunkMessageIsPlain | client.c:79-86 | the chunk request holds no NUL, so strlen in client_send sees all of it |
| CraftClient.BlockMessageIsPlain | client.c:88-95 | the block edit holds no NUL, so strlen in client_send sees all of it |
| CraftClient.FormatIntIsPlain | client.c:84 | a printed integer holds no comma, newline, carriage return or NUL |
| CraftClient.Truncate | client.c:106-107 | strncpy followed by data[length-1] = 0 keeps a prefix of at most length-1 characters: a shorter line whole, a longer one cut to exactly length-1 |
| CraftClient.PopLine | client.c:103-109 | the result is 1 exactly when the queue holds a newline. On 0 the line is empty and the queue is unchanged. On 1 the line holds no newline, fits the caller's buffer, and the queue shrinks |
| CraftClient.PopLineTakesFirstLine | client.c:103-108 | a queue starting with a line and its newline yields that line (cut to the buffer) and keeps exactly the bytes after the newline, in order |
| CraftClient.Drain | client.c:97-113 | definition of calling client_recv until it returns 0, no contract of its own; DrainRecords and QueueIsFifo give its result on records |
| CraftClient.DrainRecords | client.c:97-113 | repeated client_recv on newline-terminated records gives back each record in order, cut to the caller's buffer, removes each whole record from the queue however long, and leaves the unterminated tail; records that fit come back whole |
| CraftClient.Appended | client.c:125-128 | the append happens exactly when old length plus new length is below QUEUE_SIZE. The new queue is the old one followed by the received bytes up to their first NUL |
| CraftClient.AppendAll | client.c:122-134 | definition of successive append steps of recv_worker, no contract of its own; AppendAllConcatenates gives its result for chunks that fit |
| CraftClient.AppendAllConcatenates | client.c:122-134 | NUL-free chunks whose total fits are all appended, in order, with nothing lost |
| CraftClient.QueueIsFifo | client.c:97-134 | whatever chunking the receive thread sees, the consumer gets the records back in arrival order, each cut to its buffer, and whole when they fit |
| CraftClient.ChunkLineRoundTrip | client.c:97-134 | "C,1,2\n" appended to an empty queue pops as "C,1,2" (for a buffer of more than 5 bytes) and leaves the queue empty |
| CraftClient.Client.constructor | client.c:15-17 | the client starts disabled, with an empty queue and nothing sent |
| CraftClient.Client.Enable | client.c:21-23 | client_enable sets the flag |
| CraftClient.Client.Disable | client.c:25-27 | client_disable clears the flag |
| CraftClient.Client.SendAll | client.c:33-47 | disabled: returns 0 and sends nothing. Enabled: returns what the loop as written returns, and the bytes put on the wire are exactly the prefix of the data that loop counted as sent |
| CraftClient.Client.Send | client.c:49-57 | disabled: nothing is sent. Enabled: the C string goes through client_sendall, and the result is fatal exactly when client_sendall returns -1 |
| CraftClient.Client.Chunk | client.c:79-86 | disabled: nothing is sent. Enabled: exactly the "C,p,q\n" record goes through client_send |
| CraftClient.Client.Block | client.c:88-95 | disabled: nothing is sent. Enabled: exactly the "B,p,q,x,y,z,w\n" record goes through client_send |
| CraftClient.Client.Recv | client.c:97-113 | disabled: returns 0 and leaves the queue alone. Enabled: the result, the line and the new queue are those of PopLine; the queue bound and NUL-freedom are kept |
| CraftClient.Client.Append | client.c:122-134 | one locked attempt: done exactly when the bytes fit, and the queue becomes the appended one, or stays as it was; the bound below QUEUE_SIZE is kept |
| ServerHandler.FrameStep | server.py:56-59 | a stream holding a newline frames as its first line followed by the framing of the rest |
| ServerHandler.Frame | server.py:56-59 | definition of the framing, no contract of its own; FrameRoundTrip, FrameSplitsAtNewlines and FrameOfRecords give its meaning, and Handle is proved against it |
| ServerHandler.Received | server.py:51-54 | definition of the bytes read up to the first empty recv(), no contract of its own; Handle states its events in terms of it |
| ServerHandler.FrameCons | server.py:56-59 | a newline-free line followed by its newline frames as that line in front of the framing of what follows |
| ServerHandler.FrameLine | server.py:55-59 | a single line free of newlines and carriage returns, sent with its newline, frames as exactly that line with nothing kept |
| ServerHandler.FrameRoundTrip | server.py:55-59 | the framed lines, each with its newline, followed by the kept tail, are exactly the stream |
| ServerHandler.FrameSplitsAtNewlines | server.py:56-59 | no framed line and no kept tail holds a newline |
| ServerHandler.FrameOfRecords | server.py:56-60 | newline-free records followed by a newline-free tail frame back into exactly those records and that tail |
| ServerHandler.DataEvents | server.py:60 | one on_data event per line, in order |
| ServerHandler.LineStep | server.py:57-60 | moving the first line out of buf keeps the stream and adds one on_data event for it |
| ServerHandler.TakeLines | server.py:56-60 | the inner loop leaves no newline in buf, enqueues each taken line in order, and loses no byte |
| ServerHandler.Handle | server.py:46-62 | the events are on_connect, then one on_data per line of the received bytes with carriage returns dropped (in order), then on_disconnect; buf ends as the unterminated tail |
| ServerHandler.SerializeRoundTrip | server.py:63-66 | what one Handler.send writes is framed as exactly one line, and splitting that line at commas recovers the fields |
| ServerModel.Ints | server.py:64 | str() of each integer, in order: one field per integer, the j-th the str() of the j-th |
| ServerModel.IntsArePlain | server.py:64 | the fields of a B record hold no comma, newline or carriage return |
| ServerModel.YouMessage | server.py:111 | the record on_connect sends the new client starts with the command U and a comma |
| ServerModel.PositionMessage | server.py:158 | a P record starts with the command P and a comma |
| ServerModel.DisconnectMessage | server.py:163 | a D record starts with the command D and a comma |
| ServerModel.BlockMessage | server.py:168 | a B record starts with the command B |
| ServerModel.ChatMessage | server.py:178 | a T record starts with the command T and a comma |
| ServerModel.MessagesAreLines | server.py:63-66 | every record the server sends is one line: D and B always, U and P when the position texts hold no newline, T when the message holds none |
| ServerModel.Others | server.py:150-152 | the clients a broadcast reaches are never more than those listed |
| ServerModel.OthersCount | server.py:154-158 | a broadcast reaches every listed client except the originator, each as often as it is listed, and the originator never |
| ServerModel.OthersMembers | server.py:150-152 | a broadcast reaches a client exactly when it is listed and is not the originator |
| ServerModel.OthersPlaced | server.py:153 | every client a broadcast reaches has a position |
| ServerModel.OthersOfAbsent | server.py:159-163 | when the originator is no longer listed, the broadcast reaches the whole list |
| ServerModel.RemoveFirst | server.py:123 | list.remove of a listed client shortens the list by one |
| ServerModel.RemoveFirstCount | server.py:123 | list.remove drops one occurrence of the client and keeps the rest |
| ServerModel.RemoveFirstShape | server.py:123 | list.remove keeps the entries before the client in place and moves those after it down by one |
| ServerModel.RemoveFromIncreasing | server.py:123 | removing a client from the increasing id list leaves no entry for it and keeps the list increasing |
| ServerModel.IncreasingFar | server.py:99-100 | in the increasing id list every entry is below every later one |
| ServerModel.IncreasingSnoc | server.py:99-110 | appending the fresh id keeps the list increasing |
| ServerModel.FreshId | server.py:99-100 | the next id is held by no listed client |
| ServerModel.Admit | server.py:99-110 | admitting a client under the next id keeps the id list increasing, every id below the next one, and every listed client placed |
| ServerModel.Announce | server.py:110-113 | after the new client is appended and placed, its broadcast reaches exactly the clients listed before it, and the reports sent to it carry their old positions |
| ServerModel.Dismiss | server.py:121-124 | removing a listed client keeps the registry well formed, and its farewell reaches every client still listed |
| ServerModel.PlacedSnoc | server.py:107-110 | the new client gets a position, and the positions of the others are kept |
| ServerModel.ReportsElsewhere | server.py:149-153 | placing the new client does not change the reports about the others |
| ServerModel.OthersSnoc | server.py:110-112 | appending the originator itself to the list does not change whom its broadcasts reach |
| ServerModel.ParseInts | server.py:136 | int() succeeds on all arguments exactly when it succeeds on each one, and then gives each one's value in order |
| ServerModel.PoseUpdate | server.py:146 | float() succeeds exactly when there are five arguments and each parses; the new position is their str() forms in order |
| ServerModel.Command | server.py:116-117 | the command is comma-free and is the text before the first comma, or the whole line when there is none |
| ServerModel.Arguments | server.py:116-117 | the arguments are comma-free, and joined with commas behind the command they give back the line |
| ServerModel.React | server.py:114-120 | a command other than B, P and T does nothing. A P line moves the client exactly when float() accepts its five coordinates, to the pose they give, and is ignored otherwise. A B line without six integer arguments is ignored; a relay happens only on B or T |
| ServerModel.ChatIsRestOfLine | server.py:169-173 | on_chat relays everything after the first comma, commas included; an empty message or a line without a comma is dropped |
| ServerModel.BlockGate | server.py:143-144 | a well-formed block edit is relayed exactly when w >= 0 |
| ServerModel.SpawnPose | server.py:105-109 | the new client starts at the stored block's x, y, z, or at the origin when there is none, with both rotations 0, each as a text int() reads back |
| ServerModel.Model.constructor | server.py:73-82 | no clients, and the first id is 0 |
| ServerModel.Model.Broadcast | server.py:154-178 | the record goes to every listed client except the originator, in list order |
| ServerModel.Model.SendPosition | server.py:154-158 | every other client receives P,id,position of the client |
| ServerModel.Model.SendPositions | server.py:149-153 | the client receives one P record per other client, in list order |
| ServerModel.Model.SendDisconnect | server.py:159-163 | every other client receives D,id |
| ServerModel.Model.SendBlock | server.py:164-168 | every other client receives B,p,q,x,y,z,w |
| ServerModel.Model.SendChat | server.py:174-178 | every other client receives T,id,message |
| ServerModel.Model.Register | server.py:99-110 | the client takes the current next id, which then grows by one; the id is new to the list, is appended to it, and gets the spawn position; the registry stays well formed |
| ServerModel.Model.OnConnect | server.py:98-113 | the client takes the current next id, which then grows by one, and is appended. It gets U,id,position. Every earlier client gets its P record. It then gets one P record per earlier client. The registry stays well formed |
| ServerModel.Model.OnData | server.py:114-120 | the line's first comma field picks on_block, on_position or on_chat with the remaining fields. Any other command, and any handler that raises, changes nothing |
| ServerModel.Model.OnBlock | server.py:135-144 | six integer arguments with w >= 0 are relayed to the other clients; anything else sends nothing |
| ServerModel.Model.OnPosition | server.py:145-148 | five parsable coordinates replace the client's position, which is relayed; anything else changes nothing |
| ServerModel.Model.OnChat | server.py:169-173 | the arguments rejoined with commas are relayed if non-empty; an empty message sends nothing |
| ServerModel.Model.Remove | server.py:123 | the client leaves the list (no entry for it remains) and the registry stays well formed |
| ServerModel.Model.OnDisconnect | server.py:121-124 | a listed client is removed, and every client still listed receives D,id. An unlisted client makes list.remove raise, and nothing changes |
| Protocol.ServerReadsChunkRequest | client.c:79-86 | the chunk request arrives at the server as one line whose command is C and whose arguments read back as p and q |
| Protocol.BlockRecordsAgree | server.py:164-168 | the server's B record for given values is byte for byte what client_block writes for them |
| Protocol.ServerRelaysBlockEdit | server.py:135-144 | a block edit from client_block is framed into one line and relayed unchanged exactly when w >= 0 |
| Protocol.ServerReactsToBlock | server.py:114-144 | the line B,p,q,x,y,z,w in decimal is relayed as the same record exactly when w >= 0 |
| Protocol.CommandAndArguments | server.py:116-117 | for comma-free fields, the command is the first field and the arguments are the rest |
| Protocol.ParseEach | server.py:136 | int() reads back each printed integer |
| Protocol.ParseAll | server.py:136 | int() on all printed arguments gives back the integers |
| Protocol.ClientReadsServerRecord | server.py:63-68 | a server record fits an empty client queue, client_recv pops its line and empties the queue, and a whole line splits back into the fields sent |

## Left out

- `client_position` (client.c:59-77): floating-point distance throttling and `%.2f` formatting.
- `client_connect`, `client_start`, `client_stop`, and the `recv()` call and `sleep(0)` spin of `recv_worker`. These are OS I/O, threads and locks. Each locked region is one atomic method, and each retry of the spin is one more call to `Append`.
- `get_client_enabled` (client.c:29-31): a plain read of the `enabled` field.
- CraftClient.Client.Send: `perror` and `exit(1)` become the result `Fatal`. The model does not stop the process.
- CraftClient.SendLoop: a `send()` that returns 0, or more bytes than it was offered, is excluded by `WellBehaved`. A blocking stream socket never does either, and with a 0 the C loop would spin forever.
- C's `int` is the newtype `int32`. The encoders only print such values, so no wrap-around arises and none is modelled.
- ServerHandler.Handle: `chunks` stands for the successive `recv()` results. An empty chunk is the peer closing the stream. Reaching the end of `chunks` stands for `recv()` raising, after which the `finally` clause still enqueues `on_disconnect`. The queue itself is the returned event list, and the model thread's dispatch of it is left out.
- Handler.send's `log` call, its `sendall`, and its exception handler that closes the socket. The model records what is handed to `send` and does not model delivery failures.
- The SQL work: `session()`, the `on_chunk` query and its replies, the `on_block` insert, and the random spawn block in `on_connect`. The spawn block is the parameter of `OnConnect`. `on_chunk` changes nothing in the model.
- Python's `float()` and `str()` on coordinates: the parameter `floatText`. A position is held as the five texts `str()` prints.
- Python's `int()`: modelled as an optional '-' followed by ASCII digits. Leading/trailing whitespace, and '+' are not accepted by the model.
- `Model.start`, `run`, `enqueue`, `dequeue`, `Server` and `main`: threading, the queue and setup. An exception in a handler is caught by `run`. The handlers here raise only before they change anything, so the model treats a raising handler as changing nothing.
- world.c: terrain generation driven by floating-point noise and foreign calls.

## Findings

| source | as written | input that shows it | evidently intended | confidence | as-written member | corrected member |
|---|---|---|---|---|---|---|
| client.c:38-44 | the loop runs `while (count < length)` while `length` shrinks by every byte sent, so it stops once `count >= length`, that is, once at least half of the data is out, and returns 0 | "C,1,2\n" with a `send()` that writes half of what it is offered, rounded up: 3 bytes go out, then count 3 >= length 3 and client_sendall returns 0 with 3 bytes unsent | keep sending while bytes remain (`while (length > 0)`), so that 0 means every byte was sent | not executed | CraftClient.SendAllStopsShort | CraftClient.IntendedSendLoop |
