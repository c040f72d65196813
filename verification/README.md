# Grok++ in Dafny

Grok++ is a reverse tunnel: a control client asks the server for a public port, and every TCP
connection to that port is carried to the client inside one framed connection, under a 32-bit id. The
repository also holds llhttp, the resumable HTTP/1 parser. Both are state machines fed whatever bytes
and events come; this project models them and proves what they keep in every run.

## The tunnel server

- `ByteBuffer`, `ProtoSpec`, `Framing`: integers as bytes, the packing of a frame's first byte, the
  frame encoder of `FStreamer` and the three states of the decoder, `FreeGrok::on_received`. ZSTD is a
  parameter; `Lawful` says what is taken for granted of it.
- `EventLoop`: the queues of every socket and the registry of connected clients, as values. `EndToEnd`
  joins encoder, write queue, wire, read queue and decoder.
- `IdPool`: the recycling pool of ids.
- `Tunnel`: the whole server as a value, `World`, and what each thing the selector can report does to
  it. `trace` remembers what a control client was told and what was heard from it; `accepted`, `handed`
  and `read` remember the bytes a socket's queue was given, the socket took, and the socket delivered.
- `TunnelIds`, `TunnelRegistry`, `TunnelStreams`, `TunnelSessions`: one invariant each, change by change.
  `TunnelRuns` puts them together (`Inv`), says what the selector can report (`Enabled`), makes a turn of the
  loop out of it (`Next`) and runs out of turns (`IsRun`). `TunnelTheorems`, `TunnelIsolation`,
  `TunnelAnswers` and `TunnelRights` say what holds at every moment of every run; `TunnelSteps` makes runs
  event by event, to show what can be reached.
- `LiveLoop`, `LiveServer`, `LiveRun`: `Loop`, `FStreamer`, `GrokProxy` and `FreeGrok` as objects whose
  methods update their fields in place, loops included, down to the nested teardown. Each method is
  proved to do what the functions of `EventLoop` and `Tunnel` say, and each event of the loop to be a
  step of `Next`, so that the theorems hold of the objects. `ReadOrder` settles the one difference in
  order: a read item is still in its queue while its message is processed.

## llhttp

- `Llparse`: the kinds of node an llparse-generated parser is made of, the loop that runs them, and what
  holds of every such program: termination, and independence of how the input is cut.
- `Llhttp`: the table of the loose half of `llhttp.c`, which is the half that is compiled; `HttpGlue`
  holds the functions of `http.c`, `Digits` the accumulators. `LlhttpSteps` has one lemma a node kind.
- `HeaderNames`, `ContentLengthValue`, `ConnectionValue`, `TransferEncoding`, `HeaderFields`: a header
  field, whatever its name and value, on one line or folded onto more, and what the parser has noted when
  it has read it. `HeaderBlock` says what a whole block comes to, `StartLine` does the same for the first
  line, `MessageEnd` for the end. `AnyStartLine` and `LineEnds` say which lines are taken for one, and which
  are refused with which error.
- `ChunkedBody`, `ContentLengthBody`, `UntilClose`: the three ways of framing a body. `Messages` puts start
  line, fields, body and trailers together, and any number of messages one behind the other.
- `ReachableStates` and `MessageStarts` say what holds after any input, `BlockScan` is about the scans of 16
  bytes at a time, and `LlhttpParser` is the parser as an object that is updated in place.
- `BodyLength` holds section 3.3.3 of RFC 7230, as rules about start line and header fields, against what the
  parser does with them; `CodingList` and `Misframings` go into where they differ.

## Where code and words disagree

- `src/hincl/http.c:103` says that the result of `llhttp__after_message_complete` is ignored in loose
  mode. It is not (`src/hincl/llhttp.c:8614-8618`, `13117-13142`): after a message that does not keep the
  connection alive the parser goes to its closed state. The model follows the code.
- `src/hincl/http.c` cites section 3.3.3 of RFC 7230. `BodyLength.FollowsRfc7230Iff` and
  `EveryMessageFramedIff` compare the two for every block of header fields of that RFC's grammar (names without
  blanks, values folded or not, lines that end in CR LF) behind every start line of the modelled methods, on
  the numbers and codings that the unfolded values hold. A request with a folded value may be turned away, as
  section 3.2.4 has it. They say exactly when the parser goes its own way (`Misframed`):
  - it looks at `Transfer-Encoding` and `Content-Length` of responses with status 1xx, 204 and 304, which the
    first rule gives no body (`Misframings.NotModifiedIsCounted`);
  - it takes "chunkedchunked" for chunked, "chunked" with a tab or an empty item behind it for something else
    (`CodingList.MisreadIff`, `Misframings.DoubledIsFramedAsChunks`);
  - it looks at the first line of a `Transfer-Encoding` alone: what a fold adds, be it the last coding, is told
    to the callbacks and changes nothing (`Misframings.FoldedCodingIsIgnored`);
  - it refuses a `Content-Length` with a tab behind it, and one that is folded;
  - it counts on from what `content_length` holds when the header block begins, which a `Content-Length` among
    the trailers of an earlier message leaves there (`Misframings.TrailerLengthIsCounted`);
  - a `CONNECT`, and a request to upgrade that has no chunks and a length of none or 0, stops it whatever
    `Transfer-Encoding` says, and a `CONNECT` whatever `Content-Length` says;
  - with `LENIENT_CHUNKED_LENGTH` it reads a request with another coding to the end of the connection.
- `src/grokserver/server.cpp` speaks of users, and keys them by descriptor. `on_disconnect` (303-318) removes the
  entry of a user with a server and leaves that of one without, so the right to choose a port is the
  descriptor's and outlives such a connection: `TunnelRights.RightsInEveryRun` says who has it when, and
  `TunnelRights.RightsAreInherited` is a run in which a client has it that never asked.

## What is taken for granted

`accept` returns a descriptor that is not in use, and so does the socket of a new proxy. Events are for
descriptors that are registered. A readable socket yields at least a byte, and no more than is asked for;
a writable one takes at least a byte. ZSTD decompresses what it compressed, a frame's content size is that
of its original, and decompressing fills just that. The server's name fits a frame. Descriptors are below
2^31, `size_t` has 64 bits. The callbacks of the parser return 0, as those of `hincl.hpp` do. A new proxy
always gets a port, so that `FreeGrok::create_server` never undoes one; and an observer that is removed is a
proxy, which has clients, and not an observer without.

## Model

| member | source | states |
|---|---|---|
| ByteBuffer.BytesOfNumber | src/loop/bytebuffer.hpp:66-110 | a number that fits survives being written as bytes, lowest first, and read back |
| ByteBuffer.ByteOfNumber | src/loop/bytebuffer.hpp:66-83 | byte i is digit i to the base 256, the lowest first |
| ByteBuffer.NumberOfBytes | src/loop/bytebuffer.hpp:66-110 | bytes survive being read as a number and written back |
| ByteBuffer.IntToBytes | src/loop/bytebuffer.hpp:66-83 | the shifting loop writes the little-endian bytes and nothing past them |
| ByteBuffer.BytesToInt | src/loop/bytebuffer.hpp:85-110 | the loop from the last byte down yields the number the bytes stand for |
| ByteBuffer.BufferReader.Read | src/loop/bytebuffer.hpp:125-131 | a read takes the next integer and moves on by its size |
| ProtoSpec.UnpacksPacked | src/freegrok/proto_spec.h:12-19 | flags survive the packing of a frame's first byte, types lose all but six bits |
| Framing.ChunkIsStream | src/grokserver/server.cpp:179-301 | a piece of any size is as good as its bytes one by one |
| Framing.FrameRoundTrip | src/freegrok/streamer.hpp:25-81 | any message, short, long, empty or compressed, is decoded to what it comes to and leaves the decoder at a new message |
| Framing.FramesRoundTrip | src/freegrok/streamer.hpp:25-81 | and so is any sequence of messages, each once and in order |
| Framing.WireFormat | src/freegrok/streamer.hpp:25-81 | the bytes of a frame: type, flags and length in two bytes or five, then the payload; it is compressed iff it has at least 100 bytes and ZSTD makes it shorter |
| Framing.AnyFrameRead | src/grokserver/server.cpp:179-301 | any frame, of whatever sender: it comes to one message, or to one error iff it is said to be compressed and ZSTD cannot read it, finds nothing in it or more than the limit; which error, too |
| Framing.DeliveredIff | src/grokserver/server.cpp:250-266 | a message is handed on as sent if and only if it is not both longer than the limit and made shorter by ZSTD |
| EventLoop.SendKeepsIff | src/loop/loop.cpp:165-178 | a write queue stays in order if and only if send is given a byte or the queue holds some: an empty item would stay for ever |
| EventLoop.WriteKeeps | src/loop/loop.cpp:91-122 | a partial write keeps it: one item at most, never all sent, EPOLLOUT armed just while there is one, accepted bytes are taken plus unsent bytes, and the bytes taken are the next ones |
| EventLoop.OthersKeep | src/loop/loop.cpp:91-122 | traffic on one socket leaves the queue of every other alone |
| EventLoop.WriteQueueConserves | src/loop/loop.cpp:91-122 | over any run of sends and partial writes no byte is lost, repeated or put out of order |
| EventLoop.SendsFrame | src/freegrok/streamer.hpp:47-81 | a message puts its frame on its socket's queue, whole, and touches no other socket |
| EndToEnd.EndToEndFraming | src/loop/loop.cpp:50-122 | in every run of sends, partial writes and partial reads the messages received are a prefix of those sent, and all of them once nothing is on its way |
| IdPool.Ids.GetId | src/grokserver/id_pool.hpp:24-33 | released ids are used first, oldest first, else the counter, which wraps at 32 bits |
| IdPool.Ids.RemoveId | src/grokserver/id_pool.hpp:35-37 | a released id goes to the back |
| IdPool.OldestFirst | src/grokserver/id_pool.hpp:24-37 | over any history: the k-th id used again is the k-th released, the others wait in that order, and the k-th new one is k in 32 bits |
| IdPool.GetPartitions | src/grokserver/id_pool.hpp:24-33 | an id handed out is not live, and free and live ids go on partitioning [0, last) |
| IdPool.ReleasePartitions | src/grokserver/id_pool.hpp:35-37 | so they do when a live id is released |
| IdPool.LastCounts | src/grokserver/id_pool.hpp:16-37 | last counts the free and the live ids |
| TunnelIds.BindKeeps | src/grokserver/proxy_server.cpp:7-13 | a new client's id is nobody's; the two maps of every proxy stay inverse, no id is in two proxies, the pool stays a partition |
| TunnelIds.UnbindKeeps | src/grokserver/proxy_server.cpp:15-22 | the same when a client goes, whose id alone becomes free |
| TunnelIds.CloseKeeps | src/grokserver/proxy_server.cpp:69-77 | the same when a proxy shuts down, in whatever order its map is walked: each of its ids is released once |
| TunnelIds.NoWrap | src/grokserver/id_pool.hpp:24-33 | there are no more live ids than sockets |
| TunnelRegistry.AdmitKeepsSound | src/grokserver/proxy_server.cpp:34-44 | registry, users, ids and keys stay consistent when a client connects to a proxy |
| TunnelRegistry.ForgetKeepsSound | src/grokserver/proxy_server.cpp:91-103 | and when one is disconnected |
| TunnelRegistry.CreatesServerKeepsSound | src/grokserver/server.cpp:45-48 | and when a user gets a server |
| TunnelRegistry.HangUpControlKeepsSound | src/grokserver/server.cpp:303-318 | and when a control client hangs up, taking its server and all its clients with it |
| TunnelStreams.FillKeepsStreams | src/loop/loop.cpp:50-89 | what was heard from a control client stays what its bytes stand for, wherever a frame is cut |
| TunnelStreams.TellKeepsStreams | src/grokserver/server.cpp:327-352 | what a control client's queue accepted stays the frames of what it was told |
| TunnelSessions.AdmitMatches | src/grokserver/server.cpp:327-333 | CONNECTED opens a session that was closed |
| TunnelSessions.ReadMoreMatches | src/grokserver/proxy_server.cpp:46-58 | a PACKET told carries just the bytes read, for the id of the socket they were read from |
| TunnelSessions.SendMatches | src/grokserver/proxy_server.cpp:79-89 | a PACKET heard is queued for the socket of its id and no other |
| TunnelSessions.ForgetMatches | src/grokserver/proxy_server.cpp:60-67 | a DISCONNECT, told or heard, closes the session it names and no other |
| TunnelSessions.HangUpControlMatches | src/grokserver/server.cpp:303-318 | the sessions of the other users outlive a hang-up |
| TunnelRuns.ProcessKeeps | src/grokserver/server.cpp:9-154 | every command, well formed or not, keeps the whole invariant |
| TunnelRuns.Next | src/loop/loop.cpp:191-273 | so does every event the loop can handle |
| TunnelRuns.RunKeeps | src/loop/loop.cpp:191-273 | so the invariant holds at every moment of every run |
| TunnelTheorems.IdsInEveryRun | src/grokserver/id_pool.hpp:24-37 | in every run each id below last is free, once, or the id of one client of one proxy; each proxy's maps are inverse |
| TunnelTheorems.LastInEveryRun | src/grokserver/id_pool.hpp:24-33 | last is the largest number of clients ever connected at once, and never wraps |
| TunnelTheorems.RegistryInEveryRun | src/loop/loop.cpp:15-48 | a socket is linked to an observer iff it is its client, has queues iff it is linked; a user has a server iff it is the initiator of its proxy |
| TunnelTheorems.HangUpTakesAll | src/loop/loop.cpp:138-151 | when a user with a server hangs up, all its clients are gone from the registry, the queues, the selector and every map, and nothing else is |
| TunnelTheorems.SessionsInEveryRun | src/grokserver/server.cpp:327-352 | for every id and at every moment what a client was told and had processed follows (CONNECTED PACKET* end)*; a session is open iff its id is bound to a client of the user's own proxy, and its payloads are then all bytes read from and queued for that client |
| TunnelTheorems.SessionsApart | src/grokserver/proxy_server.cpp:46-58 | no socket is behind two ids or two users |
| TunnelTheorems.BreachLasts | src/grokserver/server.cpp:327-352 | a breach of the session protocol could not be made up for later |
| TunnelTheorems.QueuesInEveryRun | src/loop/loop.cpp:91-122 | in every run every write queue is in order |
| TunnelTheorems.ToldInEveryRun | src/freegrok/streamer.hpp:47-81 | a reader of what a control client's socket took decodes the first of the messages the client was told, and all once the queue is empty |
| TunnelTheorems.HeardInEveryRun | src/grokserver/server.cpp:179-301 | the messages processed are the first of those a control client framed, and all once their bytes are read |
| TunnelIsolation.TunnelsApart | src/loop/loop.cpp:191-273 | whatever happens in one tunnel, no socket of another changes its registry entry, queues, streams or trace |
| TunnelIsolation.TablesApart | src/loop/loop.cpp:191-273 | and no proxy or user of another changes, comes or goes: id maps, client sets and rights are the same |
| TunnelIsolation.RefusedIff | src/grokserver/server.cpp:66-115 | a PACKET or DISCONNECT is answered, by one error, iff it names no client of the user who sent it; which error, too |
| TunnelAnswers.ServerInEveryRun | src/grokserver/server.cpp:20-64 | in every run CREATE_SERVER is answered once: who has a server keeps it and gets an error, so does who may choose a port and finds it taken, and everybody else gets a server of their own, without clients, and is told its port |
| TunnelAnswers.AnsweredInEveryRun | src/grokserver/server.cpp:14-18 | PING, STAT, an unknown command and a frame that cannot be read are each answered once, with what, to the one who sent them, and change nothing |
| TunnelAnswers.SilentInEveryRun | src/grokserver/server.cpp:117-139 | an AUTH is not answered, whatever it says |
| TunnelAnswers.RefusedInEveryRun | src/grokserver/server.cpp:66-115 | a PACKET or DISCONNECT is answered by one error just if it names no client of its sender |
| TunnelAnswers.SessionIsReached | src/loop/loop.cpp:191-273 | a run: a client asks for a server, another connects to that and sends bytes, and the first has an open session with just those |
| TunnelRights.StepGrants | src/grokserver/server.cpp:117-139 | whatever happens, a descriptor's right to choose a port is granted by an AUTH with the magic and nothing else, and goes with its entry, which goes just when a user with a server hangs up |
| TunnelRights.RightsInEveryRun | src/grokserver/server.cpp:303-318 | at every moment of every run a descriptor has that right iff an AUTH with the magic was heard on it, in this connection or one before, and no user with a server has hung up on it since |
| TunnelRights.RightsAreInherited | src/grokserver/server.cpp:310-317 | a run: a client shows the magic and hangs up without a server, another connects on its descriptor and has the right before a byte of it is read |
| ReadOrder.ProcessSame | src/loop/loop.cpp:81-88 | processing a message neither looks at nor changes the read queue it came from |
| LiveLoop.Loop.GatherQueue | src/loop/loop.cpp:7-13 | a socket without queues gets empty ones, others keep theirs |
| LiveLoop.Loop.Capture | src/loop/loop.cpp:153-156 | a capture item joins the read queue |
| LiveLoop.Loop.Recv | src/loop/loop.cpp:158-163 | a read item of the given length, state and word joins the read queue |
| LiveLoop.Loop.Send | src/loop/loop.cpp:165-178 | the first item arms EPOLLOUT, later bytes are merged into it |
| LiveLoop.Loop.PerformWriteQueue | src/loop/loop.cpp:91-122 | the bytes the socket took are marked sent; a sent item leaves, and the last one disarms EPOLLOUT |
| LiveLoop.Loop.RemoveQueues | src/loop/loop.cpp:180-185 | the socket's queues are gone |
| LiveLoop.FStreamer.SendHeader | src/freegrok/streamer.hpp:25-45 | two bytes or five, by the 32-bit length |
| LiveLoop.FStreamer.Send | src/freegrok/streamer.hpp:47-81 | the queue gets header and payload, compressed just if that is shorter |
| LiveServer.GrokProxy.LinkClient | src/grokserver/proxy_server.cpp:7-13 | the pool's next id is entered in both maps |
| LiveServer.GrokProxy.UnlinkClient | src/grokserver/proxy_server.cpp:15-22 | the id is released, and leaves the maps if asked |
| LiveServer.GrokProxy.OnConnect | src/grokserver/proxy_server.cpp:34-44 | a capture item, an id, and CONNECTED for the initiator |
| LiveServer.GrokProxy.OnReceived | src/grokserver/proxy_server.cpp:46-58 | the initiator is told the bytes under the client's id; without an id nothing happens |
| LiveServer.GrokProxy.OnDisconnect | src/grokserver/proxy_server.cpp:60-67 | the id is released and the initiator told |
| LiveServer.GrokProxy.Shutdown | src/grokserver/proxy_server.cpp:69-77 | the loop releases every id once, in some order of the sockets, and empties the maps |
| LiveServer.GrokProxy.RedirectPacket | src/grokserver/proxy_server.cpp:79-89 | the bytes are queued for the id's socket, or for none |
| LiveServer.GrokProxy.DisconnectClient | src/grokserver/proxy_server.cpp:91-103 | the id's client is unlinked and its socket closed |
| LiveServer.FreeGrok.LinkMain | src/loop/loop.cpp:15-18 | a control client is entered among the main server's clients and in the registry |
| LiveServer.FreeGrok.LinkToProxy | src/loop/loop.cpp:15-18 | a proxied one among its proxy's |
| LiveServer.FreeGrok.CloseKept | src/loop/loop.cpp:26-39 | force_disconnect with erase unset: the socket goes, its observer still lists it |
| LiveServer.FreeGrok.CloseProxied | src/loop/loop.cpp:26-39 | with erase set, for a proxied client |
| LiveServer.FreeGrok.CloseControl | src/loop/loop.cpp:26-39 | with erase set, for a control client |
| LiveServer.FreeGrok.CloseClients | src/loop/loop.cpp:139-144 | the loop closes every client of the proxy and no other socket, in any order |
| LiveServer.FreeGrok.RemoveObserver | src/loop/loop.cpp:138-151 | then the proxy is gone |
| LiveServer.FreeGrok.OnDisconnect | src/grokserver/server.cpp:303-318 | ids freed, proxy removed, user removed; or nothing for a client without a server |
| LiveServer.FreeGrok.ProcessMessage | src/grokserver/server.cpp:9-154 | the switch does what the state machine says of each command |
| LiveServer.FreeGrok.CreateServer | src/grokserver/server.cpp:20-64 | one server a user, on a free port if it may choose one |
| LiveServer.FreeGrok.Packet | src/grokserver/server.cpp:66-90 | refused without a session, an id or a client; else passed on |
| LiveServer.FreeGrok.Disconnect | src/grokserver/server.cpp:92-115 | refused likewise; else the client goes |
| LiveServer.FreeGrok.Auth | src/grokserver/server.cpp:117-139 | the right magic grants the rights, silently |
| LiveServer.FreeGrok.OnReceived | src/grokserver/server.cpp:179-301 | the three decoder states, then the item for what comes next |
| LiveServer.FreeGrok.OnFrame | src/grokserver/server.cpp:250-292 | a compressed payload is unpacked or refused, then processed |
| LiveServer.FreeGrok.ReadFromControl | src/loop/loop.cpp:50-89 | the front item fills up; a full one is acted on and leaves |
| LiveRun.AcceptsControl | src/loop/loop.cpp:253-261 | a control client connects: the objects take a step of Next |
| LiveRun.AcceptsClient | src/loop/loop.cpp:253-261 | a client connects to a proxy: a step of Next |
| LiveRun.Reads | src/loop/loop.cpp:265-269 | bytes from any client: a step of Next |
| LiveRun.Writes | src/loop/loop.cpp:229-248 | a writable socket: a step of Next |
| LiveRun.HangUp | src/loop/loop.cpp:212-228 | a hang-up, nested teardown included: a step of Next, for some order of the clients |
| Llparse.MatchIsSpelling | src/hincl/llhttp.c:7828-7922 | a matcher completes just after the bytes that, folded, spell the rest of its blob |
| Llparse.MismatchIsLate | src/hincl/llhttp.c:7828-7922 | and gives up at the first byte that does not |
| Llparse.MatchResumes | src/hincl/llhttp.c:7828-7922 | a matcher resumed with the rest of the input ends as it would have on all of it |
| Llparse.StepDescends | src/hincl/llhttp.c:8596-14890 | every goto reads a byte or goes down in rank |
| Llparse.RunReadsAll | src/hincl/llhttp.c:8596-14890 | the run loop returns with an error or with all its input read |
| Llparse.FragmentationIndependence | src/hincl/llhttp.c:14892-14924 | however a stream is cut into execute calls, control state, registers, index and error are those of one call, and, but for an error inside a span, so is what the callbacks were told |
| Llhttp.LlhttpWellFormed | src/hincl/llhttp.c:8596-14890 | the table is such a program: its ranks go down, spans do not nest and are open just where the control state says |
| Digits.MulAddAllIsExact | src/hincl/llhttp.c:8261-8285 | the hexadecimal and decimal accumulators are exact for any digits, and report overflow iff the value is above 2^64-1 |
| Digits.FoldStatusIsExact | src/hincl/llhttp.c:8539-8568 | the status fold accepts just the digits of values up to 999, leading zeros and all |
| ChunkedBody.SizeLineIff | src/hincl/llhttp.c:13333-13340 | any line before a chunk, cut anywhere, begins a chunk of n bytes iff it is a hexadecimal n of 64 bits, alone or before an extension; any other is refused, a bad first byte, a bad byte behind the digits and 2^64 alike |
| ChunkedBody.NoSizeRefused | src/hincl/llhttp.c:13230-13240 | and that whatever follows it |
| ChunkedBody.ChunkedRoundTrip | src/hincl/llhttp.c:8657-9024 | any chunks, any spelling of sizes, any extensions, any trailers, any cutting: the callbacks get exactly the data, then one complete message, and the parser pauses if an upgrade follows; only a Content-Length among the trailers can be refused |
| ContentLengthBody.CountedSoFar | src/hincl/llhttp.c:9025-9053 | at every cut the bytes delivered and the bytes still counted make up the declared length |
| ContentLengthBody.ContentLengthRoundTrip | src/hincl/llhttp.c:9422-9506 | any header block with one Content-Length and no coding: exactly as many bytes as its digits say, read behind what the register holds, are the body, then the message completes once |
| ContentLengthBody.DeliveredAsDeclaredIff | src/hincl/llhttp.c:8440-8464 | a message with the body its fields declare is delivered as sent iff content_length was clear before its fields |
| ContentLengthBody.ConnectStops | src/hincl/http.c:37-54 | a CONNECT completes at its empty line whatever its fields say, and the parser stops there |
| ContentLengthBody.ContentLengthOverflow | src/hincl/llhttp.c:8440-8464 | a Content-Length that is no number, or does not fit 64 bits behind what the register holds, is an error wherever the input is cut and whatever follows |
| HeaderNames.NameIsRead | src/hincl/llhttp.c:9713-10058 | any header name is told as written, and looked up as one of the five words the parser knows, in any case, or as none |
| HeaderNames.NameIsRefused | src/hincl/llhttp.c:9723-9740 | behind a name of RFC 7230, a byte that is in no name and is not the colon is refused |
| HeaderNames.SpacedNameIsRead | src/hincl/llhttp.c:9810-9830 | spaces before the colon are told as part of the name, and it is looked up without them |
| ContentLengthValue.ReadLengthIff | src/hincl/llhttp.c:9422-9506 | a Content-Length is accepted iff it is digits and spaces whose number, read behind what the register holds, fits 64 bits; the register then holds that number |
| ContentLengthValue.ReadAsDeclaredIff | src/hincl/llhttp.c:8440-8464 | it is read as the number it stands for iff the register was clear |
| ConnectionValue.AtItemMeans | src/hincl/llhttp.c:9230-9400 | close, keep-alive and upgrade are flagged iff they are items of the list, in any case, and nothing else changes |
| HeaderFields.FieldsRun | src/hincl/llhttp.c:9113-10058 | header fields of any names and values, folded or not, are told as written, line by line, and leave the registers as ApplyFields says or are refused with its error |
| HeaderFields.LineRuns | src/hincl/llhttp.c:13939-13955 | a line of a value, the first or one it goes on with, is read as load_header_state_2 tells: of all values that go on, only that of Connection is still looked into |
| HeaderBlock.FieldsMean | src/hincl/llhttp.c:9113-10058 | a block leaves the flags of what is among its fields, and its one length; it is refused just for its lengths: a second one, none, one that cannot be read, or a folded one |
| StartLine.LineIsRead | src/hincl/llhttp.c:12549-13103 | any request or status line is told, and its method, version and status noted, by a parser of requests, of responses or of both |
| AnyStartLine.RequestLineIff | src/hincl/llhttp.c:12549-12625 | any three words on a line are taken for a request line iff the first is a method, the second a url, the third "HTTP/" and two digits, and LF follows the CR; else which error |
| AnyStartLine.StatusLineIff | src/hincl/llhttp.c:12697-12760 | any line that begins with "HTTP/" is taken for a status line iff a version, a space and a status up to 999 follow, alone or before a space and a reason; else which error |
| AnyStartLine.EitherIff | src/hincl/llhttp.c:13016-13076 | a parser of both kinds takes a first word with H for HEAD or for a response, or refuses it; any other is a method or refused |
| AnyStartLine.ResponseIff | src/hincl/llhttp.c:12943-12966 | a parser of responses takes a first word iff it begins with "HTTP/" |
| AnyStartLine.NoVersionRead | src/hincl/llhttp.c:10059-10117 | a request line without a version is of HTTP/0.9 |
| AnyStartLine.EmptyLinesSkipped | src/hincl/llhttp.c:13083-13103 | empty lines before a message are skipped |
| AnyStartLine.SpacesSkipped | src/hincl/llhttp.c:10370-10390 | and so are spaces before the url and before the protocol |
| LineEnds.LfIsEnough | src/hincl/llhttp.c:9095-9112 | an LF alone ends a line wherever CR and LF do, but around chunks |
| LineEnds.LfIsWantedIff | src/hincl/llhttp.c:10118-10135 | behind a CR the LF is insisted on just at the end of a request line and of a header value; else any byte will do |
| LineEnds.ChunkEndSkipped | src/hincl/llhttp.c:8657-8677 | the two bytes behind the data of a chunk are not looked at |
| LineEnds.ControlIsRefused | src/hincl/llhttp.c:9212-9229 | a control byte is refused wherever it stands in a line of any value, that of Connection, Transfer-Encoding or Content-Length too, with which error, unless LENIENT_HEADERS is set |
| LineEnds.AnyTextIff | src/hincl/llhttp.c:9192-9229 | a value that is not looked into is told as it is iff it has no control byte or LENIENT_HEADERS is set, and else refused |
| TransferEncoding.ChunkedIffLastItem | src/hincl/llhttp.c:9507-9550 | chunks are expected iff the last item of the list is "chunked" in any case and spaces, once or several times over, however the line is cut |
| TransferEncoding.RecognisedByLastItem | src/hincl/llhttp.c:9610-9672 | what the matcher loop recognises is told by the last item alone |
| TransferEncoding.ChunkedTokenIsRun | src/hincl/llhttp.c:9650-9672 | the coding "chunked" itself is recognised |
| TransferEncoding.RunEndsInChunked | src/hincl/llhttp.c:9650-9672 | nothing is that does not end in "chunked" and spaces |
| TransferEncoding.DoubledTokenIsRun | src/hincl/llhttp.c:9650-9672 | but "chunkedchunked" is |
| ReachableStates.EveryReachableState | src/hincl/llhttp.c:13492-13511 | after any input: chunked and trailing only under Transfer-Encoding, finish told by the control state, begin and complete alternate; at a body the framing is not in doubt unless the parser is lenient, and chunks are read only if flagged |
| ReachableStates.EveryDelivery | src/hincl/llhttp.c:13492-13511 | each step of a run that hands over body bytes, be it one byte, starts with the framing not in doubt |
| MessageStarts.EveryStart | src/hincl/llhttp.c:13083-13103 | where a message begins nothing is held back, no flag is set and a parser of responses has no method; content_length is clear while no message has been completed |
| MessageStarts.ClearBeforeLength | src/hincl/llhttp.c:9401-9506 | it is clear at every header field of a first message before the one that sets it |
| MessageStarts.NeverSkips | src/hincl/http.c:50-51 | no input sets F_SKIPBODY |
| ReachableStates.FinishIffComplete | src/hincl/api.c:131-153 | ending the connection is fine iff it cuts no message short: it tells nothing between messages or behind an error, completes a message that runs to the end, and is an error otherwise |
| LlhttpParser.Parser.constructor | src/hincl/api.c:33-39 | the fields of a new parser |
| LlhttpParser.Parser.MatchSequence | src/hincl/llhttp.c:7828-7922 | the matcher loop does what the recursive matcher says, index included |
| LlhttpParser.Parser.RunNode | src/hincl/llhttp.c:8596-14890 | one goto, in place |
| LlhttpParser.Parser.Execute | src/hincl/llhttp.c:14892-14924 | the goto loop and the flush of the open span do what the program says; unless it fails it has read all its input |
| LlhttpParser.Parser.EndOfInput | src/hincl/api.c:131-153 | the code returned and the callback made at the end of input |
| BodyLength.FollowsRfc7230Iff | src/hincl/http.c:37-92 | for every block of header fields of RFC 7230's grammar, folds included, cut anywhere: the body is framed as section 3.3.3 says of these fields, unfolded, iff the message is not Misframed, a condition on status, method, fields and what content_length held |
| BodyLength.EveryMessageFramedIff | src/hincl/http.c:37-92 | the same for every block behind a start line of the modelled methods and versions, wherever a message begins after any input from llhttp_init on; content_length is clear there unless a message has been completed |
| CodingList.MisreadIff | src/hincl/llhttp.c:9610-9672 | the parser reads a list of codings differently from the section iff "chunked" comes last but for empty items, is said more than once in the last item, or has a tab behind it; or, where a fold says anything, iff the last item of its first line and the last of all items are not both chunked or both not |
| Misframings.NotModifiedIsCounted | src/hincl/http.c:84-90 | 304 with Content-Length: 5, from the first state on: five bytes are waited for where there are none |
| Misframings.DoubledIsFramedAsChunks | src/hincl/llhttp.c:9610-9672 | a request with Transfer-Encoding: chunkedchunked: chunks are waited for where it should be turned away |
| Misframings.FoldedCodingIsIgnored | src/hincl/llhttp.c:9155-9173 | a request with Transfer-Encoding: chunked and, on a second line, " , gzip": chunks are waited for where it should be turned away |
| Misframings.TrailerLengthIsCounted | src/hincl/llhttp.c:13492-13511 | a chunked request with Content-Length: 5 in its trailers, then one with Content-Length: 3: fifty-three bytes are waited for |
| UntilClose.AlwaysSound | src/hincl/http.c:50-51 | in every reachable state chunked is flagged under Transfer-Encoding alone and no body is skipped |
| UntilClose.InEveryState | src/hincl/http.c:37-149 | so the next two hold in every reachable state |
| UntilClose.UntilEofIff | src/hincl/http.c:108-132 | a body runs to the end of the connection iff the message needs its end, or is a lenient request or a bodiless response with another coding, and does not stop before an upgrade |
| UntilClose.NothingAfterEof | src/hincl/http.c:135-149 | and then the connection is kept alive for none but those |
| UntilClose.EofTakesAll | src/hincl/llhttp.c:9054-9074 | everything that comes is body, and the end of the connection completes the message |
| Messages.MessageRoundTrip | src/hincl/llhttp.c:8596-14890 | a whole message, request or response, with a counted body, chunks and trailers, or none (a request without, a CONNECT, a response with status 1xx, 204 or 304), cut anywhere: its line, fields and body are told, then one complete message |
| Messages.MessagesRoundTrip | src/hincl/llhttp.c:8596-14890 | any number of messages from llhttp_init on, cut anywhere: each is told whole, once and in order |
| Messages.LastMessageRoundTrip | src/hincl/llhttp.c:8596-14890 | and behind them one that closes or upgrades the connection, or holds a length in its trailers: it is told likewise; and the parser pauses, waits for another or is closed as the version, Connection and Upgrade of the last one ask |
| Messages.NothingFollows | src/hincl/http.c:135-149 | behind a message that upgrades or does not keep the connection alive the callbacks are told nothing, whatever comes, unless the parser is lenient |
| Messages.UnendingRoundTrip | src/hincl/api.c:131-153 | or behind them a response whose body ends with the connection: what comes is told as its body, and `llhttp_finish` completes it |
| BlockScan.RangesAreTable | src/hincl/llhttp.c:7639-7655 | the 16-byte ranges hold just the bytes the lookup tables accept |
| BlockScan.ScanBlocks | src/hincl/llhttp.c:9574-9606 | the block scans stop at the byte the one-byte loops stop at, for every buffer |

## Left out

- Sockets, epoll, port probing, signals, logging, configuration and the magic's generation: their results are parameters.
- LiveLoop.Loop.PerformWriteQueue: a socket error or a write of no bytes, on which the source clears both queues, because the model's selector reports neither.
- LiveServer.FreeGrok.ReadFromControl: a read that fails or yields nothing, on which the source clears both queues, likewise.
- LiveRun.HangUp: a hang-up reported on a listening socket.
- LiveServer.FreeGrok.CreateServer: the branch in which no port could be opened, where `remove_server` edits a copy of the user; a new proxy is taken to get one.
- LiveServer.FreeGrok.RemoveObserver: the branch for an observer that is not a server, which the program never removes.
- Buffers are sequences: `merge_buffers` and the read items' arrays are not modelled as memory, nor is the freeing of them.
- In `Tunnel` a full read item is replaced by the next before its message is acted on; in `LiveServer`, as in the source, the next is pushed behind it and it leaves last.
- `force_disconnect` is three methods, one for each way its flags are set by a caller: CloseKept, CloseProxied, CloseControl.
- Framing.FrameRoundTrip: payloads of 2^32 bytes and more, whose length the header cuts to 32 bits.
- BIG-endian `int_to_bytes` and `read_buffer`, which nothing uses.
- ZSTD's inside, and the strict half of llhttp.c, which is not compiled.
- Llhttp.LlhttpWellFormed: of the parser's start line it has 7 of the 45 methods, one state of the URL in place of its grammar, and not the versions of ICE and RTSP.
- StartLine.LineIsRead: request lines without a version (NoVersionRead), and line ends that are LF alone (LfIsEnough).
- HeaderNames.NameIsRead: names that hold a space before other bytes, which the loose table takes.
- HeaderFields.FieldsRun: such names, names with a space before the colon (SpacedNameIsRead), and line ends that are LF alone.
- BodyLength.EveryMessageFramedIff: such names and line ends, and request lines without a version.
- LineEnds.AnyTextIff: what a parser with LENIENT_HEADERS makes of control bytes in the values of Connection and Transfer-Encoding.
- TunnelAnswers.ServerInEveryRun: that the port told is the one asked for; which port a new proxy gets is the system's answer.
- ContentLengthBody.ContentLengthRoundTrip: CONNECT, which ConnectStops takes; a folded length is refused (FieldsMean).
- TunnelRights.RightsAreInherited: the run is for a magic of 1 to 255 bytes; RightsInEveryRun is for any.
- BodyLength.FollowsRfc7230Iff: the second rule of the section, on responses to CONNECT, which only the client that sent it can apply; HTTP/1.0 and trailers are framed like any other.
- `reason` and `error_pos`; nodes that differ only in them are one. Chains of nodes without a callback are one node.
- Callbacks that fail or pause, and `llhttp_pause` and `llhttp_resume`.
- BlockScan.ScanBlocks: what `_mm_cmpestri` computes is modelled, not taken from a processor's manual.
- `hincl.cpp`'s header map, which keeps only the last fragment of a field, and `http_interface`.
