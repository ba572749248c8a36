# A verified model of the event-driven TCP chatroom

The project models the chatroom program as a distributed system and proves what it promises: the
frame format and its incremental parser, connection buffering over non-blocking sockets, the
poll()-backed interest list, the server and client event loops, and the room as a whole with one
server, any number of honest clients and any number of arbitrary peers.

`dafny verify dfyconfig.toml` checks everything.

## How it is built

Each layer exists twice where the program updates something in place. First there are functions
on values (`Connections`, `Interest`, `ServerSpec`, `ClientSpec`), about which the properties are
proved. Then there are classes with the program's own fields, loops and early returns
(`Connections.Connection`, `Interest.PollInstance`, `ChatServerObject.ChatServer`,
`ChatClientObject.ChatClient`), each method of which is proved to compute exactly its function.

| file | contents |
|---|---|
| Frames | frame encoding, one parse attempt, parse-until-none, fragmentation |
| Connections | connection records, queue, parse, flush, read |
| Interest | epoll_ctl and epoll_wait over a list of entries |
| Room | room events, their broadcast text, names, projections of the room log |
| ServerSpec | every server handler, the batch loop, the event loop, cleanup |
| ServerPlumbing, ServerRecords, ServerInvariant, ServerHandlers | the server invariant and its preservation |
| ServerDispatch, ServerEvents | which handler an event reaches and what it does, in full; batches and runs |
| ServerTheorems, RoomOrder, ServerBatches, ServerShutdown, ServerStops, CloseOrder, QuitRuns, Finishing | what the server promises |
| ChatServer | the server object |
| ClientSpec, ClientInvariant, ClientTheorems, ClientEvents, ChatClient | the client, likewise |
| ChatSystem, HostLines | the whole room: runs, byte conservation, end-to-end delivery, what the host says |
| Scenarios | runs from setup that end badly: an overtaken farewell, a forged notice, a name, a chat and a line that end the room |

Kernel answers are parameters. A send or recv script lists the results of consecutive calls (a
script that has run out answers EAGAIN), accept yields a descriptor and the TCP connection behind
it, poll's answer is any sequence of readiness bits, and getline yields a line or fails. What is
assumed of the kernel is only that accept returns a descriptor that is not open, for a connection
not accepted before (`ServerPlumbing.LegalAccept`), and, in the whole system, what section 2.2 of
RFC 9293 promises: the bytes one end has received are a prefix of the bytes the other has sent
(`ChatSystem.Network`). Peers that are not honest clients may send anything at any time, reads may
report EOF or errors at any time, and honest clients may stop at any time.

Histories (frames queued and parsed, bytes sent and received, the room log, retired records,
descriptor calls, lines shown) are plain fields of the values and ghost fields of the classes.
Freed connection records can be handed out again by the server object's allocator, and freed
descriptor numbers by accept, so the cached pointer of the lookup and the descriptors of a batch
can really go stale.

The per-state server invariant is `ServerRecords.Good`: a listed connection is waiting for its
hello (no name, nothing queued, an unfinished frame buffered), or sending its SERVER_HELLO (a name,
a non-empty unsent rest of that one frame), or ACTIVE (a name, and queue and log entries that match
the room log); CLOSED and CONNECTION_ERROR records are never left in the list.

## Where the code does not do what one might expect

* A waiting input buffer need not be the start of a legal frame: the length is checked only once
  all five header bytes are there (`Frames.IncompleteExact`, `Frames.WaitingForAnIllegalFrame`).
* CLOSE_CON need not be the last frame a client is sent: a connection that is still being greeted
  at /quit joins later, and its join is broadcast behind the farewells (`QuitRuns.CloseLastExactly`
  says exactly when, `Scenarios.FarewellOvertaken` gives a run).
* A client can lose lines that have reached it. It shows nothing of a read that also reaches the end
  of the stream, not even complete broadcasts, and reports an unexpected message
  (`ClientTheorems.LastLineLost`); and it shows no broadcast that stands behind a CLOSE_CON
  (`ClientTheorems.LineBehindCloseLost`). `ClientTheorems.NothingLostExactly` says exactly when a
  read loses nothing.
* The server checks no names, so a peer that is not this client can forge a server notice. The names
  that can are "server" and those that begin with "server] `" (`Room.ForgeryExactly`), and
  `Scenarios.ForgedNotice` gives a run for each of them. Among honest endpoints it cannot happen
  (`ChatSystem.NoForgedNotices`).
* An oversized broadcast stops the server, and three things the length checks let through make one:
  a name of more than 65514 bytes, whose join is too long (`Scenarios.LongNameEndsRoom`); a chat that
  is a legal payload but too long under its name (`Scenarios.LongChatEndsRoom`), which an honest
  client sends if its user types a line that long (`ClientTheorems.TypedExactly`); and a line of the
  host that passes its length test but is too long under the host's name
  (`Scenarios.LongLineEndsRoom`). `ServerStops.GoesOnExactly` says exactly which events stop the
  loop.
* A closing room need not be able to drain: someone who is being greeted under a name too long to
  announce can only stop it by failure (`Finishing.DrainableExactly`).
* INSR.md lines 236-248 and 495-504 describe ERROR frames and rejection of long or duplicate
  names; the code drops bad handshakes silently and checks neither, and the model follows the code.

## Model

| member | source | states |
|---|---|---|
| Frames.ParseExact | src/network/protocol.cpp:69-109 | a buffer yields a message and a rest if and only if the message is legal and the buffer is its encoding followed by the rest |
| Frames.OversizedExact | src/network/protocol.cpp:84-88 | a buffer is refused exactly when its five header bytes are there and declare more than 65536, whether or not payload has arrived |
| Frames.WireFormat | src/network/protocol.cpp:33-109 | frames written out in bytes: type values, high byte first, and both sides of the size limit |
| Frames.RoundTrip | src/network/protocol.cpp:33-109 | any sequence of legal messages parses back to exactly those messages with an empty residue |
| Frames.ParseAllConserves | src/network/protocol.cpp:69-109 | parse-until-none loses and invents nothing: messages re-encoded, then residue, are the buffer, and the verdict is that of the residue |
| Frames.ParseAllBound | src/network/protocol.cpp:69-109 | at most a fifth as many frames as bytes, and a residue below 65541 bytes unless oversized |
| Frames.FragmentationIndependence | src/connection/connection.cpp:202-235 | any cut of a stream into reads gives the messages and verdict of parsing it at once, and the same residue if not oversized |
| Frames.EncodedPrefix | src/network/protocol.cpp:33-109 | a prefix of an encoded stream is a prefix of its messages plus a prefix of the encoding of the others |
| Frames.IncompleteExact | src/network/protocol.cpp:69-95 | a buffer starts some legal frame if and only if the parser waits on it and its received length bytes still allow a legal length |
| Frames.WaitingForAnIllegalFrame | src/network/protocol.cpp:70-89 | two bytes on which the parser waits although no legal frame starts with them |
| Connections.Connection.Queue | src/network/protocol.cpp:33-61 | appends exactly the frame, or rejects an oversized payload and only marks the record |
| Connections.Connection.Parse | src/network/protocol.cpp:69-109 | takes exactly the first complete frame off the input buffer, or marks an oversized one |
| Connections.Connection.FlushOutBuffer | src/connection/connection.cpp:163-195 | the flush loop equals the recursive flush for every script of send results |
| Connections.Connection.ReadAvailable | src/connection/connection.cpp:202-235 | the read loop equals the recursive read for every script of recv results |
| Connections.FlushKeeps | src/connection/connection.cpp:163-195 | a flush moves bytes from the front of the unsent part to the kernel, keeps their concatenation, and ends cleared or unfinished |
| Connections.FlushExact | src/connection/connection.cpp:163-195 | a flush hands over exactly as many unsent bytes as the kernel has room for, clears a finished buffer, and fails exactly on a hard error before that |
| Connections.QueueKeeps | src/network/protocol.cpp:33-61 | queueing, also into a half-flushed buffer, keeps: encoded queued frames = sent bytes, then unsent bytes |
| Connections.ReadExact | src/connection/connection.cpp:202-235 | a read appends exactly the bytes that arrived and reports exactly how it ended |
| Interest.CtlRefinesMap | src/network/epoll.cpp:71-115 | the list acts as a finite map: entries stay unique, failure is exactly a second add or a missing mod or del, success changes one descriptor only |
| Interest.WaitExact | src/network/epoll.cpp:135-145 | a batch holds an event for every entry poll reports on, in list order, as far as there is room, with exactly the flags that the poll bits stand for |
| Interest.WaitBatch | src/network/epoll.cpp:117-148 | a batch has at most the room given, names no descriptor twice and only watched ones |
| Interest.PollInstance.Control | src/network/epoll.cpp:71-115 | the in-place list operation equals the function on lists |
| Interest.PollInstance.WaitForEvents | src/network/epoll.cpp:117-148 | the reporting loop equals the function on lists |
| Room.RenderedLength | src/frontend/formatPrint.cpp:12-19 | exact frame lengths of joins, departures, chats and notices |
| Room.RoomTexts | src/frontend/formatPrint.cpp:12-19 | the texts of joins, departures, chats and the closing notice, spelled out |
| Room.DecodeExact | src/frontend/formatPrint.cpp:12-19 | the room text determines name and text if and only if the name has no space |
| Room.ForgeryExactly | src/server/server.cpp:522-559 | some line said under a name reads like a notice of the server if and only if the name is "server" or begins with "server] `" |
| Room.HostForgeryExactly | src/server/server.cpp:481-516 | the same of the host's lines and the host's name |
| Room.HonestCannotForge | src/client/client.cpp:458-468 | no name the prompts let through is one of those |
| ServerHandlers.HelloKeeps | src/server/server.cpp:269-330 | the hello handler keeps the server invariant for arbitrary peer bytes |
| ServerHandlers.SendKeeps | src/server/server.cpp:343-365 | so does the send handler, the join of a newcomer included |
| ServerHandlers.DrainKeeps | src/server/server.cpp:394-442 | so does the parse-and-relay loop |
| ServerHandlers.StdinKeeps | src/server/server.cpp:481-516 | so does the stdin handler, /quit included |
| ServerHandlers.AcceptKeeps | src/server/server.cpp:181-231 | so does the accept loop; registration of a legal descriptor cannot fail |
| ServerHandlers.EveryRun | src/server/server.cpp:99-167 | in every run from setup, with any peers, the invariant holds between events, and its history part also after a handler stopped the loop |
| ServerDispatch.DispatchExact | src/server/server.cpp:125-159 | which handler any event reaches, from descriptors, buffers, states and flags: writability is used whenever there is something to send, closing or not; everything else only until the room closes |
| ServerEvents.SendEffect | src/server/server.cpp:343-365 | a writable connection with something to send: how many bytes leave, and the whole state after a partial, complete or failed flush, a join included |
| ServerEvents.SendProgress | src/server/server.cpp:336-365 | if the kernel takes anything, some queued bytes have left |
| ServerEvents.ReadEffect | src/server/server.cpp:381-443 | a readable member: what is logged, and that exactly everyone else ACTIVE is queued exactly those frames in order |
| ServerEvents.StdinEffect | src/server/server.cpp:481-516 | a typed line that fits is logged and sent to exactly the ACTIVE connections exactly as typed; what becomes of every other line |
| ServerEvents.ArrivalsExact | src/server/server.cpp:181-231 | an accept event lists everyone who has arrived, in order, and disturbs nobody |
| ServerEvents.RefusedArrival | src/server/server.cpp:214-221 | a descriptor that cannot be registered is closed again and nothing is listed |
| ServerEvents.BatchExactly | src/server/server.cpp:125-159 | a batch is handled event by event, none left out, up to the first handler that fails |
| ServerEvents.LoopExactly | src/server/server.cpp:112-163 | the loop runs on if and only if each wakeup was an interruption or a batch handled to its end with the room open or bytes to send |
| ServerTheorems.InterestExact | src/network/epoll.cpp:71-115 | between events exactly the listener, stdin and listed connections are watched, for writing exactly while bytes are unsent, for reading until the room closes; mod cannot fail |
| ServerTheorems.BroadcastAllOrNothing | src/server/server.cpp:449-467 | every recipient gains exactly the one frame and nobody else changes, or the frame is oversized for someone: then no buffer, entry or log changes and the first recipient is in error |
| ServerTheorems.HelloExact | src/server/server.cpp:269-330 | what the first frame of all bytes received decides: wait, answer (keeping the bytes behind it, even at EOF) or drop; nothing is logged; it fails exactly when it must answer and the host's name fits no frame |
| ServerStops.SendExact | src/server/server.cpp:343-365 | the send handler fails exactly on a hard error or when it completes the greeting of someone whose name is too long to announce |
| ServerStops.StdinExact | src/server/server.cpp:481-516 | which lines of the host stop the loop: a failed getline, /quit with nobody owed bytes, a line too long under the host's name while someone is ACTIVE |
| ServerStops.GoesOnExactly | src/server/server.cpp:125-153 | for any event, any bytes, any line and any kernel answers: exactly when the handler lets the loop go on |
| ServerTheorems.DrainExact | src/server/server.cpp:394-442 | the loop relays exactly the events of the whole buffer parsed at once, in order, and fails exactly when someone should get an oversized one |
| ServerTheorems.ReadRelays | src/server/server.cpp:381-443 | the read handler for any bytes: which events are logged, when it stops the server, whether the connection stays and with what rest |
| ServerStops.PeersCannotStop | src/server/server.cpp:125-153 | with names up to 65511 bytes, chats that fit and no hard send or accept error, no handler but stdin's returns false, whatever peers send |
| RoomOrder.QueueIsProjection | src/server/server.cpp:343-361 | an ACTIVE connection has been queued SERVER_HELLO, then only BROADCASTs and CLOSE_CONs, the broadcasts being its own join and the later log without its own events; all of it byte for byte sent or unsent |
| RoomOrder.CommonOrder | src/server/server.cpp:449-467 | what two members are queued are two projections of one log from the later join on |
| RoomOrder.Lifecycle | src/server/server.cpp:389-442 | every logged event of a connection has its join at or before it, there is no second join, and nothing of it follows its departure |
| RoomOrder.EveryDescriptorClosedOnce | src/server/server.cpp:659-679 | over any run with cleanup every descriptor is closed exactly once and none is left open |
| RoomOrder.NoClosedDescriptorWatched | src/server/server.cpp:593-611 | listed and watched descriptors are open, also after a handler has failed |
| ServerBatches.DispatchUntouched | src/server/server.cpp:125-159 | handling an event on one descriptor moves no connection on another |
| ServerBatches.NoStaleEvents | src/server/server.cpp:125-159 | every event of a batch finds its descriptor held by the connection that held it when epoll_wait returned, despite removals and descriptor reuse |
| ServerShutdown.DrainingProgress | src/server/server.cpp:129-163 | while closing, (hellos being sent, unsent bytes) never grows and shrinks whenever the kernel takes a byte |
| Finishing.DrainableExactly | src/server/server.cpp:129-163 | from any closing state some legal continuation ends the loop through empty buffers, every handler succeeding, if and only if nobody is being greeted under a name too long to announce |
| Finishing.DrainedEnds | src/server/server.cpp:155-163 | such a continuation ends the event loop with the invariant intact and nothing left to send |
| ServerShutdown.QuitQueues | src/server/server.cpp:491-500 | /quit queues the notice and CLOSE_CON to exactly the ACTIVE connections |
| ServerEvents.QuitArms | src/server/server.cpp:561-581 | from /quit on members are watched for writing and hang-ups only, and nothing else changes in the interest list |
| ServerShutdown.QuitGoesOn | src/server/server.cpp:491-500 | after /quit the loop goes on if and only if some connection is ACTIVE or being greeted |
| QuitRuns.QuitExactly | src/server/server.cpp:99-167 | a run closes the room exactly where the host types /quit, and from there it is the rest of that batch and the loop after it |
| QuitRuns.FarewellDelivered | src/server/server.cpp:561-591 | in every run from setup with a /quit: if all buffers are empty at the end, whoever was ACTIVE at /quit has had its whole stream, CLOSE_CON included, taken by the kernel |
| CloseOrder.NoCloseBeforeQuit | src/server/server.cpp:561-581 | in every run no stream contains CLOSE_CON before /quit |
| QuitRuns.CloseLastInRun | src/server/server.cpp:359-361 | in every run from setup CLOSE_CON is last in every stream, of listed and of removed connections, unless at /quit somebody was being greeted under a joinable name while another was ACTIVE |
| QuitRuns.CloseLastExactly | src/server/server.cpp:359-361 | it is last in every stream through every legal run that begins with /quit if and only if that was not so |
| Scenarios.FarewellOvertaken | src/server/server.cpp:343-365 | a legal run from setup at whose end CLOSE_CON is not the last frame of a stream |
| Scenarios.ForgedNotice | src/server/server.cpp:296-310 | for every forging name that fits a join, a legal run in which a peer joins under it and another member is sent a notice of something that did not happen |
| Scenarios.LongNameEndsRoom | src/server/server.cpp:522-547 | for every name too long to announce, a legal run that a peer of that name ends without /quit |
| Scenarios.LongChatEndsRoom | src/server/server.cpp:434-442 | for any two members and every legal payload too long under the name of the one, a legal run that its chat ends without /quit |
| Scenarios.LongLineEndsRoom | src/server/server.cpp:502-515 | the same of a host line that passes the length test |
| ChatServerObject.ChatServer.GetConnectionOf | src/server/server.cpp:617-645 | cached lookup equals linear search whatever the cache points to, with record memory and descriptors reused |
| ChatServerObject.ChatServer.Broadcast | src/server/server.cpp:449-467 | the loop over records equals the one-step delivery, stopping at the first refused recipient |
| ChatServerObject.ChatServer.RemoveConnection | src/server/server.cpp:593-611 | exactly this record leaves list and interest set, and its descriptor is closed |
| ChatServerObject.ChatServer.HandleAcceptEvent | src/server/server.cpp:181-231 | equals the accept function, the failed-registration path included |
| ChatServerObject.ChatServer.HandleHelloEvent | src/server/server.cpp:269-330 | equals the hello function |
| ChatServerObject.ChatServer.HandleSendEvent | src/server/server.cpp:343-365 | equals the send function |
| ChatServerObject.ChatServer.HandleReadEvent | src/server/server.cpp:381-443 | equals the read function |
| ChatServerObject.ChatServer.HandleStdinEvent | src/server/server.cpp:481-516 | equals the stdin function |
| ChatServerObject.ChatServer.ServerEventLoop | src/server/server.cpp:99-167 | equals the event loop function over any sequence of wakeups |
| ChatServerObject.RunServer | src/server/server.cpp:99-167 | setup, loop and cleanup together equal their functions |
| ClientInvariant.DispatchKeeps | src/client/client.cpp:161-191 | every client event keeps: queued CLIENT_HELLO CHAT* CLOSE_CON?, screen equals the parsed broadcasts, interest exactly as needed |
| ClientEvents.StartEffect | src/client/client.cpp:126-145 | what setup leaves: a hello queued if the connection stands at once, a pending connect otherwise |
| ClientEvents.ConnectEffect | src/client/client.cpp:328-366 | any report on a pending connect queues the hello if it succeeded and ends the client if not |
| ClientEvents.SendEffect | src/client/client.cpp:289-326 | a writable client with something to send: the whole state after a partial, complete or failed flush, quitting included |
| ClientEvents.ReadEffect | src/client/client.cpp:200-283 | a readable client reads in both reading states: its screen, whether it goes on, its state, name and unfinished rest |
| ClientEvents.TypedEffect | src/client/client.cpp:374-456 | what every typed line does: the CHAT or CLOSE_CON queued and the new interest, or nothing |
| ClientEvents.OthersIgnored | src/client/client.cpp:161-191 | every other event changes nothing |
| ClientTheorems.ReadShows | src/client/client.cpp:211-283 | a read shows exactly the leading frames it completes, and nothing if it reaches EOF or an error |
| ClientTheorems.NothingLostExactly | src/client/client.cpp:211-283 | a read in either reading state, of any frames, shows every broadcast it completes if and only if it completes none, or it pauses before EOF and none stands behind a frame that ends the reading |
| ClientTheorems.OnlyCloseDisturbs | src/client/client.cpp:251-277 | of what a server sends a member only CLOSE_CON is such a frame |
| ClientTheorems.LineBehindCloseLost | src/client/client.cpp:251-262 | a line behind CLOSE_CON is never shown |
| ClientTheorems.LastLineLost | src/client/client.cpp:280-282 | a last line arriving with EOF is never shown |
| ClientTheorems.LateOnlyAtEof | src/client/client.cpp:280-282 | the complaint about an unexpected state is only made in a read that saw EOF |
| ClientTheorems.TypedExactly | src/client/client.cpp:388-427 | an ACTIVE client queues a typed line as one CHAT if and only if it is not empty, not /quit and at most 65536 bytes, whatever its name |
| ChatClientObject.ChatClient.HandleEvent | src/client/client.cpp:161-191 | the client's dispatch and handlers equal their functions |
| ChatSystem.ByteConservation | src/connection/connection.cpp:163-235 | in every run and both directions: encoded frames queued = frames parsed by the peer, its input buffer, bytes in flight, bytes unsent |
| ChatSystem.EndToEnd | src/server/server.cpp:389-467 | in every run a client's screen is a prefix of the room log since its join without its own part |
| ChatSystem.ScreensAgree | src/server/server.cpp:449-467 | in every run the events that two members are both sent stand in the same order on their screens, one screen being ahead of the other |
| ChatSystem.QuietScreen | src/client/client.cpp:211-277 | and the whole of it once nothing is unsent, in flight or waiting to be parsed |
| ChatSystem.SaidWhatWasTyped | src/client/client.cpp:420-427 | what the log has an honest client say is, in order and under its name, a prefix of what it queued |
| ChatSystem.QuietLog | src/server/server.cpp:389-442 | and all of it once everything it sent has arrived and is parsed |
| HostLines.HostSaidWhatWasTyped | src/server/server.cpp:481-516 | in every run, what the log has the host say is exactly what the host typed for the room, in order and unaltered |
| ChatSystem.NothingBeforeAccept | src/client/client.cpp:237-277 | a client the server has not accepted shows nothing |
| ChatSystem.HonestNeverBlamed | src/server/server.cpp:269-330 | no framing or type check ever fails between honest endpoints, on either side, frames read together with EOF apart |
| ChatSystem.NoForgedNotices | src/server/server.cpp:522-559 | in a room of honest endpoints nothing said reads like a notice |

## Left out

- Real sockets, fcntl, bind, listen, connect and getsockopt: only their outcomes are parameters.
- The kernel's own epoll: the interest set is the list of the poll()-backed version, and its descriptor is not counted among those opened and closed; fairness beyond one batch of 16 events is not claimed.
- The prompts of client_init and server_init and main.cpp: only the constraints they put on names are used; failed setup paths before the event loop are not modelled.
- Standard output: the lines a client shows for broadcasts are a history; the server's own console lines, the client's echo of its own chats and status lines are not.
- src/log: it has no bearing on behaviour.
- Exhausted memory and signals other than EINTR.
- Message.payload_length: always equal to the payload's size when a frame is queued or parsed, so it is not a field of the model's messages.
- Duplicate-name rejection and ERROR frames: described in INSR.md, not implemented by the code.
- The client's cleanup and the batch loop of the client: each event is handled separately; a client that has stopped takes no further steps.
- ChatSystem.Next: the server handles one event per step rather than one batch, which allows more interleavings than the program has.
