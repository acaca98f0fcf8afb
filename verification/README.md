# gosocketio in Dafny

A model of the logic of `gosocketio`, a Go implementation of Engine.IO (protocol
v4) and Socket.IO (protocol v5), with proofs of what its documentation promises:
that a session moving from long polling to a websocket keeps its packets and
their order, that each poll is answered once, that the codecs invert each other,
that a packet with binary data arrives as it was sent, and that rooms,
acknowledgements and reconnection behave over whole histories of calls.

`dafny verify dfyconfig.toml` checks everything.

## How it is built

Wire formats.
`EnginePayload` is the Engine.IO packet and polling-payload codec, with `Base64`
written out after section 4 of RFC 4648. `PacketText` is the Socket.IO header
printer and scanner (with `Decimal` for numerals). `BinarySplit` takes binary
leaves out of a payload and puts them back, and `Reassembly` joins it to the
sender and to the receiver's state machine. JSON is a value tree in `Json`; the
printing and parsing library is a parameter of which two facts are used, and
`JsonWitness` shows a library with both.

Engine.IO session.
`PollingTransport` is the long-polling transport, its critical sections as
functions and its object as a class. `SessionSystem` is the session as a
transition system: every action is one stretch between taking and releasing a
mutex, or the start or end of an unlocked call; a flush is take, send and
finish, a websocket writes its batch packet by packet, the upgrade callback goes
by stages, the upgrade timer may close a candidate at any time, and an event of a
transport is raised in one action and looked at by the session in another. Actions interleave
in any order; calls that one call makes in turn are merely all owed, which allows
more runs than the program has, and the runs exhibited keep to its order. A
session begins on polling or directly on a websocket. `SessionInvariants` (the
ledger of packets), `SessionTheorems`, `SessionClosing` (whether an orderly close
ends) and `SessionFaults` hold what follows for all runs and the runs that break
a promise; `ServerTable` puts many sessions under one server's table.
`SerialSession` is the coarser session, in which each call runs to its end,
callbacks included; `SessionSocket` is the session object whose
methods are proved equal to its steps, and `SessionRefinement` shows each of its
runs to be a run of `SessionSystem`. `UpgradeHandshake` puts both ends of an
upgrade at the ends of two first-in-first-out channels of frames. `EngineClient`
is the client's sending side.

Around it.
`RoomAdapter` and `NamespaceTable` are rooms and the id table of a namespace,
`Acks` the acknowledgement table, `Backoff` the reconnection loop.

Integers are unbounded; where the program's 64-bit arithmetic can be felt it is
written out with `Wrap64`. Map iteration order is left open by `:|`. Polls,
emits and upgrade attempts go by number, so a history can name them.

## Promises that hold only under a condition

Where the program breaks a promise, the model keeps the program's behaviour,
exhibits it, and states when the promise holds.

- *Nothing accepted is lost.* Through upgrades and closes, what is lost or bound
  to be lost is exactly what the run's actions spilled onto closed transports, so
  nothing is if and only if none of them spills
  (`SessionInvariants.NothingLostIffNothingSpilled`).
  - A poll handler that has taken buffered packets along is not seen by the
    upgrade callback's drain, and its own send then finds the transport closed
    (`SessionFaults.UpgradeCanLosePacket`).
  - The upgrade timer may close a candidate that has confirmed and is about to
    become active; the flush after the switch then hands its batch to a closed
    websocket (`SessionFaults.ExpiredCandidateLosesPacket`).
  - In an open session that began on polling, with orderly aborts, those are the
    only losses: there is none if and only if the polling transport is closed with
    nothing in its buffer or with a handler and no flush takes a packet for such a
    candidate (`SessionTheorems.UpgradeLosesNothing`).
  - `Close` beside a flush in progress drops its batch
    (`SessionFaults.CloseCanLosePacket`).
- *A session switches once.* An abort callback runs again when the reader of the
  closed websocket ends, and then clears the flag of a newer attempt
  (`SessionFaults.StaleAbortAllowsTwoSwitches`). Attempts stay one at a time if
  and only if no such abort runs while another attempt probes
  (`SessionTheorems.SwitchesAtMostOnce`); any such abort allows a second switch
  (`SessionTheorems.DisorderlyAbortAllowsTwoSwitches`).
- *A closed session ends.* An orderly close during an upgrade can be left
  without an end: the transport's close event is heard in vain because of the
  upgrade (`SessionFaults.CloseDuringUpgradeStalls`), or the upgrade succeeds and
  leaves the close behind with the old transport
  (`SessionFaults.CloseThenSwitchStalls`). Those two actions are the only ones
  that break the chain (`SessionClosing.CloseEndsIffNeverStalls`). With orderly
  aborts, calling `Close` only outside an upgrade is enough
  (`SessionClosing.TimelyCloseEnds`).
- *Delivery is in order.* In the serial session a close during an upgrade can
  leave it stalled, unclosed on a closed transport, and a later poll then drops
  what was buffered (`SerialSession.ImpoliteCloseDropsPacket`). Over every run the
  wire and the write buffer are what was accepted, in order, if and only if no poll
  outside an upgrade, and no abort of an upgrade on a websocket or with a poll
  pending, finds a stalled session with packets waiting
  (`SerialSession.InOrderIffNeverDrops`).
- *The server lists the sessions that are not closed.* Exactly as long as no
  session is created under an id in use
  (`ServerTable.TableIsExactIffIdsAreFresh`); a generator of ids that repeats one
  lets the close of one session unlist another that is open
  (`ServerTable.RepeatedIdUnlistsOpenSession`).
- *No broadcast reaches a removed socket.* No lookup finds one, but a broadcast
  that found the socket before its removal may still emit to it, because its
  connected flag is cleared later (`NamespaceTable.LateEmissionHappens`): at most
  once for each such lookup (`NamespaceTable.LateEmissionsWereResolvedBefore`).
  Nor does clearing the flag end it, for the flag is read under a lock and the send
  comes after (`NamespaceTable.SilentEmissionReached`): a removed socket with its
  flag down is emitted to in some run if and only if a check it passed is still
  outstanding (`NamespaceTable.SilentIsEmittedToIffPassed`).
- *What is sent is dispatched.* The sender does not check what the receiver
  refuses: an event with a reserved name goes out and is dropped
  (`Reassembly.ReservedEventIsDropped`), and a namespace without a leading slash
  or with a comma is read as something else. `Reassembly.OneSend` has the exact
  condition.
- *No callback after a disconnect.* After the table is cleared a callback is
  still called in some run if and only if an ack had already taken it, or its id
  had been drawn and it was not yet registered (`Acks.CalledAfterClearIff`); both
  happen (`Acks.CallAfterClear`, `Acks.BelatedCallReached`). One the clear dropped
  never is (`Acks.CallbacksRunAtMostOnce`).
- *A binary payload comes back.* Exactly when no object of the user's has
  `_placeholder` true (`BinarySplit.RestoredIffNoDecoy`).
- *A body that fits is read.* Not at the largest limit, where the reader's bound
  wraps to a negative number (`EnginePayload.GatePassesWholeBody`).
- *Backoff doubles up to its cap.* Exactly when both settings are below 2^62
  (`Backoff.BackoffIsExponential`); 2^62 itself already wraps.
- *Nothing goes to polling once the client has switched.* A flush that has taken
  its batch and not yet begun to send it is not waited for
  (`EngineClient.OverlapReachesOldTransport`). However flushes overlap, every
  course of an upgrade keeps to the right transport if and only if no batch is in
  flight when it begins (`EngineClient.PlacedIffClearStart`).

The documentation and the code differ in two places that matter here, and the
model follows the code: payload records are separated by 0x1e, not prefixed with
a length as docs/TECHNICAL_DESIGN.md:61 has it; and the client's flush without a
transport would drop its buffer rather than keep it as engineio/client.go:392-394
says, though a dialled client always has one.

## Model

| member | source | states |
|---|---|---|
| `Base64.RoundTrip` | engineio/transport/packet.go:122-125 | decoding the standard encoding of any bytes gives them back |
| `Base64.EncodeIsCode` | engineio/transport/packet.go:122-125 | encoded text uses only the base64 alphabet and padding, so never the record separator |
| `EnginePayload.PacketRoundTrip` | engineio/transport/packet.go:117-168 | a packet survives its polling record if and only if its type is legal for its data |
| `EnginePayload.FrameRoundTrip` | engineio/transport/packet.go:117-144 | a packet survives its websocket frame, the frame kind telling binary from text |
| `EnginePayload.EncodePayload` | engineio/transport/packet.go:175-184 | the encoding loop yields the records joined by 0x1e |
| `EnginePayload.JoinSplit` | engineio/transport/packet.go:205 | splitting at the separator and joining again is the identity on every body |
| `EnginePayload.SplitJoin` | engineio/transport/packet.go:175-205 | splitting a join of separator-free records gives the records back |
| `EnginePayload.PayloadRoundTrip` | engineio/transport/packet.go:175-190 | a list of packets survives a polling payload if and only if every packet is sendable |
| `EnginePayload.DecodePayloadWithLimit` | engineio/transport/packet.go:201-228 | the loop, with its 64-bit running size, decodes record by record as the specification does, including packets kept before an error |
| `EnginePayload.LimitIsExact` | engineio/transport/packet.go:192-228 | the outcome of a limited decoding is decided by the first record that is oversize, overflowing or malformed |
| `EnginePayload.OffenderIsUnique` | engineio/transport/packet.go:192-228 | only one outcome fits that description |
| `EnginePayload.KeepsLongestPrefix` | engineio/transport/packet.go:197-218 | a successful limited decoding keeps exactly the longest prefix of records within the limit |
| `EnginePayload.GateMakesLimitIdle` | engineio/transport/polling.go:201-212 | a body that passes the HTTP size gate decodes as with no limit, so neither truncation nor too-large happens there |
| `EnginePayload.GatePassesWholeBody` | engineio/transport/polling.go:201-210 | a body passes whole if and only if it fits the limit and the limit is not the largest one |
| `EnginePayload.LargestLimitReadsNothing` | engineio/transport/polling.go:201 | at the largest limit a non-empty body is read as empty and let through |
| `Decimal.AtoiOfItoa` | socketio/packet.go:77 | a printed count parses back |
| `PacketText.IndexFrom` | socketio/packet.go:111-116 | the scanning loop finds the first occurrence of a character |
| `PacketText.DigitsFrom` | socketio/packet.go:142-146 | the scanning loop finds the end of a run of digits |
| `PacketText.ReadAttachments` | socketio/packet.go:110-124 | the attachment count up to the dash, or an error when there is no dash or no valid count |
| `PacketText.ReadNamespace` | socketio/packet.go:127-139 | the namespace up to its comma, or the whole rest without one |
| `PacketText.ReadId` | socketio/packet.go:142-149 | the acknowledgement id, saturated when it exceeds 64 bits |
| `PacketText.DecodeText` | socketio/packet.go:96-161 | the index-advancing scanner computes the recursive scanner's result on every input, errors included |
| `PacketText.ScannedIsCanonical` | socketio/packet.go:96-212 | the scanner yields canonical packets only |
| `PacketText.TextReadBack` | socketio/packet.go:74-212 | with good fields and a payload that is no bare number or truth value, scanning what was printed gives the packet, or a refusal if its payload is not valid for its type |
| `PacketText.CountReadBack` | socketio/packet.go:77-124 | a printed attachment count is scanned back whatever follows it, if the text is accepted at all |
| `PacketText.TextRoundTrip` | socketio/packet.go:74-161 | scanning what was printed gives the packet back if and only if the packet is canonical |
| `PacketText.Normalisation` | socketio/packet.go:74-161 | decode, encode, decode equals decode on every accepted text: missing commas, leading zeros and saturated ids included |
| `JsonWitness.SomeLibraryIsLawful` | socketio/packet.go:88-90 | there is a library whose parser inverts its printer and whose containers and strings open with their own sign |
| `BinarySplit.Deconstruct` | socketio/packet.go:247-284 | under every map order: fails if and only if some reader fails; otherwise each binary leaf became one placeholder numbered from the buffers already there, and its bytes are in that buffer |
| `BinarySplit.DeconstructItems` | socketio/packet.go:262-271 | the same for a list |
| `BinarySplit.DeconstructFields` | socketio/packet.go:272-281 | the same for an object visited in any order |
| `BinarySplit.NumbersAreUsedOnce` | socketio/packet.go:249-261 | no two placeholder numbers stand at one place |
| `BinarySplit.HasBinaryIffLeaf` | socketio/packet.go:223-241 | the test for binary data holds if and only if some path leads to a binary leaf |
| `BinarySplit.BuffersIffBinary` | socketio/packet.go:223-284 | the test holds if and only if the walk attaches at least one buffer |
| `BinarySplit.RestoredIffNoDecoy` | socketio/packet.go:304-330 | reconstruction gives the payload, readers drained, if and only if no user object is marked as a placeholder |
| `Reassembly.SendPacket` | socketio/server.go:595-618 | a plain packet is one text frame; a binary one its header and its buffers; one with a failing reader nothing |
| `Reassembly.Connection.HandleIn` | socketio/server.go:528-548 | one incoming frame: bad text is ignored, a binary header starts a reconstruction, anything else is processed at once |
| `Reassembly.Connection.FeedBinary` | socketio/server.go:550-565 | a buffer without a header is ignored; the last one expected completes the packet |
| `Reassembly.Connection.Process` | socketio/server.go:567-590 | the packet is passed on once, with binary types mapped back to plain ones, and acted on if its type is one this end heeds: the server ignores CONNECT_ERROR, the client does not |
| `Reassembly.OneFrame` | socketio/client.go:376-413 | from any point of an orderly stream, the next frame moves the receiver to the matching state and dispatches exactly what is due, whatever the header and the payload |
| `Reassembly.ReassemblyRefinesSending` | socketio/server.go:528-575 | over a stream in which attachments precede the next header and plain packets go anywhere, each packet is worth to the receiver exactly what it is worth alone, a binary event or ack at its last frame and any other packet at its first |
| `Reassembly.OneSend` | socketio/client.go:565-594 | one send leaves an idle receiver idle; a readable packet is dispatched as sent if and only if its namespace and id are well formed, its payload has the form its type demands and binary data is in an event or ack beside no decoy; a failing reader puts nothing on the wire |
| `Reassembly.ReservedEventIsDropped` | socketio/packet.go:162-205 | an event named "connect" is one frame on the wire and nothing at the receiver |
| `Reassembly.ReceiverDispatchesWhatWasSent` | socketio/server.go:528-618 | over a connection the receiver dispatches, in order, what each send makes it dispatch alone: the packet itself if and only if its header is well formed and it is accepted, nothing for an unreadable one |
| `PollingTransport.PollOwnership` | engineio/transport/polling.go:111-174 | over every interleaving of sends, aborts, drains and closes the poll fields are set together and exactly while writable, each poll is answered at most once and its channel closed at most once |
| `PollingTransport.PollsEndOnce` | engineio/transport/polling.go:245-294 | from a new transport on, at most one poll is pending, no poll is answered twice or again pending once answered, and no done channel is closed twice |
| `PollingTransport.Transport.constructor` | engineio/transport/polling.go:51-55 | a transport starts with no poll, nothing buffered and open |
| `PollingTransport.Transport.OnPollRequest` | engineio/transport/polling.go:111-130 | a second poll is refused and changes nothing; otherwise the poll is registered and takes the buffer along, unless the transport is closed |
| `PollingTransport.Transport.OnPollAborted` | engineio/transport/polling.go:133-151 | the pending poll, and only that one, is withdrawn and its wait ended |
| `PollingTransport.Transport.Send` | engineio/transport/polling.go:245-294 | answers the pending poll or buffers, an orderly close riding along; a closed transport drops the batch |
| `PollingTransport.Transport.DrainBuffered` | engineio/transport/polling.go:300-306 | hands over the buffer and empties it |
| `PollingTransport.Transport.Discard` | engineio/transport/polling.go:310-314 | marks the transport and nothing else |
| `PollingTransport.Transport.Close` | engineio/transport/polling.go:320-344 | decides between nothing, reporting, sending a close packet, and waiting for a poll under a timer |
| `PollingTransport.Transport.CloseNow` | engineio/transport/polling.go:348-377 | closes for good, ends the pending poll's wait, and tells the first caller only |
| `SessionInvariants.InvAlways` | engineio/socket.go:177-203 | in every reachable state, once the upgrade callback has seen no flush in progress, none targets the polling transport; an open session's polling transport is untouched by closes until retired |
| `SessionInvariants.Conservation` | engineio/socket.go:162-203 | under any weighing of packets, what was accepted equals what was delivered, is on hand, or was lost, after every run |
| `SessionInvariants.LossIsWhatWasSpilled` | engineio/socket.go:305-464 | in every state of every run, closing and closed sessions included, what is lost or bound to be lost is exactly what the run's closes and late flushes dropped |
| `SessionInvariants.ConservationAcrossUpgrade` | engineio/socket.go:162-464 | from either beginning and in every state, each accepted copy of a packet is delivered, in the write buffer, in flight, in the polling buffer, with a poll handler, with the upgrade callback, or lost, and the loss is accounted for exactly |
| `SessionInvariants.NothingLostIffNothingSpilled` | engineio/transport/polling.go:245-306 | nothing is lost or bound to be, through upgrades and closes, if and only if no action hands or leaves a packet to a transport that is closed |
| `SessionInvariants.ReadyAlwaysForward` | engineio/socket.go:305-353 | a session goes from open through closing to closed and never back, whatever callbacks re-enter |
| `SessionTheorems.SwitchesAtMostOnce` | engineio/socket.go:357-477 | attempts stay one at a time, at every moment, if and only if no abort of a finished attempt runs while another probes; and then the session switches at most once |
| `SessionTheorems.DisorderlyAbortAllowsTwoSwitches` | engineio/socket.go:466-477 | from any open state, an abort of a finished attempt while another probes allows a run with two switches |
| `SessionTheorems.UpgradeLosesNothing` | engineio/socket.go:408-464 | an open session begun on polling, with orderly aborts, has nothing lost or bound to be lost if and only if its polling transport was closed with nothing in its buffer or with a poll handler, and no flush took a packet for a candidate closed by the upgrade timer |
| `SessionTheorems.NoLostWakeUp` | engineio/socket.go:171-203 | whenever packets wait on a writable transport outside an upgrade, a flush is in progress or some call still owes one |
| `SessionTheorems.QuietSessionsAreDrained` | engineio/socket.go:171-203 | with no flush coming, packets wait only for a poll, for an upgrade to settle, or in a closed session |
| `SessionTheorems.FarewellExactlyOnce` | engineio/socket.go:329-353 | the close callback is due or has run, once, exactly when the session is closed |
| `SessionTheorems.EverySession` | engineio/server.go:188-235 | from its creation on polling or on a websocket, through every run: no packet is stranded, no flush in progress targets a drained transport, and the close callback is due or done once, exactly when the session is closed |
| `SessionTheorems.ReplacedTransportsCannotEndIt` | engineio/socket.go:241-265 | only a call to close, or an event of the active transport heard outside an upgrade, ends a session |
| `SessionClosing.StepKeepsEnd` | engineio/socket.go:256-324 | an action leaves a closing session without an end in prospect if and only if it hears the last event of its transport during an upgrade or switches away from the transport the close was passed to |
| `SessionClosing.CloseEndsIffNeverStalls` | engineio/socket.go:305-353 | over every run, a closing session has its end in prospect at every moment if and only if neither of those happens |
| `SessionClosing.QuietSessionsAreNotClosing` | engineio/socket.go:305-353 | then, once all calls have returned, events were heard and no timer is set, no session is left closing |
| `SessionClosing.TimelyCloseEnds` | engineio/socket.go:305-353 | with orderly aborts, and Close called only outside an upgrade, neither happens in any run, so every orderly close has its end in prospect at every moment |
| `ServerTable.StepKeepsExact` | engineio/server.go:215-226 | the server's table stays exact over a step if and only if a session is not created under an id in use |
| `ServerTable.TableIsExactIffIdsAreFresh` | engineio/server.go:203-235 | over every run of a server and all its sessions, the table holds exactly the sessions whose close callback has not run, at every moment, if and only if ids are fresh whenever one is created |
| `ServerTable.InClientsIffNotClosed` | engineio/server.go:203-235 | with distinct ids a session is in the table if and only if its close callback has not run: always while unclosed, and no more once the callback has run |
| `ServerTable.RepeatedIdUnlistsOpenSession` | engineio/server.go:288-297 | whenever a session is created under the id of an unclosed one, the close of the first unlists the second while it is open |
| `SessionFaults.UpgradeCanLosePacket` | engineio/transport/polling.go:126-161 | a run in which an upgrade loses the packet a poll handler had taken along |
| `SessionFaults.StaleAbortAllowsTwoSwitches` | engineio/socket.go:466-476 | a run in which a second abort callback lets a session switch twice |
| `SessionFaults.CloseCanLosePacket` | engineio/socket.go:305-324 | a run in which closing drops the batch of a flush in progress |
| `SessionFaults.ExpiredCandidateLosesPacket` | engineio/socket.go:377-464 | a run in which the upgrade timer closes a confirmed candidate before the switch, and the flush after it loses its batch in an open session |
| `SessionFaults.CloseDuringUpgradeStalls` | engineio/socket.go:256-265 | a run that leaves a closing session with its packet unsent, its transport closed and no call in progress |
| `SessionFaults.CloseThenSwitchStalls` | engineio/socket.go:408-464 | a run that leaves a session closing on a live websocket with no call in progress and no timer set |
| `SerialSession.StepKeepsGood` | engineio/socket.go:177-203 | every call keeps the wire followed by the write buffer equal to what was accepted, in order, unless something was dropped, and then their number with the dropped ones |
| `SerialSession.StrictOrder` | engineio/socket.go:177-477 | from either beginning, over every run with any upgrades and aborts, packets on the wire followed by the write buffer are the accepted packets in order and the polling buffer stays empty: always while open, and to the end if Close does not interrupt an upgrade |
| `SerialSession.OpenRunsArePolite` | engineio/socket.go:305-315 | a session still open has never been closed, so the condition needs no checking there |
| `SerialSession.FlushDropsExactlyWhenStalled` | engineio/socket.go:177-203 | a flush drops packets if and only if the session is unclosed on a closed transport, not upgrading, and on a websocket or with a poll pending |
| `SerialSession.EventDropsIff` | engineio/socket.go:177-203 | in every reachable state an event drops packets if and only if the session is stalled with packets waiting and the event is a poll, none being pending, outside an upgrade, or an abort on a websocket or with a poll pending |
| `SerialSession.InOrderIffNeverDrops` | engineio/socket.go:177-477 | from either beginning, over every run, with Close at any time, the wire and the write buffer are what was accepted, in order, if and only if no such event occurs |
| `SerialSession.ImpoliteCloseDropsPacket` | engineio/socket.go:256-324 | closing during an upgrade, giving up the upgrade and polling again drops the buffered packet |
| `SerialSession.OrderlyCloseDrainsFirst` | engineio/transport/polling.go:154-173 | a polling session closed with no poll pending answers its next poll, whatever calls come between, with the write buffer and one close packet (a noop first if it was empty), and is then closed |
| `SessionSocket.Socket.constructor` | engineio/server.go:203-235 | a new session is open, on polling with its open packet waiting or on a websocket with the packet sent |
| `SessionSocket.Socket.CloseWithReason` | engineio/socket.go:329-353 | ends the session once, although closing the transport calls back into it |
| `SessionSocket.Socket.OnPollingEvent` | engineio/socket.go:241-265 | an event of the polling transport counts only while it is active and no upgrade is under way |
| `SessionSocket.Socket.NotifyClose` | engineio/transport/polling.go:370-377 | the transport is closed for good and the session hears of it once |
| `SessionSocket.Socket.SendOnWebsocket` | engineio/transport/websocket.go:114-127 | a live websocket writes the batch; a closed one drops it, and the failed write ends the session |
| `SessionSocket.Socket.SendOnPolling` | engineio/transport/polling.go:245-294 | a send with the report of an orderly close that may follow it |
| `SessionSocket.Socket.Flush` | engineio/socket.go:177-203 | takes the whole buffer and hands it to the active transport, or changes nothing |
| `SessionSocket.Socket.SendPacket` | engineio/socket.go:162-174 | an open session accepts the packet and flushes; another ignores it |
| `SessionSocket.Socket.OnPollRequest` | engineio/transport/polling.go:111-174 | a poll: refused, or registered, flushed, and used for buffered packets or a pending close |
| `SessionSocket.Socket.OnPollAborted` | engineio/transport/polling.go:133-151 | the client giving up a pending poll is an event of the transport |
| `SessionSocket.Socket.NoopTick` | engineio/socket.go:396-401 | a tick answers a pending poll with a noop until the switch |
| `SessionSocket.Socket.MaybeUpgrade` | engineio/socket.go:357-363 | takes a candidate on if and only if the session is open, not upgrading and not upgraded |
| `SessionSocket.Socket.RetirePolling` | engineio/socket.go:424-451 | what the old transport buffered goes ahead of the write buffer, and the transport is closed |
| `SessionSocket.Socket.OnUpgrade` | engineio/socket.go:408-464 | switches, retires the old transport and flushes; does nothing to a closed session |
| `SessionSocket.Socket.OnAbort` | engineio/socket.go:466-477 | ends the upgrade and flushes to the transport in place |
| `SessionSocket.Socket.CloseTransport` | engineio/socket.go:317-324 | closes the active transport with whatever report follows; a websocket's close ends the session unless an upgrade is under way |
| `SessionSocket.Socket.Close` | engineio/socket.go:305-315 | an open session flushes and closes its transport; another is left alone |
| `SessionRefinement.EventIsRun` | engineio/socket.go:162-477 | each serial call is a run of interleaved actions between matching states with no call left over |
| `SessionRefinement.SerialRunsAreRuns` | engineio/socket.go:162-477 | from either beginning every serial run is a run of the interleaved session ending in the same state with the same packets accepted, delivered, dropped and waiting |
| `UpgradeHandshake.UpgradeMisroutesNothing` | engineio/socket.go:509-518 | over every run no frame of the client's session reaches the server's probe handler, the client's probe loop discards no frame, and each session gets a prefix of what was sent to it |
| `UpgradeHandshake.UpgradeLosesNothing` | engineio/transport/websocket.go:79-106 | once a session is bound, what it got and what is still under way is everything the other end sent, in order |
| `UpgradeHandshake.SwitchIsAgreed` | engineio/client.go:328-377 | the server switches only for a client that confirmed, and the client confirms only a server that replied |
| `EngineClient.NothingIsLost` | engineio/client.go:279-408 | however flushes overlap and upgrades fail, accepted packets are handed over, in flight or buffered, as a multiset |
| `EngineClient.SerialFlushesKeepOrder` | engineio/client.go:279-408 | with serialised flushes, batches handed over and then the buffer are the accepted packets in order, none handed over during the upgrade and none to polling after it |
| `EngineClient.ClearStartPlaces` | engineio/client.go:288-377 | over every run, however flushes overlap, in which no batch is in flight when the upgrade begins, none is handed over during the upgrade and none to polling after it |
| `EngineClient.PlacedIffClearStart` | engineio/client.go:288-408 | every course of an upgrade places its batches so if and only if none was in flight when it began |
| `EngineClient.SettlingDeliversBacklog` | engineio/client.go:311-377 | when an upgrade settles, failed or not, the whole backlog goes in one batch to the transport then active |
| `EngineClient.OverlapReachesOldTransport` | engineio/client.go:395-408 | an upgrade begun with a batch taken and not yet sent can see it handed to polling after the switch |
| `EngineClient.Client.constructor` | engineio/client.go:165-186 | a client starts on polling with nothing accepted |
| `EngineClient.Client.SendMessage` | engineio/client.go:134-144 | an error if and only if the client is closed; otherwise the packet is accepted and flushed |
| `EngineClient.Client.FlushSends` | engineio/client.go:395-408 | hands the buffer over, or leaves it during an upgrade or when closed |
| `EngineClient.Client.BeginUpgrade` | engineio/client.go:288-296 | sends are held back from here on and polling is paused |
| `EngineClient.Client.AwaitReply` | engineio/client.go:335-350 | the probe loop succeeds if and only if the reply is among the frames, having read just up to the first one |
| `EngineClient.Client.FinishUpgrade` | engineio/client.go:311-377 | a success switches, stops polling and flushes, unless the client was closed; a failure flushes to the transport in place and lets polling go on |
| `EngineClient.Client.CloseWithError` | engineio/client.go:436-456 | closes once and says so to the first caller only |
| `RoomAdapter.MembershipIsHistory` | socketio/adapter.go:58-101 | after any calls, an id is in a room if and only if it was let in and not put out since, and registered if and only if added and not removed since |
| `RoomAdapter.ExceptNarrows` | socketio/namespace.go:270-277 | each exclusion removes exactly the listed ids from the targets, in any order |
| `RoomAdapter.Excepted` | socketio/adapter.go:148-155 | the loop finds membership in the list |
| `RoomAdapter.Collect` | socketio/adapter.go:107-117 | the ids of a set outside the list, each once, in any order |
| `RoomAdapter.MemoryAdapter.constructor` | socketio/adapter.go:44-49 | an adapter starts with no ids and no rooms |
| `RoomAdapter.MemoryAdapter.AddSocket` | socketio/adapter.go:58-67 | the id is registered and in the room of its own name; no empty room is stored |
| `RoomAdapter.MemoryAdapter.RemoveSocket` | socketio/adapter.go:69-81 | the loop that deletes while ranging leaves the relation without the id, and no empty room |
| `RoomAdapter.MemoryAdapter.AddToRoom` | socketio/adapter.go:83-90 | one pair is added to the relation |
| `RoomAdapter.MemoryAdapter.RemoveFromRoom` | socketio/adapter.go:92-101 | one pair is taken from the relation, and the room with its last member |
| `RoomAdapter.MemoryAdapter.Broadcast` | socketio/adapter.go:103-127 | each target outside the exceptions exactly once: the room's members, nobody for an unknown room, everybody for the empty one |
| `NamespaceTable.QuietTablesAgree` | socketio/namespace.go:195-256 | whenever no add or remove is half done, the table and the adapter hold the same ids |
| `NamespaceTable.RemovedIsNeverResolved` | socketio/namespace.go:219-256 | over every run no lookup finds an id taken out of the table, whatever rooms it joins, no id returns to it, and each socket's disconnect handlers run at most once |
| `NamespaceTable.LateEmissionsWereResolvedBefore` | socketio/namespace.go:219-228 | from its removal on, in every run, a socket is emitted to at most once for each lookup that had found it by then |
| `NamespaceTable.SilentDecidesNoMore` | socketio/socket.go:48-54 | once a removed socket's connected flag is down, with no connect about to raise it, the emissions made and those a passed check still owes stay the same in number over every run |
| `NamespaceTable.SilentIsEmittedToIffPassed` | socketio/socket.go:48-54 | such a socket is emitted to in some run if and only if a check it passed is still outstanding |
| `NamespaceTable.SilentEmissionReached` | socketio/namespace.go:195-256 | a run from the start to such a socket, and one from there that emits to it |
| `NamespaceTable.LateEmissionHappens` | socketio/namespace.go:219-247 | whenever a disconnect comes between a lookup and its check of the flag, the removed socket can be emitted to |
| `NamespaceTable.LateEmissionReached` | socketio/namespace.go:195-247 | a run from the start in which that happens |
| `NamespaceTable.Namespace.constructor` | socketio/namespace.go:34-46 | a namespace starts with an empty table and adapter |
| `NamespaceTable.Namespace.AddSocket` | socketio/namespace.go:195-200 | table and adapter gain the id together |
| `NamespaceTable.Namespace.SetConnected` | socketio/socket.go:132-136 | one socket's flag is set or cleared |
| `NamespaceTable.Namespace.RemoveSocket` | socketio/namespace.go:202-207 | table and adapter lose the id together, rooms included |
| `NamespaceTable.Namespace.DisconnectSocket` | socketio/namespace.go:233-256 | handlers run if and only if the id was in the table, which it leaves with its rooms, its connected flag going down and its acknowledgements cleared; the client is told if and only if the server began it |
| `NamespaceTable.Namespace.Broadcast` | socketio/namespace.go:219-228 | emits exactly once to every target found in the table and connected |
| `Acks.CallbacksRunAtMostOnce` | socketio/ack.go:18-58 | over every run each callback is called at most once, only after an ack with its own id took it, and never if a clear or removal dropped it |
| `Acks.CalledAfterClearIff` | socketio/ack.go:25-58 | after a clear a callback is called in some run if and only if it was already taken, or its id was drawn and it was not yet registered |
| `Acks.CallAfterClear` | socketio/ack.go:33-58 | the first case: a callback taken before a clear is not dropped by it and its call comes after it |
| `Acks.BelatedCallReached` | socketio/socket.go:66-67 | the second, in a run from the start: a callback registered after the clear is called |
| `Acks.IdsAreDistinct` | socketio/ack.go:18-23 | the ids of the first n emits differ if and only if n is at most 2^64 |
| `Acks.AckFindsOwnCallback` | socketio/client.go:626-646 | as long as the counter has not come round, the ack of an emit finds that emit's callback or nothing, and nothing after a clear |
| `Acks.AckTable.constructor` | socketio/ack.go:13-15 | a table starts empty with its counter at zero |
| `Acks.AckTable.NextId` | socketio/ack.go:18-23 | the n-th id drawn is n, wrapped to 64 bits |
| `Acks.AckTable.RegisterCallback` | socketio/ack.go:25-29 | the callback is stored under its id, replacing any other |
| `Acks.AckTable.InvokeCallback` | socketio/ack.go:33-45 | the callback is taken out and called, or there is none |
| `Acks.AckTable.RemoveCallback` | socketio/ack.go:47-51 | a pending callback is dropped |
| `Acks.AckTable.ClearAll` | socketio/ack.go:54-58 | all callbacks are dropped and the counter is kept |
| `Acks.EmitWithAck` | socketio/socket.go:58-70 | an error when disconnected, id -1 without a callback, otherwise a fresh id with the callback under it; unless disconnected one event goes out, with that id |
| `Backoff.BackoffIsExponential` | socketio/client.go:698-702 | the capped delay is min(base * 2^k, max) for every k if and only if base and max are below 2^62 |
| `Backoff.LargeDelayWraps` | socketio/client.go:699 | a delay of 2^62 or more doubles to a negative one |
| `Backoff.WaitFor` | socketio/client.go:684-691 | the wait is the delay or its jittered form, capped |
| `Backoff.ReconnectLoop` | socketio/client.go:669-708 | no wait exceeds the cap for any jitter; giving up happens if and only if a positive limit of attempts all failed unstopped, after exactly that many dials; stops, successes and the waits themselves are as the turns dictate |

## Left out

- HTTP, websocket and context plumbing, CORS, URLs, request checks and logging: input and output with shallow rules.
- Handler dispatch by reflection and the internals of encoding/json: the library is a parameter, and a payload it refuses to print does not occur.
- Heartbeats: a ping is a packet like any other here and its timeout a call that ends the session; how timers overlap is not modelled.
- The client's polling loop and its requests (engineio/client_transport.go): that it is paused, resumed or stopped is a flag here.
- Strict order when flushes interleave with an upgrade: newer packets may overtake buffered ones there, so the interleaved session promises only the ledger.
- POSTs that arrive after the switch, which the server's request check turns away.
- Concurrent sends of multi-frame packets on one connection: a stream is taken to have no second binary header inside a packet.
- Repeated CONNECTs to one namespace on one connection, and the incoming packet queue, a plain first-in-first-out list.
- Websocket writes that fail of themselves: one to a websocket the program has closed drops its packets and raises an error, any other failure is an event of its transport and its packets count as delivered.
- The order of the calls one call makes: the interleaved session owes them all at once, so it has runs the program does not; creating a session, with its table entry, its transport and its open packet, is one step.
- Reassembly.ReceiverDispatchesWhatWasSent: takes packets of the five plain types, the binary ones being chosen by the sender, and with at most 2^63 - 1 attachments.
- SerialSession.StrictOrder: requires that Close does not interrupt an upgrade; InOrderIffNeverDrops has the exact condition.
- SessionTheorems.UpgradeLosesNothing: is about sessions begun on polling; NothingLostIffNothingSpilled covers the others, where replacing a websocket can also drop a flush in progress.
- SessionSocket.Socket.CloseTransport: takes the close event of a websocket in the same step, each call of the serial session running to its end; SessionSystem has it apart.
- EngineClient.SerialFlushesKeepOrder: requires, for the order, flushes that overlap neither each other nor the start of the upgrade, and takes one upgrade attempt per session, there being one open packet.
