# Verified model of the connectivity experiment

This project models the logic of the experiment that has to be right when its parts run
beside each other, and proves what its design promises. It is written in Dafny 4.11;
`dafny verify dfyconfig.toml` checks all of it.

| part | modules | what is modelled |
|---|---|---|
| shared | `Base`, `Bytes`, `Splitting`, `Utf8` | optional values, sums over sequences, big-endian integers, splitting at separators, UTF-8 text with lossy decoding and trimming |
| relay | `RelayMetrics`, `RelayProtocol`, `RelayModel`, `RelayInvariant`, `RelayMove`, `RelayTasks`, `RelaySteps`, `RelayHandlers`, `RelayAlarm`, `RelayEvolution`, `RelayTheorems`, `RelayLaws`, `RelayIdentity`, `RelayTimers`, `RelayProvenance`, `RelayObject` | the Durable Object relay: every interleaving of its handlers at their awaits, the invariant they keep, and the object whose methods are those steps |
| media | `MediaGate`, `MediaFraming`, `MediaSession`, `MediaLoops`, `MediaReceiver`, `MediaLaws` | the fail-closed gate, the framed stream, monitor and sender side by side, reader and receiver side by side |
| STUN | `StunXor`, `StunAttributes`, `Stun`, `StunLaws`, `StunProbe` | attribute walkers, codec round trips, the retry loop with its time bound |
| peers | `PublicAddress`, `PeerProof`, `PeerHandlers`, `PeerProtocol`, `PeerLaws`, `PeerObject`, `SignalRoom`, `SignalLaws` | the two-browser echo protocol over an ordered channel, as runs and as two objects, its evidence, and the single-use signaling room |
| tunnel | `Ipv6`, `Tunnel` | the gateway's service table and the scope of a connection |

## How the models are built

State machines are a datatype `State`, a function `Next` and a notion of run; every theorem
about them quantifies over all runs. One event is one synchronous segment between two places
where another task can run. Objects that the source updates in place are classes here too:
each method is proved to do to the fields what the corresponding function on values says, and
the invariants are proved about those functions. The modules whose names end in `Laws`, with
`RelayIdentity`, `RelayTimers` and `RelayProvenance`, say what each step does without naming these
functions: by what can be seen before and after it, with the source's limits as numbers.

Relay. A handler is a task whose program counter names the await it is suspended at. What the
platform decides is input to each event: the order of `getWebSockets()`, which sends succeed,
the random pings, whether a signature is valid. Storage transactions, `schedule`, and the checks
of `fetch` with admission and `acceptWebSocket` are single steps, because the input gate keeps
other events out. The clock never goes back. One `alarm()` is in flight at a time. A socket
leaves `getWebSockets()` only once it is archived. The expiry is a constant of the object, since
the object is named by the room token (infra/cloudflare/worker/src/index.js:28). Reconstruction
of the object changes nothing: besides tasks in flight it keeps no state in memory.
`ledger` in the state adds up every counter increment ever made; it exists to state conservation.

Media. The gate is locked for single steps only, so a step is a lock or an await. The monitor is
the only task that feeds the gate. `done_rx` is never true while the monitor's loop runs, so that
exit is not a step. Frame counters are unbounded integers; the sequence number is modulo 2^32.

STUN. Bytes are integers below 256 and exclusive or is bitwise on naturals. Narrowing to u8 and
u16 in the encoders is written out. A reason phrase is Unicode text; the parser decodes it lossily
and trims it, as the standard library calls it makes do, and both decide for which errors the
round trip holds.

Probe. The transport is a script: the delay and outcome of each send, and the arrivals with their
times. Only waits take time.

Peers. A peer's promise-based handlers are split at their awaits; a timeout and the rejection it
causes are one step, as no other callback runs between them. Closing, losing the link, timeouts
and user actions can happen at any step.

Tunnel. Texts are their UTF-8 bytes, because the source measures names in bytes. `Ipv6Addr` parsing
is the grammar that the standard library documents.

## Model

| member | source | states |
|---|---|---|
| RelayTheorems.OneRoutePerIdentity | infra/cloudflare/worker/src/iroh-relay.js:68-96 | in every interleaving, at every await, no two non-archived authenticated sockets hold the same identity |
| RelayTheorems.ArchivedForGood | infra/cloudflare/worker/src/iroh-relay.js:149-153 | archiving is permanent and freezes the counters; counters never fall and a claimed identity never changes, so no handler writes back a stale copy |
| RelayTheorems.LedgerBalances | infra/cloudflare/worker/src/iroh-relay.js:149-159 | for every counter, all increments ever made are in `closed`, in non-archived sockets or in retirements still to commit; `closed.connections` counts each retired socket once |
| RelayTheorems.SnapshotIsComplete | infra/cloudflare/worker/src/iroh-relay.js:170-184 | with no handler in flight and before deletion, a snapshot reports every increment once, and upgrades equal closed plus active connections |
| RelayTheorems.MessagesAccounted | infra/cloudflare/worker/src/iroh-relay.js:45-66 | for each live socket, messages split into authentication, ping, pong and datagram; datagrams into forwarded, dropped and drops still to be booked; the budgets hold; a deadline is set exactly while a ping is pending |
| RelayTheorems.AlarmCoversAtRest | infra/cloudflare/worker/src/iroh-relay.js:113-124 | with no handler in flight, the armed alarm is no later than every live socket's deadline and the expiry, or one ms past the scheduling instant |
| RelayTheorems.DeletionIsArmed | infra/cloudflare/worker/src/iroh-relay.js:113-130 | with no handler in flight, a room that was ever used has an alarm no later than the deletion of its storage |
| RelayTheorems.AlarmClears | infra/cloudflare/worker/src/iroh-relay.js:125-148 | after the loop of an alarm no live socket was at or past its deadline or expiry at the alarm's instant |
| RelayTheorems.DeliveriesAreStamped | infra/cloudflare/worker/src/iroh-relay.js:97-112 | every forwarded frame keeps its length and bytes from 33 on, has its tag raised by 2, carries the sender's identity, went to the socket that holds the destination identity, which was its one live route when it was sent, and never to its sender |
| RelayTheorems.RoomIsBounded | infra/cloudflare/worker/src/iroh-relay.js:32-44 | over the whole life of a room: at most 20 upgrades, 2 identities, 4 live open sockets and 20 * 10,001 counted messages |
| RelayProvenance.IdentitiesAreProven | infra/cloudflare/worker/src/iroh-relay.js:45-84 | in every run, the identity of every socket spells the key in bytes 1 to 32 of the first message of that socket's own session, a frame of 98 bytes whose signature was found valid before |
| RelayLaws.DatagramsAreRouted | infra/cloudflare/worker/src/iroh-relay.js:97-112 | in every run, a datagram in budget goes, stamped with the sender's key, to the one other listed live authenticated socket that holds its destination, with `forwarded` raised by one and the receiver's bytes by its length; it is dropped if there is no such socket; a holder that does not take it is archived |
| RelayLaws.DatagramIsRouted | infra/cloudflare/worker/src/iroh-relay.js:97-112 | the same of one step from any state that keeps the invariant |
| RelayLaws.MessageIsHandled | infra/cloudflare/worker/src/iroh-relay.js:45-67 | exactly which messages end their session, with what still counted; otherwise the first one begins the authentication, a ping is answered with its own bytes, and the awaited pong clears the deadline; archived sockets are not heard |
| RelayIdentity.VerificationResumes | infra/cloudflare/worker/src/relay-protocol.js:20-27 | with a valid signature the handler goes on with the key in bytes 1 to 32 of a frame of 98 bytes; otherwise the session ends |
| RelayIdentity.TransactionAdmits | infra/cloudflare/worker/src/iroh-relay.js:73-80 | an identity is allowed exactly if it is known or fewer than two are, and recorded exactly if it is new and allowed |
| RelayIdentity.ClaimIsDecided | infra/cloudflare/worker/src/iroh-relay.js:81-92 | a claim is granted exactly if allowed, not archived, before deadline and expiry; the session is then authenticated and a listed rival archived in the same step, or it is greeted; any other claim ends its session |
| RelayIdentity.ClaimGoesOn | infra/cloudflare/worker/src/iroh-relay.js:87-92 | after a retirement the loop ends the next rival, or greets the session if it is still live |
| RelayIdentity.FirstPingIsSet | infra/cloudflare/worker/src/iroh-relay.js:93-95 | the first ping is set to the interval from now unless the copy read before has one |
| RelayIdentity.LateDropIsBooked | infra/cloudflare/worker/src/iroh-relay.js:109-110 | only `dropped` is raised, and only for a sender that is not archived |
| RelayTimers.UpgradeIsDecided | infra/cloudflare/worker/src/iroh-relay.js:13-44 | an upgrade becomes a session with a ten-second challenge exactly within the room's half hour, with its ping interval, below 20 upgrades and 4 open sockets; otherwise nothing changes |
| RelayTimers.ClosureEnds | infra/cloudflare/worker/src/iroh-relay.js:168-169 | a transport that closes or fails ends exactly its own session |
| RelayTimers.ClosingIsBooked | infra/cloudflare/worker/src/iroh-relay.js:154-159 | the closing transaction adds one connection and exactly the retired counters |
| RelayTimers.EndIsTold | infra/cloudflare/worker/src/iroh-relay.js:160-165 | exactly the other live sockets authenticated as somebody else that are reachable are told, with 33 bytes each |
| RelayTimers.AlarmIsSet | infra/cloudflare/worker/src/iroh-relay.js:113-124 | the alarm is the first of expiry, next ping and live deadlines, or an hour past the expiry without live sockets, and at least one ms ahead |
| RelayTimers.AlarmIsRun | infra/cloudflare/worker/src/iroh-relay.js:125-148 | from an hour past the expiry on the storage is deleted; before, the sockets are visited in order: exactly the due ones are archived, and if a ping is due exactly the authenticated ones without a pending ping get one with five seconds to answer, or are archived if it cannot be sent |
| RelayTimers.AlarmGoesOn | infra/cloudflare/worker/src/iroh-relay.js:132-148 | after each retirement the visits go on where they were, and the end writes the record back with the next ping |
| RelayTheorems.RunKeepsAll | infra/cloudflare/worker/src/iroh-relay.js:5-185 | every state of every run satisfies the invariant |
| RelayTheorems.RunEvolves | infra/cloudflare/worker/src/iroh-relay.js:5-185 | between any two states of a run sockets only age: archived stays, counters grow, identities stay |
| RelayTheorems.NextKeeps | infra/cloudflare/worker/src/iroh-relay.js:13-167 | each event keeps the invariant, whatever handlers are in flight |
| RelayTheorems.NextEvolves | infra/cloudflare/worker/src/iroh-relay.js:13-167 | each event only ages the sockets it touches |
| RelayHandlers.OnMessageKeeps | infra/cloudflare/worker/src/iroh-relay.js:45-67 | a message of any kind, in budget or not, keeps the invariant up to its first await |
| RelayHandlers.RouteKeeps | infra/cloudflare/worker/src/iroh-relay.js:97-112 | routing a datagram keeps the invariant when it forwards, drops, or retires a failed target |
| RelayHandlers.IdentifiedKeeps | infra/cloudflare/worker/src/iroh-relay.js:73-80 | the identity transaction keeps the invariant and admits at most two identities |
| RelayHandlers.SupersedeKeeps | infra/cloudflare/worker/src/iroh-relay.js:81-90 | claiming an identity and archiving its previous holder in one segment keeps routes unique |
| RelayHandlers.ClaimRouteKeeps | infra/cloudflare/worker/src/iroh-relay.js:81-93 | the claim after the identity transaction keeps the invariant on every branch |
| RelayHandlers.ClaimOnKeeps | infra/cloudflare/worker/src/iroh-relay.js:87-93 | a resumed claim loop that may also archive a newer claimant keeps the invariant |
| RelayAlarm.SweepKeeps | infra/cloudflare/worker/src/iroh-relay.js:132-147 | the alarm's loop keeps the invariant across the retirements it waits for |
| RelayAlarm.AlarmBegunKeeps | infra/cloudflare/worker/src/iroh-relay.js:125-132 | the start of an alarm keeps the invariant, the final deletion included |
| RelayAlarm.CommitKeeps | infra/cloudflare/worker/src/iroh-relay.js:154-159 | the closing transaction moves a retirement's counters into `closed` without loss |
| RelayAlarm.ArmedCovers | infra/cloudflare/worker/src/iroh-relay.js:113-124 | scheduling covers every live socket's deadline and the expiry |
| RelayAlarm.EarliestBound | infra/cloudflare/worker/src/iroh-relay.js:116-122 | the scheduled time is no later than the limit and every live deadline |
| RelayAlarm.FetchKeeps | infra/cloudflare/worker/src/iroh-relay.js:13-44 | admitting a socket, or refusing one, keeps the invariant |
| RelaySteps.RetiredKeeps | infra/cloudflare/worker/src/iroh-relay.js:149-153 | archiving a socket keeps the invariant and puts its counters in hand for the closing transaction |
| RelaySteps.FinishKeeps | infra/cloudflare/worker/src/iroh-relay.js:149-159 | `finish` keeps the invariant however often it is called for a socket |
| RelayMove.MoveKeeps | infra/cloudflare/worker/src/iroh-relay.js:45-167 | any write of one attachment with its counter gains and one task step keeps the invariant under local conditions |
| RelayObject.IrohRelay.constructor | infra/cloudflare/worker/src/iroh-relay.js:6-12 | a new object is the initial state and valid |
| RelayObject.IrohRelay.Deliver | infra/cloudflare/worker/src/iroh-relay.js:5-185 | the object runs every event as the state machine does and is valid again afterwards |
| RelayObject.IrohRelay.Handle | infra/cloudflare/worker/src/iroh-relay.js:5-185 | one event of the platform changes the fields as `Next` says |
| RelayObject.IrohRelay.Send | infra/cloudflare/worker/src/relay-metrics.js:10-16 | a send that succeeds books its bytes and category in the attachment; one that fails changes nothing |
| RelayObject.IrohRelay.Finish | infra/cloudflare/worker/src/iroh-relay.js:149-153 | the segment of `finish` before its transaction |
| RelayObject.IrohRelay.CommitClosed | infra/cloudflare/worker/src/iroh-relay.js:154-159 | the closing transaction |
| RelayObject.IrohRelay.AnnounceGone | infra/cloudflare/worker/src/iroh-relay.js:160-166 | the loop tells every other authenticated peer that an endpoint is gone |
| RelayObject.IrohRelay.Schedule | infra/cloudflare/worker/src/iroh-relay.js:113-124 | the loop arms the alarm at the least of expiry, next ping and live deadlines |
| RelayObject.IrohRelay.CountLive | infra/cloudflare/worker/src/iroh-relay.js:38 | the live sockets are the listed ones that are neither archived nor closing |
| RelayObject.IrohRelay.Admit | infra/cloudflare/worker/src/iroh-relay.js:32-44 | the admission transaction |
| RelayObject.IrohRelay.Fetch | infra/cloudflare/worker/src/iroh-relay.js:13-31 | an upgrade request is refused or becomes a challenged socket |
| RelayObject.IrohRelay.WebSocketMessage | infra/cloudflare/worker/src/iroh-relay.js:45-67 | a message up to its first await |
| RelayObject.IrohRelay.Route | infra/cloudflare/worker/src/iroh-relay.js:97-108 | a datagram is forwarded, dropped, or its failed target retired |
| RelayObject.IrohRelay.Forward | infra/cloudflare/worker/src/iroh-relay.js:104-106 | the stamped frame is sent to its target and booked there |
| RelayObject.IrohRelay.DropAfterFinish | infra/cloudflare/worker/src/iroh-relay.js:109-110 | a drop is booked after the target's retirement unless the sender was archived meanwhile |
| RelayObject.IrohRelay.Find | infra/cloudflare/worker/src/iroh-relay.js:99-102 | the loop finds the first other live socket that holds an identity |
| RelayObject.IrohRelay.AdmitIdentity | infra/cloudflare/worker/src/iroh-relay.js:73-80 | the identity transaction |
| RelayObject.IrohRelay.ClaimIdentity | infra/cloudflare/worker/src/iroh-relay.js:81-91 | the claim writes the attachment first and then archives a rival, with the effect of one atomic segment |
| RelayObject.IrohRelay.ClaimFurther | infra/cloudflare/worker/src/iroh-relay.js:87-93 | the claim loop goes on after a retirement |
| RelayObject.IrohRelay.StoreNextPing | infra/cloudflare/worker/src/iroh-relay.js:93-95 | the first ping time is stored from the copy read before the await |
| RelayObject.IrohRelay.Alarm | infra/cloudflare/worker/src/iroh-relay.js:125-131 | the start of an alarm |
| RelayObject.IrohRelay.AlarmLoop | infra/cloudflare/worker/src/iroh-relay.js:132-148 | the alarm's loop up to the next retirement it waits for, or its end |
| RelayObject.IrohRelay.Resume | infra/cloudflare/worker/src/iroh-relay.js:13-167 | a suspended handler runs to its next await |
| RelayObject.IrohRelay.Report | infra/cloudflare/worker/src/iroh-relay.js:170-184 | the loop gathers the counters of `closed` and of every active socket |
| RelayProtocol.UnhexHex | infra/cloudflare/worker/src/relay-protocol.js:14-15 | decoding undoes hex encoding on all bytes but the empty string, on which it throws |
| RelayProtocol.HexUnhex | infra/cloudflare/worker/src/relay-protocol.js:14-15 | encoding undoes decoding on all lower-case hex text; decoding throws exactly on the empty text |
| RelayProtocol.HexDigits | infra/cloudflare/worker/src/relay-protocol.js:14 | each byte is written as its two hexadecimal digits, the high one first |
| RelayProtocol.DatagramsParse | infra/cloudflare/worker/src/relay-protocol.js:28-38 | a message parses as a datagram exactly when its tag, length and version byte allow it, with the destination in bytes 1 to 32 |
| RelayProtocol.BuildForwarded | infra/cloudflare/worker/src/relay-protocol.js:39-41 | overwriting a copy of the frame in place builds the forwarded frame |
| RelayMetrics.AddCounters | infra/cloudflare/worker/src/relay-metrics.js:5-8 | the loop adds every counter of the values, absent ones as zero |
| MediaGate.FoldIsReading | crates/media-separation/src/lib.rs:442-491 | for every trace, feeding the gate one signal at a time gives the reading of the whole trace: stopped with the reason of the first fatal signal, else ready exactly when some snapshot selected a direct path |
| MediaGate.NeverReopens | crates/media-separation/src/lib.rs:399-407 | however a trace goes on, the gate never goes back to awaiting, a stop is final, the ready time stays, and receivers are woken by exactly the changes of state |
| MediaGate.ReadyTimeIsFirst | crates/media-separation/src/lib.rs:466-469 | the ready time is the clock at the first selected direct path before anything fatal |
| MediaGate.NeverReady | crates/media-separation/src/lib.rs:466-469 | no ready time is recorded without such a snapshot |
| MediaGate.FirstFatal | crates/media-separation/src/lib.rs:447-485 | the position found is fatal and no earlier one is |
| MediaGate.MediaGate.Feed | crates/media-separation/src/lib.rs:442-486 | the object's new decision is the reading of all signals fed so far |
| MediaGate.MediaGate.Halt | crates/media-separation/src/lib.rs:488-491 | stopping latches the reason and wakes the receivers once |
| MediaGate.MediaGate.constructor | crates/media-separation/src/lib.rs:418-425 | a new gate awaits a direct path and has read nothing |
| MediaSession.WritesFailClosed | crates/media-separation/src/lib.rs:957-1023 | in every interleaving of monitor and sender, each frame write has a locked check of its own that saw the gate ready, and at most one write begins after the gate latches |
| MediaSession.LeavesWithReason | crates/media-separation/src/lib.rs:986-997 | a sender that leaves at either gate check reports the latched reason |
| MediaSession.WireMatchesTotals | crates/media-separation/src/lib.rs:999-1035 | the wire holds the completed frames in order and a prefix of the one in progress; at the deadline the totals count exactly what is on the wire |
| MediaSession.RelayCounterIsProof | crates/media-separation/src/lib.rs:565-632 | once the monitor has ended, an unstopped gate means no relay path was ever counted, and the connection is closed exactly if the gate latched |
| MediaSession.LateWriteHappens | crates/media-separation/src/lib.rs:994-1006 | the bound of one write after the latch is tight: an interleaving with one is given |
| MediaLaws.AnyTimesAreSent | crates/media-separation/src/lib.rs:957-1036 | any sequence of sending times can be sent: some run puts exactly those frames on the wire and ends at the deadline with their totals |
| MediaLaws.StoppedSenderLeaves | crates/media-separation/src/lib.rs:986-997 | with the gate stopped each look at it leads out, and the way out carries its reason |
| MediaSession.NextKeeps | crates/media-separation/src/lib.rs:565-1036 | every step of either task keeps the session's invariant |
| MediaLoops.Scan | crates/media-separation/src/lib.rs:599-612 | the loop over the paths counts direct and relayed ones; a selected direct path is an open one |
| MediaLoops.RelaysAreCounted | crates/media-separation/src/lib.rs:599-612 | relayed and direct paths are counted exactly |
| MediaLoops.Reconcile | crates/media-separation/src/lib.rs:598-617 | the gate is fed the snapshot of the open paths |
| MediaLoops.TakeTurn | crates/media-separation/src/lib.rs:574-617 | one turn of the monitor feeds exactly its signals; a counted relay path stops the gate |
| MediaLoops.MonitorLoop | crates/media-separation/src/lib.rs:565-632 | the monitor's loop ends at the first turn that latches the gate, with the reading of everything it fed, the connection closed exactly then, and its relay count exact |
| MediaLoops.StreamingTask | crates/media-separation/src/lib.rs:957-1036 | the sender's loop puts one frame on the wire per ready turn, counts the whole ones, and leaves with the right exit and reason |
| MediaFraming.CutDecodes | crates/media-separation/src/lib.rs:756-779 | any cut of the sender's frames at byte k decodes to exactly the whole frames, consecutively numbered modulo 2^32, and ends cleanly exactly when the stream was finished and the rest is shorter than a header |
| MediaFraming.ReadsOwnFrame | crates/media-separation/src/lib.rs:757-779 | the reader undoes the frame encoding, whatever follows |
| MediaFraming.ReadsCutFrame | crates/media-separation/src/lib.rs:757-779 | a strict prefix of a frame is a clean end in the header and an error in the payload |
| MediaFraming.WireGrows | crates/media-separation/src/lib.rs:999-1031 | each frame sent appends its encoding with the next number |
| MediaFraming.FrameOctets | crates/media-separation/src/lib.rs:1000-1006 | fourteen octets of header, in which number, time and length can be read, and the payload |
| MediaFraming.FirstFrame | crates/media-separation/src/lib.rs:757-779 | what the reader makes of any stream, octet by octet |
| MediaFraming.ReadAll | crates/media-separation/src/lib.rs:798-816 | the reader task's loop produces exactly the messages of the stream |
| MediaReceiver.ReceiverIsHonest | crates/media-separation/src/lib.rs:788-899 | in every interleaving no message is lost or reordered in the channel of eight, a result without a stop reason accounts for every frame of a cleanly ended stream, and a stop reason is the latched one |
| MediaReceiver.CutStreamReceived | crates/media-separation/src/lib.rs:818-899 | of any cut of a sender's frames the receiver counts at most the whole frames, and all of them if it reports no stop reason; it never sees a discontinuity |
| MediaReceiver.TotalsAgree | crates/media-separation/src/lib.rs:788-1036 | a sender that runs to its deadline and a receiver without a gate stop report the same frames, wire bytes and payload bytes |
| MediaLaws.StreamsAreReceived | crates/media-separation/src/lib.rs:818-899 | a cleanly ended stream can be received to its end with every frame, wire byte and payload byte counted |
| MediaReceiver.NextKeeps | crates/media-separation/src/lib.rs:788-899 | every step of reader, receiver or gate keeps the pipeline |
| MediaReceiver.ReceiveSynthetic | crates/media-separation/src/lib.rs:818-899 | the receiving loop's result is honest about the whole stream and the last gate state it saw |
| StunAttributes.LayoutIsRead | crates/cloudflare-stun/src/lib.rs:175-196 | every list of attributes laid out with any padding bytes is read back as that list |
| StunAttributes.EveryStringIsLaid | crates/cloudflare-stun/src/lib.rs:175-196 | every byte string is such a list and a leftover in which no attribute fits |
| StunAttributes.MappedAddressIsFirst | crates/cloudflare-stun/src/lib.rs:187-189 | the address is the decoding of the first XOR-MAPPED-ADDRESS, and none without one |
| StunAttributes.ErrorCodeIsFirst | crates/cloudflare-stun/src/lib.rs:241-249 | the error is the first ERROR-CODE with at least four bytes, its reason decoded lossily and trimmed, and none exactly without one |
| StunLaws.SampleV4 | crates/cloudflare-stun/src/lib.rs:198-226 | the value a server sends for 192.0.2.1 port 32853 is decoded to that address |
| StunLaws.AddressIsDecided | crates/cloudflare-stun/src/lib.rs:198-226 | a value is an address exactly with a known family and its octets, and every bit of port and host is the transmitted bit, turned over where the cookie (and transaction) has a bit |
| StunLaws.ErrorIsDecoded | crates/cloudflare-stun/src/lib.rs:228-253 | the class is the low three bits of the third octet, the number the fourth, the reason the decoded rest without outer white space |
| StunAttributes.ParseXorMappedAddress | crates/cloudflare-stun/src/lib.rs:175-196 | the walker terminates on every byte string with the address of its attribute list |
| StunAttributes.ParseErrorCode | crates/cloudflare-stun/src/lib.rs:228-253 | the walker terminates on every byte string with the error of its attribute list, its reason decoded and trimmed |
| StunAttributes.DecodeValue | crates/cloudflare-stun/src/lib.rs:198-226 | an address value is decoded in both families, or refused |
| StunAttributes.XorInPlace | crates/cloudflare-stun/src/lib.rs:214-221 | masking the octets in place is masking them byte by byte |
| StunXor.XorTwice | crates/cloudflare-stun/src/lib.rs:203-221 | masking twice gives the value back |
| StunXor.XorBits | crates/cloudflare-stun/src/lib.rs:198-226 | a bit of the result is set exactly when the arguments differ in it |
| StunXor.BitsDecide | crates/cloudflare-stun/src/lib.rs:198-226 | the bits determine the number, so nothing else is exclusive or |
| StunXor.XorBytesTwice | crates/cloudflare-stun/src/lib.rs:214-221 | the same for byte strings no longer than the mask |
| StunXor.XorFits | crates/cloudflare-stun/src/lib.rs:203-209 | masking stays within the width of its arguments |
| Utf8.LossyEncode | crates/cloudflare-stun/src/lib.rs:244 | lossy decoding gives every encoded text back |
| Utf8.ReplacesMaximalSubparts | crates/cloudflare-stun/src/lib.rs:244 | a character is read where there is one; otherwise the longest beginning of a character, or one byte, is replaced |
| Utf8.CutTextIsShorter | crates/cloudflare-stun/src/lib.rs:244 | encoded text cut by four bytes or more decodes to fewer characters |
| Utf8.TrimSplits | crates/cloudflare-stun/src/lib.rs:244 | trimming takes off the white space at both ends and nothing else, and leaves a text alone exactly when there is none |
| Stun.SuccessRoundTrip | crates/cloudflare-stun/src/lib.rs:275-310 | parsing an encoded success gives back every address, port and transaction; any other transaction is rejected; the length is a multiple of four |
| Stun.ErrorRoundTrip | crates/cloudflare-stun/src/lib.rs:261-335 | the error parser undoes the encoder if and only if the code is below 800, the message fits its 16-bit length and the reason has no white space at its ends; the length is always a multiple of four |
| Stun.UntrimmedReasonIsLost | crates/cloudflare-stun/src/lib.rs:244 | an input that does not come back: 420 with " x" is read as 420 with "x" |
| Stun.ErrorValueIsDecoded | crates/cloudflare-stun/src/lib.rs:241-249 | the value of an encoded error is read as its code modulo the class's three bits and its trimmed reason |
| Stun.ErrorIsAuthenticated | crates/cloudflare-stun/src/lib.rs:148-157 | an encoded error reaches its own transaction as the server's rejection with the trimmed reason, and no other transaction |
| Stun.WrappedLengthLoses | crates/cloudflare-stun/src/lib.rs:322-334 | when the length wraps, whatever is parsed, decoded lossily and trimmed, has fewer characters than the reason |
| Stun.RejectionIsOneThing | crates/cloudflare-stun/src/lib.rs:261-271 | a datagram is an authenticated error exactly when the response parser reports that error |
| Stun.RequestRoundTrip | crates/cloudflare-stun/src/lib.rs:70-125 | parsing an encoded request gives its transaction back |
| StunLaws.RequestOctets | crates/cloudflare-stun/src/lib.rs:70-83 | the twenty octets of a request |
| StunLaws.SuccessOctets | crates/cloudflare-stun/src/lib.rs:275-311 | the octets of a success response, port and host masked bit by bit |
| StunLaws.ErrorOctets | crates/cloudflare-stun/src/lib.rs:313-335 | the octets of an error response that fits its length field, padding included |
| StunLaws.RequestsTaken | crates/cloudflare-stun/src/lib.rs:109-127 | a request is taken exactly by its first two octets and its cookie |
| StunLaws.ResponsesJudged | crates/cloudflare-stun/src/lib.rs:129-173 | for which octets a response is refused, and why |
| StunLaws.ResponsesTaken | crates/cloudflare-stun/src/lib.rs:129-173 | what comes of a response of the own transaction |
| Stun.ParseBindingResponse | crates/cloudflare-stun/src/lib.rs:129-173 | the parser's checks in order, and what each refusal is |
| Stun.ParseAuthenticatedError | crates/cloudflare-stun/src/lib.rs:261-271 | the error parser's checks in order |
| Stun.AppendMasked | crates/cloudflare-stun/src/lib.rs:289-294 | the loop appends the masked octets |
| Stun.BuildBindingSuccess | crates/cloudflare-stun/src/lib.rs:275-310 | appending the pieces one by one builds the encoded success |
| StunProbe.RunProbe | crates/cloudflare-stun/src/probe.rs:202-321 | at most n sends and 2nT + 100n(n-1) ms; a success is the first datagram of the own transaction from the server, with a usable address, at the instant it came in; a send that fails, an arrival that decides and a window that closes each end the probe exactly when they do; giving up has waited out every window and left nothing unread that came in before |
| StunProbe.Attempts | crates/cloudflare-stun/src/probe.rs:228-317 | the retry loop |
| StunProbe.Attempt | crates/cloudflare-stun/src/probe.rs:228-317 | one attempt: back-off, send, and its window |
| StunProbe.UsableV4 | crates/cloudflare-stun/src/probe.rs:271-278 | in octets: not 0.0.0.0, not 224 to 239, a port, and a socket of the family |
| StunProbe.UsableV6 | crates/cloudflare-stun/src/probe.rs:271-278 | in octets: not all zero, not beginning with 255, a port, and a socket of the family |
| StunProbe.CanonicalOctets | crates/cloudflare-stun/src/probe.rs:214 | exactly the mapped version 6 addresses become version 4 ones |
| StunProbe.Await | crates/cloudflare-stun/src/probe.rs:242-312 | the receive loop skips what is foreign and stops at the first arrival that decides, or when the window closes with everything due read |
| StunProbe.BoundIs | crates/cloudflare-stun/src/probe.rs:229-242 | the back-offs and windows add up to 2nT + 100n(n-1) |
| PeerProtocol.OffererDoneMeansBothDone | infra/cloudflare/worker/public/peer.js:150-223 | if the offerer is done, the answerer accepted all eight blocks in order and is done, and each holds the other's evidence |
| PeerProtocol.VerdictsAgree | infra/cloudflare/worker/public/peer.js:206-212 | once the offerer is done the verdicts agree if and only if the diagnostic flags are equal or one side's evidence does not qualify |
| PeerProtocol.OutcomesAreFinal | infra/cloudflare/worker/public/peer.js:206-241 | success and failure exclude each other and are final on each side, and two such peers never refuse each other's messages |
| PeerLaws.FailsExactly | infra/cloudflare/worker/public/peer.js:117-241 | exactly which steps make a running peer fail |
| PeerLaws.SucceedsExactly | infra/cloudflare/worker/public/peer.js:198-223 | exactly which steps make a run succeed, and the verdict they set |
| PeerLaws.SendsExactly | infra/cloudflare/worker/public/peer.js:128-205 | exactly which message a step sends |
| PeerLaws.KeepsExactly | infra/cloudflare/worker/public/peer.js:61-116 | blocks are kept in order one at a time, and candidates learnt only while the run goes on |
| PeerLaws.EndsExactly | infra/cloudflare/worker/public/peer.js:133-240 | when a run ends, and when blocks count as being on their way |
| PeerLaws.ChannelsAreOrdered | infra/cloudflare/worker/public/peer.js:117-127 | the queues are taken from the front and added to at the back, and losing the link empties them for good |
| PeerProtocol.SuccessIsReachable | infra/cloudflare/worker/public/peer.js:142-223 | some run makes both peers done |
| PeerProtocol.NextKeeps | infra/cloudflare/worker/public/peer.js:117-241 | every step of either peer keeps the protocol's invariant |
| PeerProtocol.OffererReceives | infra/cloudflare/worker/public/peer.js:169-188 | the offerer accepts whatever is on its way to it |
| PeerProtocol.AnswererReceives | infra/cloudflare/worker/public/peer.js:189-205 | the answerer accepts whatever is on its way to it |
| PeerObject.Experiment.constructor | infra/cloudflare/worker/public/peer.js:22-34 | a new experiment has received nothing and reports nothing |
| PeerObject.Experiment.Handle | infra/cloudflare/worker/public/peer.js:117-241 | each of the object's handlers does what the protocol's step says, with the same message sent |
| PeerObject.Session.constructor | infra/cloudflare/worker/public/peer.js:22-34 | two new experiments and two empty channels are the start of the protocol |
| PeerObject.Session.Deliver | infra/cloudflare/worker/public/peer.js:117-241 | the two objects take every event as the protocol does, keep its invariant, and take back nothing that is settled |
| PeerObject.Session.Outcome | infra/cloudflare/worker/public/peer.js:206-241 | read off the two objects: a finished offerer has a finished answerer with all blocks and each other's evidence, and their verdicts agree when their diagnostic flags do |
| PeerProof.DifferentIsMutual | infra/cloudflare/worker/public/peer-proof.js:55-61 | two peers that hold each other's candidates judge alike whether their networks differ: it is whether both have candidates, all public, and no address in common |
| PeerProof.QualifyingMeansCrossNetwork | infra/cloudflare/worker/public/peer-proof.js:62-75 | qualifying evidence names, on one pair that stayed selected, an address of the peer that is outside every excluded range and none of this side's own |
| PeerProof.EvidenceMeans | infra/cloudflare/worker/public/peer-proof.js:55-75 | evidence qualifies exactly if both paths are there with the same nonempty pair, no end relayed or unknown, both remote ends over UDP at a public address of the peer, and the networks are apart |
| PublicAddress.PublicMeansOutside | infra/cloudflare/worker/public/peer-proof.js:17-23 | a text is a public IPv4 address exactly when it is four octets between dots outside the excluded ranges |
| PublicAddress.ExcludedInOctets | infra/cloudflare/worker/public/peer-proof.js:2-16 | the thirteen prefixes, written in octets |
| PublicAddress.NumberOfDigits | infra/cloudflare/worker/public/peer-proof.js:19 | one to three digits are read in decimal |
| SignalRoom.RoomIsSingleUse | infra/cloudflare/worker/src/signal-room.js:23-44 | over the whole life, storage wipe included, at most two sockets are admitted, offerer then answerer, and the pair is announced at most once |
| SignalRoom.OneOfferOneAnswer | infra/cloudflare/worker/src/signal-room.js:9-18 | at most one offer and one answer are ever forwarded, each from its own role, and no other description |
| SignalRoom.ForwardingIsBounded | infra/cloudflare/worker/src/signal-room.js:46-61 | each socket has at most 32 messages and 65,536 bytes forwarded, ever |
| SignalRoom.WipedRoomStaysEmpty | infra/cloudflare/worker/src/signal-room.js:74-77 | after the wipe nobody is admitted and nothing is forwarded |
| SignalLaws.ForwardedExactly | infra/cloudflare/worker/src/signal-room.js:9-61 | in every state, a message of an accepted socket is forwarded exactly if it is in time, text of at most 24,576 units, within 32 messages and 65,536 bytes, and a candidate of at most 2048 characters or the first description of its role; otherwise nothing is recorded |
| SignalLaws.AdmittedExactly | infra/cloudflare/worker/src/signal-room.js:23-37 | in every state, which upgrades are admitted and how the others are refused |
| SignalLaws.AcceptedExactly | infra/cloudflare/worker/src/signal-room.js:38-44 | a new socket has sent nothing, and the second open one announces the pair |
| SignalLaws.RoomEnds | infra/cloudflare/worker/src/signal-room.js:72-77 | the due alarm deletes everything, and a leaving socket is announced |
| SignalRoom.NextKeeps | infra/cloudflare/worker/src/signal-room.js:20-78 | every event keeps each attachment an exact record of what its socket had forwarded |
| SignalRoom.SignalingRoom.Fetch | infra/cloudflare/worker/src/signal-room.js:23-37 | the checks and the admission transaction |
| SignalRoom.SignalingRoom.AcceptWebSocket | infra/cloudflare/worker/src/signal-room.js:38-44 | an admitted socket is accepted, and the pair announced when it is the second open one |
| SignalRoom.SignalingRoom.WebSocketMessage | infra/cloudflare/worker/src/signal-room.js:46-61 | a signal is forwarded to the other sockets, or its socket closed with nothing recorded |
| SignalRoom.SignalingRoom.Others | infra/cloudflare/worker/src/signal-room.js:63-70 | the loop reaches every other open socket and no other |
| SignalRoom.SignalingRoom.WebSocketClose | infra/cloudflare/worker/src/signal-room.js:72 | the other sockets are told that the peer left |
| SignalRoom.SignalingRoom.OnAlarm | infra/cloudflare/worker/src/signal-room.js:74-77 | the alarm closes every socket and deletes the storage |
| Tunnel.ConnectionScope | crates/tcp-tunnel/src/bin/gateway.rs:247-278 | the loop gives exactly what the rules grant, with identical targets: none if rules exist and none match, the whole table without rules or by an unscoped rule; re-inserting a validated entry never fails |
| Tunnel.ScopeMeans | crates/tcp-tunnel/src/bin/gateway.rs:247-278 | rejected exactly if rules exist and none is for the endpoint; otherwise exactly the services some rule for it grants, at their addresses |
| Tunnel.ScopeIgnoresOrder | crates/tcp-tunnel/src/bin/gateway.rs:247-278 | order and repetition of the rules do not matter |
| Tunnel.RulesOnlyWiden | crates/tcp-tunnel/src/bin/gateway.rs:247-278 | a rule for another endpoint changes nothing, and a further rule takes nothing away |
| Tunnel.SpecRoundTrip | crates/tcp-tunnel/src/lib.rs:156-169 | a spec is accepted exactly when it is a good name, an equals sign and a good upstream, and stands for that entry |
| Tunnel.UpstreamIsGood | crates/tcp-tunnel/src/lib.rs:174-210 | an upstream is accepted exactly when it is a good host, a colon and a port from 1 to 65535 |
| Tunnel.UpstreamIsRefused | crates/tcp-tunnel/src/lib.rs:174-210 | which fault of a host and a port is reported |
| Tunnel.PortsAreRead | crates/tcp-tunnel/src/lib.rs:200-208 | the decimal text of every number up to 65535 is read as that number, with or without a plus sign |
| Tunnel.SpecIsRefused | crates/tcp-tunnel/src/lib.rs:156-169 | which fault of a spec is reported |
| Tunnel.HostIsGood | crates/tcp-tunnel/src/lib.rs:176-199 | a host is a bracketed IPv6 literal or a nonempty name without colons |
| Ipv6.LiteralIsPlain | crates/tcp-tunnel/src/lib.rs:187-192 | an IPv6 literal has a colon and consists of hexadecimal digits, colons and dots, so no host name in brackets is accepted |
| Ipv6.LiteralsAreAccepted | crates/tcp-tunnel/src/lib.rs:187-192 | a literal is accepted exactly if it is eight groups, or at most seven around one double colon, the last two perhaps as dotted octets |
| Tunnel.LastSpecWins | crates/tcp-tunnel/src/lib.rs:143-153 | the table holds exactly the names of the specs, each with the address of its last one |
| Tunnel.FromSpecs | crates/tcp-tunnel/src/lib.rs:143-153 | building fails at the first malformed spec and otherwise inserts them in order |
| Tunnel.ServiceMap.InsertSpec | crates/tcp-tunnel/src/lib.rs:156-169 | a spec adds its entry or changes nothing, and the table stays valid |
| Tunnel.ServiceMap.ValidateUpstream | crates/tcp-tunnel/src/lib.rs:174-210 | the checks of an upstream in order, and what each refusal is |
| Tunnel.ServiceMap.Clone | crates/tcp-tunnel/src/bin/gateway.rs:253-267 | a scope of the whole table is a copy of its own |
| Tunnel.SplitOnce | crates/tcp-tunnel/src/lib.rs:157 | the split is around the first occurrence, and missing exactly when there is none |
| Tunnel.RSplitOnce | crates/tcp-tunnel/src/lib.rs:175-181 | the split is around the last occurrence, and missing exactly when there is none |

## Left out

- RelayTheorems.OneRoutePerIdentity: states at most one live route, not exactly one; a superseded `authorize` that resumes its loop may also archive the newer claimant.
- RelayTheorems.SnapshotIsComplete: only with no handler in flight, because `snapshot()` is not atomic with a `finish` that is committing.
- RelayTheorems.AlarmCoversAtRest: says nothing while a handler that will call `schedule` is in flight, and nothing about `meta.next_ping`, which `alarm` writes back after awaits.
- MediaReceiver.TotalsAgree: compares counts; first and last frame times are clock readings and are not modelled.
- Stun.ParseBindingResponse: requires that a response of the own transaction contains the length it states, since the source slices that far.
- StunProbe.RunProbe: takes the arrivals as one queue in the order of their times; sockets, the system clock and the transaction's randomness are inputs.
- SignalRoom.SignalingRoom.Fetch: the expiry check and the admission transaction are one step.
- Relay: Ed25519, BLAKE3 and the challenge bytes (validity of a signature is an input), the `closed.recent` list, `boots` and `created_at`, close codes and reasons, failing storage, and a send that fails on a socket just accepted.
- Relay: that exactly one route survives simultaneous reconnects.
- Media: pacing and throughput, which are floating point; the control handshake and candidate validation; QUIC itself.
- Peers: candidate gathering, SDP exchange, `getStats` parsing beyond the fields the evidence reads, and the page.
- Signaling room: JSON text; a message is its sizes and its parsed content.
- Tunnel: the wire handshake, byte copying, key files and rule parsing.
- Request routing, result records, baseline binaries and deployment scripts: input and output with single branches.
