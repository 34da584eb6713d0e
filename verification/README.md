# Verification of the Tere server's IPC and session protocols

Tere is a set of mutually distrusting processes that pass file descriptors over `SOCK_SEQPACKET`
sockets. This project models the parts of the server where that is hardest to get right, and proves
what they keep, over every interleaving and every input:

* the codec that turns one message into bytes and an out-of-band descriptor list and back
  (`wire.dfy`, `canonical.dfy`, `malformed.dfy`, `ancillary.dfy`, `packets.dfy`, `passfd.dfy`,
  `seqpacket.dfy`), and the messages of the three protocols, byte by byte (`proto.dfy`, `layouts.dfy`);
* the handshake and the build identity it compares (`handshake.dfy`, `handshake_runs.dfy`,
  `identity.dfy`);
* the sessions service with the pty processes it starts: any number of connection threads around a
  locked map, each driving a hand-off of a PTY and a client, with a panic possible at every `.expect`
  (`sessions.dfy` is the machine, `sessions_invariant.dfy` and `sessions_steps.dfy` its invariant,
  `sessions_theorems.dfy`, `sessions_descriptors.dfy`, `sessions_checks.dfy` and
  `sessions_handoff.dfy` the results,
  `session_map.dfy` the map as an object);
* the relays of a pty process: any number of clients on one PTY, two threads each (`relay.dfy`,
  `relay_turns.dfy`, `relay_theorems.dfy`, `relay_end.dfy`, and the thread loops in `relay_threads.dfy`);
* systemd socket activation (`socket_activation.dfy`).

Concurrent parts are state machines: a state, an action for one step of one thread or process with
the answers of the kernel and of peers as its arguments, and a step function that says what the action
does or that it cannot be taken. A run is any sequence of such steps. Sequential parts that change
things in place are classes and methods, proved against functions.

## Assumptions

* The wire format is that of bincode 1.3 `DefaultOptions` with `with_no_limit`, for the shapes the
  message types use; derived serializers visit fields in declaration order. Control-message sizes
  follow `CMSG_SPACE` of section 5.2 of RFC 3542 on a 64-bit system, with its cast to `c_uint`.
* The kernel delivers packets whole and in order, installs descriptors until the ancillary buffer or the
  process's descriptor limit (`room`) is exhausted, keeps queued packets readable after
  `shutdown(SHUT_RD)` and refuses new ones, and takes at least one byte in a successful PTY write.
* BLAKE3 is an arbitrary function. Where the design relies on it being injective the results say
  "equal, or here is a collision", and name the two colliding inputs.
* `Accept=yes` in `tere-pty.socket`: every connection to the pty service reaches a fresh process.

## Where the code differs from its comments and tests

The code is what is modelled.

* `server/src/socket_activation.rs:218` clamps the step with the length of all names, not of what is
  left (the comment at 217). `RunAsWritten` says exactly when that panics, `RunCorrected` that the
  corrected clamp never does on account of names, `OffsetPassesEnd` gives an input.
* `server/src/socket_activation.rs:143` turns a missing variable into `EnvError::Var`, so the
  `NotPresent` arm at 147 is dead and a missing `LISTEN_PID` is an error: `MissingPid`.
* `server/src/ipc/seqpacket.rs:188-194` returns before the received descriptors are adopted at 197, so
  those of a packet that is too large, or empty, stay open: `ReceiveWithFds` says so for one call,
  `OversizedLeaks` is a run in which it happens, `NothingLostIff` says exactly in which runs it does
  not, and `DescriptorsConserved` accounts for it.
* `server/src/services/pty/tests.rs:47` and `server/src/ipc/handshake.rs:126` expect an end-of-file
  error kind; the code returns `End`.
* Bytes that are accepted need not be the ones the sender would have produced: a longer-than-needed
  length is accepted (`NonCanonicalAccepted`). They are exactly if every number in them is written in
  its shortest form (`AcceptedCanonicalIff`), which what a sender produces always is
  (`SentIsShortest`).
* The ancillary buffer that the sizing loop ends with has room for the descriptors exactly if
  `CMSG_SPACE` does not wrap in its 32 bits (`GrowBuffer`, `WrapIsTooSmall`); no packet of the
  protocols comes near that.

## Model

| member | source | states |
|---|---|---|
| Wire.RoundTrip | server/src/ipc/seqpacket.rs:131-141 | For every schema and value, and any bytes and descriptors that follow: decoding the encoded bytes gives the value back with its i-th visited descriptor leaf bound to the i-th descriptor, and leaves exactly what followed. |
| Wire.RebindMeaning | server/src/ipc/passfd.rs:123-144 | Rebinding a value puts exactly the given descriptors in its leaves, in visiting order, and changes no byte. |
| Wire.TooFew | server/src/ipc/passfd.rs:132-139 | With fewer descriptors than leaves, decoding fails with too-few after taking every descriptor there was. |
| Wire.DecodeAccounts | server/src/ipc/seqpacket.rs:223-239 | For any bytes at all: a success yields a value of the schema whose descriptors are the first of those given, in order, and whose encoding is never longer than what was read, and equal to it if equally long; a failure leaves a suffix of the descriptors. |
| Wire.VarintRoundTrip | server/src/ipc/seqpacket.rs:131-133 | Reading a variable-length integer back from what was written for it, before any other bytes. |
| Canonical.AcceptedCanonicalIff | server/src/ipc/seqpacket.rs:223-239 | An accepted packet's bytes are the encoding of the accepted value if and only if every variable-length integer met in them is in its shortest form, a condition on the bytes alone. |
| Canonical.SentIsShortest | server/src/ipc/seqpacket.rs:131-141 | What a sender produces is in shortest form. |
| Canonical.NonCanonicalAccepted | server/src/ipc/seqpacket.rs:223-231 | Three bytes that are received as the empty byte string, are not in shortest form and are not what a sender produces. |
| Wire.ZeroBytesIffWeightless | server/src/proto/pty.rs:14-17 | A value encodes to no bytes, and so would read as the end of the stream, exactly if it has only descriptor and unit leaves: the reason for the dummy byte. |
| Wire.DecodeParametric | server/src/ipc/passfd.rs:123-144 | Decoding never looks at a descriptor: renaming descriptors first or last gives the same result. |
| Malformed.NumberLayout | server/src/ipc/seqpacket.rs:131-133 | Every byte of a written number: a marker by the number's size, then the bytes of the number with the lowest first, as quotients by literal powers of 256. |
| Malformed.CutShort | server/src/ipc/seqpacket.rs:223-231 | With its descriptors all there, no proper prefix of a value's encoding decodes to anything: it runs out of input. No message is the beginning of another. |
| Malformed.CutPacketRefused | server/src/ipc/seqpacket.rs:223-231 | A packet with a message's descriptors and a proper, nonempty prefix of its bytes is refused as too short. |
| Malformed.LongPacketRefused | server/src/ipc/seqpacket.rs:223-231 | A message followed by further bytes that still fit the size limit is refused for them, with the descriptors it needs all there. |
| Malformed.MarksRefused | server/src/ipc/seqpacket.rs:223-231 | Which error a bad option tag, a reserved number marker and a variant out of range give. |
| Ancillary.SlotsPadded | server/src/ipc/seqpacket.rs:178-181 | Padding gives the receive buffer room for one descriptor more than an odd `MAX_FDS`, and exactly `MAX_FDS` when it is even. |
| Ancillary.StopsIffLengthFits | server/src/ipc/seqpacket.rs:146-155 | The growth loop has a size to stop at exactly if the descriptor list's byte length fits 32 bits. |
| Ancillary.GrowBuffer | server/src/ipc/seqpacket.rs:146-155 | The loop ends with the least positive multiple of 128 that `add_fds` accepts: the space of the descriptors, padded to an even number, and a header, rounded up; or 128 if `CMSG_SPACE` wraps. It has room for them exactly if that does not wrap. |
| Ancillary.WrapIsTooSmall | server/src/ipc/seqpacket.rs:146-155 | A descriptor count for which it wraps, and 128 bytes are accepted that do not suffice. |
| Packets.ExactOutcome | server/src/ipc/seqpacket.rs:178-238 | For the bytes of a message with f leaves arriving with k descriptors, the exact result in all cases: truncated ancillary data, too few, too many (with both counts), or the message with the arriving descriptors in its leaves. |
| Packets.SendReceive | server/src/ipc/seqpacket.rs:122-240 | What is sent within the limits is received as itself. |
| Packets.AcceptedIsMessage | server/src/ipc/seqpacket.rs:223-239 | Whatever packet is accepted, the value conforms to the type, holds all of the packet's descriptors in order, and encodes to no more bytes than the packet has. |
| Malformed.SizeRefused | server/src/ipc/seqpacket.rs:188-194 | A packet is too large exactly if it is longer than `MAX_SIZE`, and the end of the stream exactly if it is empty. |
| Packets.DoubleVisitRefused | server/src/ipc/seqpacket.rs:131-133 | If the serializer visits a value twice, as with a size limit, the receiver accepts the message exactly if it is of proper size and carries no descriptor at all. |
| Packets.OutcomeParametric | server/src/ipc/seqpacket.rs:197-238 | The outcome in terms of descriptor numbers is the outcome in terms of the objects they refer to. |
| PassFd.Process.Drop | server/src/ipc/ownedfd.rs:30-34 | Dropping an owned descriptor closes it, once, and nothing else. |
| PassFd.Process.SerializeFd | server/src/ipc/passfd.rs:58-72 | Outside a gather it fails; inside, it appends the descriptor to the slot. |
| PassFd.Process.GatherFdsToVec | server/src/ipc/passfd.rs:34-56 | The slot is empty before and after, success or not; the list is what was given plus the descriptors visited in order, twice if a size limit makes the serializer visit twice, and a first part of them on failure. |
| PassFd.Process.DeserializeFd | server/src/ipc/passfd.rs:123-144 | Takes the first descriptor of the slot, or fails with too-few and takes none. |
| PassFd.Process.Deserialize | server/src/ipc/passfd.rs:123-144 | The recursive reader does what `Decode` says; on failure every descriptor taken so far was closed exactly once and the rest are still in the slot. |
| PassFd.Process.ScatterFdsFromVecDeque | server/src/ipc/passfd.rs:85-121 | The slot is empty before and after; exactly the unconsumed suffix is handed back; descriptors of a failed or trailing message are closed once each. |
| SeqPackets.SeqPacket.SendWithFds | server/src/ipc/seqpacket.rs:123-163 | One packet with the value's bytes and the objects behind its descriptors is sent, or none; the sender's table is unchanged. |
| SeqPackets.SeqPacket.ReceiveWithFds | server/src/ipc/seqpacket.rs:165-240 | A failing `recvmsg` leaves everything as it was. Otherwise the result is that of `Receive`, and every installed descriptor is in the returned message or was closed exactly once, except after `TooLarge` and `End`, where all of them stay open and unowned. |
| SeqPackets.TransferKeepsObjects | server/src/ipc/seqpacket.rs:123-240 | Across processes: the received value is the sent one, and its i-th descriptor refers to the object the sender's i-th did. |
| Proto.InitIsExact | server/src/proto/pty.rs:12-26 | Every `Init` fills its `MAX_SIZE` of one byte exactly and carries one descriptor. |
| Layouts.RequestLayout | server/src/proto/sessions.rs:18-42 | Every request for a session, byte by byte: the variant, the machine, the user, the optional program, arguments and environment; its client is the one descriptor. |
| Layouts.ShortestRequest | server/src/proto/sessions.rs:18-33 | The seven bytes of a request for the host with a user of one letter and nothing optional. |
| Layouts.RequestAccepted | server/src/services/sessions/mod.rs:118 | Every request of whatever machine, user, program, arguments and environment is received as itself exactly if those bytes are at most 8192, and is too large otherwise. |
| Layouts.AcceptedIsRequest | server/src/services/sessions/mod.rs:118-122 | Conversely, whatever packet is accepted is such a request, its client the packet's one descriptor, its own bytes no longer than the packet. |
| Layouts.AcceptedIsOne | server/src/proto/pty.rs:12-42 | The same of the messages of the pty service and of its users: no other variants, no other fields. |
| Layouts.MessageLayout | server/src/proto/pty.rs:12-38 | The exact bytes and descriptors of the five other messages. |
| Layouts.HandshakeLimit | server/src/ipc/handshake.rs:14-30 | A handshake is received as itself exactly if its intent is at most 8157 bytes long, and is too large otherwise. |
| Layouts.DeclaredLimits | server/src/ipc/mod.rs:46-54 | The limit of each of the six message types in numbers: which packets are too large, and which bring more descriptors than its buffer takes. |
| Proto.SessionsRequestShape | server/src/proto/sessions.rs:18-42 | Every request to the sessions service carries exactly one descriptor, the client's. |
| Proto.SessionOutputFits | server/src/services/pty/user.rs:57-73 | Every chunk the relay can read fits one packet and is never taken for the end of the stream. |
| Proto.KeyboardInputLimit | server/src/proto/pty/user.rs:15-26 | Keyboard input is received whole exactly if it is at most 8188 bytes, and refused as too large otherwise. |
| Proto.ReceiveInit | server/src/services/pty/mod.rs:47-50 | A sent `Init` is received as that `Init` with that PTY. |
| Proto.ReceiveNewClient | server/src/services/pty/mod.rs:57-60 | A sent `NewClient` is received as that request with that client. |
| Handshakes.JudgeHello | server/src/ipc/handshake.rs:54-62 | The exact verdict on an honest hello: version first, on the digests, then service, on the intents. |
| Handshakes.JudgeExact | server/src/ipc/handshake.rs:54-62 | Any packet at all passes exactly if it is received as the very handshake expected; a failed receive is the verdict; another handshake is told apart by the digest first, then by the intent. |
| Handshakes.HandshakeAsClient | server/src/ipc/handshake.rs:47-63 | Sends its hello, then takes what `recvmsg` delivers. It succeeds exactly if that is received as the handshake of a server of the service and of its own build; a failure to receive is the result; after a refused send it touches nothing. No descriptor changes hands. |
| Handshakes.HandshakeAsServer | server/src/ipc/handshake.rs:65-81 | It succeeds exactly if what `recvmsg` delivers is received as the handshake of a client of the service and of its own build, and its own hello is accepted; only then that is sent; a failure to receive is the result. |
| HandshakeRuns.IntentsDistinct | server/src/proto/pty/user.rs:5-6 | The six intents of the three services are pairwise different. |
| HandshakeRuns.RunInv | server/src/ipc/handshake.rs:47-81 | In every run: each side has sent nothing or its one hello, and its status tells which checks on the peer passed or failed. |
| HandshakeRuns.ClientSuccess | server/src/ipc/handshake.rs:47-81 | A client that succeeds, on either side, faces a server of its own service that passed both its checks and is done; their builds are equal, or two builds collide under both intents. |
| HandshakeRuns.SuccessMeansMatch | server/src/ipc/handshake.rs:47-81 | Success on either side means one service and opposite roles. |
| HandshakeRuns.MismatchNeverCompletes | server/src/ipc/handshake.rs:47-81 | Different services, two clients or two servers never complete on either side. |
| HandshakeRuns.WrongServiceIsCollision | server/src/ipc/handshake.rs:56-61 | A `WrongService` verdict, by either side, exhibits a collision of the key derivation; any other mismatch is `WrongVersion`. |
| HandshakeRuns.MatchNeverComplains | server/src/ipc/handshake.rs:47-81 | A fitting pair of one build never gets `WrongVersion` or `WrongService`, in any run. |
| HandshakeRuns.FaultFree | server/src/ipc/handshake.rs:47-81 | Every run of a fitting pair without faults takes the same four steps in order, as far as it goes: never a fifth, always a next one before the fourth, and with the fourth both sides have succeeded. |
| HandshakeRuns.StuckIffTwoServers | server/src/ipc/handshake.rs:47-81 | In every run the two can no longer go on without a fault exactly if both are over, or both are servers that heard nothing. |
| HandshakeRuns.ClientTurns | server/src/ipc/handshake.rs:47-63 | The turns of a client in a run add up to the method's result, for every answer of the kernel and every packet of the peer. |
| HandshakeRuns.ServerTurns | server/src/ipc/handshake.rs:65-81 | The same of a server's turns. |
| Identity.ParsePrint | server/build.rs:26-61 | A parser recovers every entry sequence from the bytes fed to the hasher, although digests may contain NUL. |
| Identity.PrintParse | server/build.rs:26-61 | Whatever the parser accepts is the stream of what it returns. |
| Identity.UniquelyDecodable | server/build.rs:26-61 | Two entry sequences feed the hasher the same bytes only if they are equal. |
| Identity.StreamLayout | server/build.rs:32-56 | The bytes of an entry of either kind, in numbers. |
| Identity.HexDigits | server/build.rs:61 | Every byte of the identity: two digits of "0123456789abcdef" a byte, the high one first. |
| Identity.HashProtocolIdentity | server/build.rs:18-61 | Piece by piece the loop feeds exactly the stream of the described entries; it panics exactly if something is unreadable. |
| Identity.DirectoriesInvisible | server/build.rs:42-44 | Directories contribute nothing to the identity. |
| Identity.IdentityDeterminesTree | server/build.rs:18-61 | Equal identities mean equal trees, or a collision of two files' contents at one path, or of the two streams. |
| Identity.BuildAgreement | server/src/ipc/handshake.rs:8-12 | End to end: after a client's success, on either side of the connection, its peer is a server of the same service built from the same tree, or one of three explicit collisions is at hand. |
| SessionsSteps.StepKeeps | server/src/services/sessions/mod.rs:114-215 | Every step of every thread and process keeps the invariant and the past; only a receive of a too large or empty packet adds to the descriptors nobody owns, and it adds exactly that packet's. |
| SessionsSteps.RunInv | server/src/services/sessions/mod.rs:104-216 | The invariant (ownership of every descriptor, locks, what a thread's locals mean, what was sent on every connection) holds at every point of every run. |
| SessionsSteps.RunExtends | server/src/services/sessions/mod.rs:141-151 | What was decided once stands for the rest of the run: a request's client, PTY, id and connection, a session's request, a Ready state, what was sent and started. |
| SessionsTheorems.Routing | server/src/services/sessions/mod.rs:156-212 | In every interleaving a pty process starts at most one relay; its client was accepted as some request r and its PTY is the one `create_shell` returned later for that same r. |
| SessionsTheorems.ClientOrigin | server/src/services/sessions/mod.rs:118-122 | A request's client is the one descriptor of the packet with which some step of the owning thread accepted the request. |
| SessionsTheorems.PtyOrigin | server/src/services/sessions/mod.rs:156-161 | A request's PTY was returned by a `create_shell` of the thread while it served that request. |
| SessionsTheorems.LinksApart | server/systemd/lib/systemd/system/tere-pty.socket:8 | Two pty processes never serve the same request or the same PTY. |
| SessionsTheorems.Conversation | server/src/services/pty/mod.rs:44-60 | On every connection what was sent is a prefix of handshake, `Init`, `NewClient`, and every packet the pty process reads next is decoded, at the step it has reached, as exactly the message that was sent. |
| SessionsTheorems.ReadyMeansInitialized | server/src/services/sessions/mod.rs:177-212 | A session seen Ready holds its connection and its PTY, and that PTY's `Init` is already queued, ahead of any client. |
| SessionsTheorems.SessionsStand | server/src/services/sessions/mod.rs:136-153 | Ids are never reused or removed, and a Ready session never changes. |
| SessionsTheorems.NoInternalPanic | server/src/services/sessions/mod.rs:189-201 | No mutex is ever poisoned, and a thread about to store finds its own entry, still Creating: none of the three internal panics can fire. |
| SessionsTheorems.LocksExclude | server/src/services/sessions/mod.rs:136-201 | At most one thread in each critical section, and no thread in two. |
| SessionsTheorems.LocksProgress | server/src/services/sessions/mod.rs:136-201 | A session's mutex is free whenever it is wanted, and whoever holds a mutex has a step to take that needs no other. |
| SessionsDescriptors.DescriptorsConserved | server/src/services/sessions/mod.rs:118-212 | At every moment of every run the number of open descriptors is the initial one, plus two per Ready session, plus what each thread in flight holds, plus what too large or empty packets brought. |
| SessionsDescriptors.WhatIsOpen | server/src/services/sessions/mod.rs:118-212 | The same, descriptor by descriptor: one is open exactly if it was at the start, is the PTY or the connection of a Ready session, is in a thread's hands, or was lost. |
| SessionsDescriptors.NothingLostIff | server/src/ipc/seqpacket.rs:188-197 | At every moment of every run, no open descriptor is unowned exactly if every request packet received so far was of proper size, carried no descriptor, or came when the process could take none. |
| SessionsDescriptors.OversizedLeaks | server/src/ipc/seqpacket.rs:188-191 | A run from the start in which a client's packet of 8193 bytes leaves its descriptor open after the thread has ended. |
| SessionsDescriptors.LostIsLeaked | server/src/ipc/seqpacket.rs:188-197 | The unowned descriptors are exactly those of too large or empty packets, and the initial ones stay open. |
| SessionsDescriptors.EndReleases | server/src/services/sessions/mod.rs:114-215 | Whenever a thread ends, by a refused handshake or request, a refused reply of the pty process or any other panic: all it held is closed and nothing else, only the packet that ended it can lose descriptors, and its session, unless Ready, stays Creating and owns nothing. |
| SessionsDescriptors.ReadyByAllocator | server/src/services/sessions/mod.rs:189-201 | A session becomes Ready only through the thread it was allocated by, with that thread's PTY and connection. |
| SessionsDescriptors.AbandonedForGood | server/src/services/sessions/mod.rs:141-151 | An entry whose thread ended before making it Ready stays Creating for the rest of the run. |
| SessionMaps.SessionMap.Allocate | server/src/services/sessions/mod.rs:136-153 | The retry loop enters the first vacant id drawn, as Creating, and changes no other entry. |
| SessionMaps.SessionMap.MakeReady | server/src/services/sessions/mod.rs:189-201 | Replaces the entry exactly if it is Creating, and changes no other. |
| SessionMaps.DrawLoop | server/src/services/sessions/mod.rs:140-152 | The machine's draw steps, for any number of occupied ids before a vacant one, end in the map that `Allocate` makes. |
| SessionMaps.StoreIsMakeReady | server/src/services/sessions/mod.rs:193-200 | The machine's store step does to the map what `MakeReady` does in both cases, and ends the thread with the mutex poisoned exactly when it is refused. |
| SessionsHandoff.HandoffCompletes | server/src/services/sessions/mod.rs:117-213 | Every run that has reached a state with an idle thread and the map's mutex free can be continued, from any acceptable request, to a Ready session and a pty process that relays its PTY to that request's client. |
| SessionsHandoff.EveryRequestIsHandedOver | server/src/services/sessions/mod.rs:117-213 | So for every request of whatever machine, user, program, arguments and environment that fits a packet, with a client socket of the right kind. |
| SessionsChecks.ServeHandshakeVerdict | server/src/services/sessions/mod.rs:114-115 | A thread goes on from its handshake exactly if the packet is received as the hello of a sessions client of its own build and the reply was accepted; otherwise it ends. |
| SessionsChecks.TakeRequestVerdict | server/src/services/sessions/mod.rs:118 | A thread takes a request up exactly if the packet is received as one; otherwise it ends. |
| SessionsChecks.TakeReplyVerdict | server/src/services/sessions/mod.rs:168-174 | A thread goes on exactly if its pty process's reply is the hello of a pty server of its own build; otherwise it ends. |
| SessionsChecks.PtyHelloVerdict | server/src/services/pty/mod.rs:44-45 | A pty process goes on, and replies, exactly if it was sent the hello of a pty client of its own build; otherwise it exits. |
| SessionsChecks.PtyVerdicts | server/src/services/pty/mod.rs:47-67 | In every reachable state: with room for the descriptor a pty process serves its request's PTY, and relays it to its request's client exactly if that is a `SOCK_SEQPACKET`; otherwise it exits. |
| SessionsChecks.PanicsAt | server/src/services/sessions/mod.rs:156-212 | The places where a failed call is a panic, and no others. |
| SessionsChecks.MapLockVerdict | server/src/services/sessions/mod.rs:137-139 | A thread waits for the map's mutex exactly while another has it, and gets it, or ends if it is poisoned. |
| SessionsChecks.SessionLockVerdict | server/src/services/sessions/mod.rs:190-192 | The same of a session's mutex. |
| SessionsChecks.QuitPoisons | server/src/services/sessions/mod.rs:136-201 | A thread that ends with a mutex in its hands leaves it free and poisoned, and no other. |
| SessionsChecks.ServedOnlyIfGreeted | server/src/services/sessions/mod.rs:104-118 | In every run a thread anywhere past its handshake and not ended has an earlier handshake step of its own that passed. |
| SessionsChecks.EverythingChecked | server/src/services/sessions/mod.rs:168-212 | In every run a thread past its handshake with a pty process was sent the hello of a pty server of its build first; a pty process past its own was sent that of a pty client of its build; and it relays only sockets of the right kind. |
| SessionsChecks.PtyBuildAgrees | server/src/services/pty/mod.rs:43-60 | In every run a pty process that goes on has the key of the sessions process's build under the client's intent. |
| RelayTheorems.RunInv | server/src/services/pty/user.rs:28-94 | The invariant of all relays holds at every point of every run: among others, which packets were taken and written, why a relay refused its client and why an input thread stopped. |
| RelayTheorems.OutputConserved | server/src/services/pty/user.rs:54-75 | What was read from the PTY and what is pending is all its program printed; one client's reads are, chunk for chunk and in order, what the client is sent and decodes after the hello, but for at most one last chunk of at most 1024 bytes. |
| RelayTheorems.NothingSharedOrLost | server/src/services/pty/mod.rs:55-67 | With any number of clients: every byte read from or written to the PTY is at exactly one place of exactly one client's stream, every place of a client's stream is one such byte, and each client's bytes keep their order. |
| RelayTheorems.InputConserved | server/src/services/pty/user.rs:37-52 | Whatever the short writes, one client's bytes on the PTY are a prefix of its keyboard input; while its relay waits they are all of what was received, and none of that was refused. |
| RelayEnd.ServedWasGreeted | server/src/services/pty/user.rs:32-33 | In every run a client whose input is read or who is sent output sent, as its first packet, the handshake of a user client of this build. |
| RelayEnd.ReturnedResult | server/src/services/pty/user.rs:32-93 | A relay that returns never returns success nor a send error; for a failed handshake and a failed receive, exactly what was or was not received; and which error goes with which state of its threads. |
| RelayEnd.JoinTurns | server/src/services/pty/user.rs:77-93 | The joins: the input thread is waited for only after the output thread ended and the shutdown was accepted, and what it did is the result; a refused shutdown is the result at once. |
| RelayEnd.EndIsSeen | server/src/services/pty/user.rs:32-42 | Once the client closed or the read side was shut down, and all packets are taken: a relay that waits for its hello returns the end of the stream as a handshake error, and an input thread that waits ends with it. |
| RelayEnd.NeverStuck | server/src/services/pty/user.rs:32-93 | From then on the relay always has a step to take until it returned or only its output thread is at work. |
| RelayEnd.WorkShrinks | server/src/services/pty/user.rs:32-52 | From then on every step towards receiving lessens the work left, and no other step adds to it. |
| RelayEnd.ReceivingTerminates | server/src/services/pty/user.rs:32-93 | However a run goes on from then, the relay takes no more such steps than its work was at that moment. |
| RelayEnd.ClosedClientIsNoticed | server/src/services/pty/user.rs:32-93 | In every run, a relay whose client closed and that has no such step left has returned, or only its output thread is at work. |
| RelayThreads.PtyMaster.Read | server/src/pty_master.rs:33-45 | A read takes the front part of what is pending that the kernel grants, at most the buffer's size, or fails and takes nothing. |
| RelayThreads.PtyMaster.Write | server/src/pty_master.rs:47-58 | A write appends the front part of the buffer that the kernel takes and says how long it was, or fails and appends nothing. |
| RelayThreads.PtyMaster.WriteAll | server/src/services/pty/user.rs:47 | Through any short writes the buffer is written whole and in order, or a front part of it before an error; and whole if every write takes something. |
| RelayThreads.InputThread | server/src/services/pty/user.rs:40-51 | Whatever packets arrive before or while it runs, the loop ends with the stream; it wrote a prefix of their keyboard input, all of what it took unless the PTY failed, which it does not if every write takes something; and which packet, the end or a failing socket stopped it. |
| RelayThreads.OutputThread | server/src/services/pty/user.rs:54-75 | Over any number of rounds the loop sends every chunk it read, in order, but for one if a send fails; it ends at the first failed read or send, with success exactly for `EIO`. |
| RelayThreads.OutputTurns | server/src/services/pty/user.rs:54-75 | The output thread's turns among all others: for every answer of the kernel what a round of its loop does, and no other turn. |
| RelayThreads.InputTurns | server/src/services/pty/user.rs:44-48 | The same of the input thread's writes. |
| RelayThreads.ReceiveTurns | server/src/services/pty/user.rs:40-43 | The same of its receives; it waits exactly while nothing arrived and nothing ended. |
| SocketActivation.SplitJoin | server/src/socket_activation.rs:196-211 | Splitting at colons undoes joining with colons. |
| SocketActivation.RunFrom | server/src/socket_activation.rs:196-225 | From any offset: the items carry consecutive numbers and the names of the segments, and the exact condition under which a run panics, as written or corrected, with or without overflow checks. |
| SocketActivation.PlusWraps | server/src/socket_activation.rs:223 | Without overflow checks the numbers wrap as 32-bit two's complement. |
| SocketActivation.RunAsWritten | server/src/socket_activation.rs:196-225 | A full run is free of panics exactly if the numbers fit `i32` and there are no names, no more descriptors than names, or two descriptors for one name; the i-th item is then descriptor start+i with the i-th segment. |
| SocketActivation.RunCorrected | server/src/socket_activation.rs:217-218 | With the clamp the comment describes, the condition on names vanishes. |
| SocketActivation.OffsetPassesEnd | server/src/socket_activation.rs:218 | Three descriptors with the names "a:b": a panic as written, none as corrected. |
| SocketActivation.FdIter.Next | server/src/socket_activation.rs:196-225 | The method on the fields does what the function on their values does. |
| SocketActivation.FindListener | server/src/services/sessions/mod.rs:37-48 | The loop finds the last announced descriptor named "tere-sessions", or none exactly if none is named so, and panics exactly if the iterator does. |
| SocketActivation.ParseDecimal | server/src/socket_activation.rs:142-165 | A decimal numeral is read back exactly if it fits the type. |
| SocketActivation.ParseExact | server/src/socket_activation.rs:144 | Exactly the decimal numerals of numbers that fit, after an optional plus sign and zeros, are read, as those numbers. |
| SocketActivation.DecimalLayout | server/src/socket_activation.rs:144 | The ten digits as decimal numerals have them, the highest first. |
| SocketActivation.ParseTable | server/src/socket_activation.rs:142-181 | The result for every environment: an error of `LISTEN_PID`; nothing to deliver for another process; an error of `LISTEN_FDS`; or so many descriptors from 3 on with the names there are. |
| SocketActivation.DeliveredIsForUs | server/src/socket_activation.rs:145-157 | An iterator that yields anything comes from an environment whose `LISTEN_PID` is this process's. |
| SocketActivation.MissingPid | server/src/socket_activation.rs:142-157 | The code agrees with the treatment its dead match arm intends, which is to deliver what is announced, exactly if `LISTEN_PID` is present; otherwise it is an error. |
| SocketActivation.Activation.Parse | server/src/socket_activation.rs:130-181 | The result is that of the variables as they were; the three variables are removed whatever it is. With another process's `LISTEN_PID` it succeeds and the iterator yields nothing; an iterator that yields anything or panics comes from an environment that names this process. |
| SocketActivation.AnnouncedIsDelivered | server/src/socket_activation.rs:130-225 | End to end: descriptors announced by systemd with a name each are delivered in order with their names, without a panic. |

## Left out

- SeqPackets.SeqPacket.SendWithFds: requires a descriptor list whose byte length fits 32 bits, since the sizing loop of the code does not end otherwise (`StopsIffLengthFits`); the kernel's own limit on descriptors per packet is one of the reasons for a refused send.
- SessionMaps.SessionMap.Allocate: assumes that the random draws eventually hit a vacant id, without which the loop does not end.
- SocketActivation.FdIter.Next: an overflowing descriptor number is a panic or a wrap according to a build flag; the overflow of the offset itself cannot occur for a vector's length and is not modelled.
- Threads of the sessions service and of the relays are steps on values, not methods with loops: what matters is how they interleave. The sequential pieces (`SessionMap`, `InputThread`, `OutputThread`) are there as methods beside them.
- D-Bus and the session starter: `create_shell` returns a fresh descriptor of a new PTY, or fails, which is a panic; what of the request it is told (the machine's name and the user, `server/src/services/sessions/mod.rs:123-135`) is not modelled.
- System calls (`socket`, `connect`, `getsockopt`, `sendmsg`, `recvmsg`, `read`, `write`, `shutdown`): contracts and step arguments, see Assumptions. Interrupted calls are not modelled.
- UTF-8: string fields accept any bytes, so the refusal of invalid text by the deserializer is not a case; whether an environment value is Unicode is an input.
- Descriptor tables of the pty processes; only the sessions process's is accounted for.
- The accept loop of the sessions service, with its panic on a listener of another socket type, and the `run` functions other than the search for the listener.
- Two requests with the very same client socket: each gets its own session, PTY process and relay, and what the client sees of two relays on one socket is not modelled.
- Nested gathers and scatters, which debug builds refuse with a panic; no caller nests them.
- The hash function, the random number generator, directory walking and ignore rules: parameters.
- The in-memory test transport, integration tests, packaging, the debug client, logging and error texts: scaffolding.
- Components the design documents describe but the repository does not implement.
