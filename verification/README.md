# 0pty, modelled and proved

0pty keeps a terminal alive on a server and lets clients attach to it, drop off, and come back. Its core is a
replicated byte log: what the PTY prints is appended to a bounded ring, broadcast to every attached client, and
resumed by sequence number after a disconnect. This project is a Dafny model of that core and of the code around
it whose correctness is not obvious, with machine-checked proofs.

| file | what it models |
|---|---|
| `Bytes.dfy` | big-endian integers, `memcpy` |
| `Ring.dfy` | the ring buffer: an array with two-piece wrap-around copies, as a class and as a value |
| `Transport.dfy` | `read`, `write` and `writev` as oracles with short counts, EINTR and failures, and the loops over them |
| `Framing.dfy` | frames on a byte stream, sending and receiving, cuts |
| `Messages.dfy` | message payloads, the builders, the parsers, the token comparison |
| `Clients.dfy` | the heap objects for clients: reference counts, the linked list, pinned snapshots |
| `Protocol.dfy` | replay and broadcast as a step system with any number of threads, clients and cuts |
| `ProtocolSafety.dfy` | what every step keeps in any environment: locks, counts, ring, bytes on the wire |
| `ProtocolDelivery.dfy` | what every step keeps about sequence numbers and frames |
| `ProtocolPeers.dfy` | what every step keeps about the output of client programs |
| `ProtocolTheorems.dfy` | the main results over every run |
| `ProtocolFailures.dfy` | what failures do in any environment: who is marked dead, who is passed over |
| `ProtocolRuns.dfy` | constructed runs, and the exact condition under which no run has a gap |
| `ClientStream.dfy` | the client's handling of one frame, as code |
| `Child.dfy` | polling, signalling and reaping the child under any number of shutdown requests |
| `PtyInput.dfy` | what reaches the PTY, under `pty_mu` |
| `SessionCodec.dfy` | the escaper and the two decoders of session files |
| `SessionRecord.dfy` | writing and reading a session file |

Code that updates state in place is written as classes and methods with loops, each proved against a function of
the old state. Concurrency is modelled as steps: one step is one lock acquisition, one critical section, one
partial write, or one event outside the server, and a run is any list of steps that the states allow.

## Main results

* Whatever the interleaving, cuts and reconnects, a client's output is slices of the history in order, and each
  slice starts where the one before it ended, or where the ring began when the client attached if that is later
  (`EndToEnd`, `NothingElseIsLost`). This holds in every run exactly when a full REPLAY fits a frame and allocations
  cannot fail (`GapFreeExactlyWhenGood`). Otherwise there is a run in which a client prints live output
  right after WELCOME and skips bytes that the ring still holds, because src/server.c:495-515 publishes the
  client as authenticated before REPLAY is known to be sendable. A failed `calloc` in the snapshot of the client
  list (src/server.c:363-366) leaves a gap by itself, because the chunk in hand is silently not sent
  (`FailedSnapshotLeavesAGap`).
* Those results are about something: for every output, and every list of places in it at which a client is connected,
  there is a run in which each RECONNECT is admitted and served, and the client ends in the input loop having printed
  everything the ring still held each time (`SomeRunResumes`); and for every number of clients a run in which all are
  attached at once and print a chunk live (`SomeRunServesMany`). Every running thread that waits for no held lock can
  go on with nothing going wrong, and the one of a client that says HELLO or RECONNECT by admitting it
  (`ThreadGoesOn`).
* A broadcast leaves a client behind only with the whole chunk sent or marked dead (`NobodyIsPassedOver`), and while
  allocations succeed only a failed socket gets a client marked dead (`OnlyFailuresKill`).
* In every run, reference counts equal the references there are, locks nest in one order and no state is a lock
  deadlock, and the bytes of a connection are whole frames and at most part of one more.
* No step of any run touches a freed client exactly when `pthread_create` stores the new thread's handle before that
  thread runs (`StoresAreSafeExactly`). POSIX allows the store to come later, and src/server.c:709 points it into the
  client object: a connection whose thread ends at once is freed first (`LateStoreTouchesFreed`). That store is the
  only step that reaches a client without a reference (`NoUseAfterFree`).
* Every live client of every run stands at an end of the chunk in hand, or between chunks at the end of the history,
  exactly when allocations cannot fail, whatever the ring's capacity (`LiveClientsStandExactlyWhenAllocated`).
* The ring is the last `cap` bytes of the history, for appends of any length.
* What one end of a stream frames the other end receives, under every pattern of short transfers and EINTR at both
  ends and at every cut; with failures, an initial part of it (`Framing.Deliver`).
* The child is reaped at most once and not signalled afterwards; each request's polls, sleeps and signals, read off the
  steps of any run, are an initial part of one fixed ladder, and some run climbs all of it.
* What the PTY is given is, connection by connection, exactly the payloads of the frames that were entitled to ask for
  it, in order (`InputIsConserved`, `OnlyTheEntitledAsk`).
* Reading any file of one-line fields, in any order, absent or repeated, succeeds exactly when each field is acceptable,
  the port is not empty and no argument is missing, and gives each field's last value or its default (`ReadsAnyFile`).
* A session file gives back its session exactly when no unescaped string has a line break or a trailing carriage
  return and all fit; the arguments are unrestricted.

## Assumptions

* Locks can be taken and released without error. Allocation failure is part of the protocol model where the code
  checks for it while serving clients: `Env.allocFails` says whether it can happen. In the methods it is the
  parameter `memory`.
* `Env.lateStore` says whether `pthread_create` may store a thread's handle after the thread has begun to run.
* A socket whose write has failed accepts nothing more.
* Fewer than 2^64 bytes are ever produced.
* A client talks to one server instance; the wire carries no instance identity (ROADMAP.md:73-74).
* The ring's capacity is positive, as `opty_ring_init` demands (src/ring.c:16).
* Clocks, the network, `waitpid`, `kill` and the PTY device are parameters of steps or lists of results.

## Model

| member | source | states |
|---|---|---|
| Bytes.FromBEToBE | src/protocol.c:267-283 | decoding the big-endian digits of a number in range gives it back |
| Bytes.ToBEFromBE | src/protocol.c:250-265 | every digit string is the encoding of the number it decodes to |
| Bytes.GettersAreBigEndian | src/protocol.c:250-265 | the shift-and-or getters compute the big-endian value |
| Bytes.PutU16 | src/protocol.c:267-271 | writes exactly the two big-endian digits and nothing else in the buffer |
| Bytes.PutU64 | src/protocol.c:273-283 | writes exactly the eight big-endian digits and nothing else in the buffer |
| Ring.AppendKeepsWindow | src/ring.c:57-105 | one append of any length, also longer than the ring, keeps `buf[i % cap] == history[i]` for the last `cap` bytes |
| Ring.RingRefinesHistory | src/ring.c:57-105 | after any sequence of appends the ring represents the whole history's tail |
| Ring.SnapshotIsHistory | src/ring.c:107-168 | the two-piece copy is exactly the history from the clamped sequence number to the end |
| Ring.ResumeAfterAppends | src/ring.c:57-168 | a snapshot from an earlier end gives exactly the bytes appended since, or their retained suffix |
| Ring.RingBuffer.constructor | src/ring.c:12-39 | a new ring is empty, at sequence number 0, with the asked capacity |
| Ring.RingBuffer.AppendBytes | src/ring.c:57-105 | the in-place append with its two `memcpy` calls and 64-bit counters computes the append of the value model and reports where it started |
| Ring.RingBuffer.SnapshotWindow | src/ring.c:107-168 | returns base, clamped start, end and a fresh copy of the window, none when it is empty or `malloc` fails, and changes nothing |
| Ring.RingBuffer.Bounds | src/ring.c:175-190 | reports the window's two ends |
| Transport.ReadFull | src/protocol.c:32-57 | returns the asked count, or the shorter count at the end of the stream, or -1; what it delivers is the next input |
| Transport.WriteFull | src/protocol.c:59-81 | sends all of the data or fails having sent a proper prefix |
| Transport.WritevFull | src/protocol.c:83-127 | sends exactly the concatenation of at most three buffers or fails with a prefix; on a clean socket it fails exactly for more than three buffers, or when there are buffers and all are empty |
| Transport.WritevLoop | src/protocol.c:92-126 | the cursor loop: its remaining buffers are always the unsent rest, and it ends |
| Framing.FrameLayout | src/protocol.c:146-158 | a frame is a four-byte big-endian length that counts the type byte, the type byte, and the payload |
| Framing.ReceiveInvertsEncode | src/protocol.c:129-232 | a receive on an encoded frame delivers that frame and leaves the rest, unless it exceeds the limit |
| Framing.ReceiveAcceptsOnlyEncodings | src/protocol.c:169-232 | what a receive consumes is the encoding of what it delivers |
| Framing.CutInsideFrame | src/protocol.c:169-232 | a stream that ends inside a frame delivers nothing of it |
| Framing.StreamRoundTrip | src/protocol.c:129-232 | for every list of sendable frames and part of one more, repeated receives give exactly the list, and the end is clean only at a boundary |
| Framing.CutAnywhere | src/protocol.c:169-232 | a cut after any number of bytes gives exactly the frames that are whole before it |
| Framing.SendFrame | src/protocol.c:129-167 | sends the encoding of a sendable frame or a proper prefix of it, and nothing of one that is too long |
| Framing.SendAll | src/protocol.c:129-167 | frames sent one after the other: the encoding of the list, or a proper prefix of it on failure |
| Framing.ReceiveFrames | src/protocol.c:169-232 | repeated receives give the frames of the stream in order, all of them on a socket that does not fail, and tell a clean end from a cut inside a frame |
| Framing.Deliver | src/protocol.c:32-232 | sending a list and receiving any number of its bytes, with any short counts, EINTRs and failures at both ends: the receiver has an initial part of the list, and without failures exactly the frames that arrived whole |
| Framing.RecvFrameLimited | src/protocol.c:169-232 | 0 with the next frame, 1 at a clean end, -1 otherwise; nothing is delivered unless 0 |
| Messages.IntroRoundTrip | src/protocol.c:285-308 | parsing a built HELLO or RECONNECT gives back sequence number, size and token, exactly when the token and a NUL fit the buffer, or there is neither |
| Messages.IntroLayout | src/protocol.c:285-308 | where version, sequence number, sizes, token length and token lie in HELLO and RECONNECT |
| Messages.IntroCanonical | src/protocol.c:434-510 | every accepted intro payload is the build of what was parsed from it |
| Messages.IntroCanonicalAsCString | src/protocol.c:434-510 | rebuilding from the token as a C string gives the payload back exactly when the token has no NUL |
| Messages.ControlRoundTrip | src/protocol.c:403-431 | parsing a built shutdown request gives back token and input, exactly when the token and a NUL fit the buffer and the input has at most 4096 bytes |
| Messages.ControlLayout | src/protocol.c:403-431 | where version, token and input lie in a shutdown request |
| Messages.ControlCanonical | src/protocol.c:560-597 | every accepted shutdown payload is the build of what was parsed from it |
| Messages.FirstFramesFit | src/protocol.h:15 | every first frame fits the limit for unauthenticated clients, which only a maximal shutdown request attains |
| Messages.ServerMessagesRoundTrip | src/protocol.c:342-387 | STDOUT, REPLAY and WELCOME survive build and parse |
| Messages.ServerLayout | src/protocol.c:342-387 | STDOUT and REPLAY are a sequence number and data, WELCOME is the two ends of the window |
| Messages.StreamCanonical | src/protocol.c:533-547 | every accepted stream payload is the build of its sequence number and data |
| Messages.InputMessagesRoundTrip | src/protocol.c:320-335 | RESIZE and ACK survive build and parse |
| Messages.SendTokenizedIntro | src/protocol.c:285-308 | the buffer filled at a moving offset is sent as the intro frame, a proper prefix of it if a write fails, or nothing if the token is too long |
| Messages.SendControlShutdown | src/protocol.c:403-431 | the buffer filled at a moving offset is sent as the shutdown frame, a proper prefix of it if a write fails, or nothing if a part is too long |
| Messages.SendStreamFrame | src/protocol.c:342-368 | sends the stream frame for a sequence number and data, a proper prefix of it if a write fails, or nothing if `malloc` fails or it does not fit a frame |
| Messages.SendWelcome | src/protocol.c:380-387 | sends the WELCOME frame for the two ends of a window, or a proper prefix of it |
| Messages.ParseClientIntro | src/protocol.c:434-510 | accepts and returns exactly what the intro grammar says, for any token capacity |
| Messages.ParseControlShutdown | src/protocol.c:560-597 | accepts and returns exactly what the shutdown grammar says, for any token capacity |
| Messages.TokensEqual | src/server.c:223-235 | the loop without early exit decides equality of the two whole buffers |
| Messages.PaddedEquality | src/server.c:112-118 | a stored secret equals a received token exactly when the token is the secret followed by NULs only, so as C strings they agree |
| Clients.UnlinkAt | src/server.c:317-332 | unlinking removes the one element and keeps the order of the others |
| Clients.ReleaseLocked | src/server.c:295-306 | drops one reference and frees at zero; an object without references is left alone |
| Clients.ReleaseManyLocked | src/server.c:308-315 | drops references one by one and stops at the one that frees |
| Clients.ClientList.Add | src/server.c:673-708 | a fresh client with two references heads the list |
| Clients.ClientList.DropFromList | src/server.c:317-332 | the pointer-to-pointer walk removes exactly that node, clears its flag, and reports whether it was listed |
| Clients.ClientList.MarkDeadLocked | src/server.c:334-341 | marks the client dead, removes it from the list and reports the list's reference |
| Clients.ClientList.FinishClient | src/server.c:517-523 | releases the thread's reference and the list's if there is one |
| Clients.ClientList.AbandonClient | src/server.c:429-434 | releases the list's reference if there is one |
| Clients.ClientList.Snapshot | src/server.c:343-380 | the live clients in list order, each with one more reference, all others unchanged; nobody if `calloc` fails |
| Clients.ClientList.ReleaseSnapshot | src/server.c:382-395 | releases each pinned client once |
| ProtocolSafety.SafeNext | src/server.c:343-523 | every step keeps who holds which lock, the exact counts, the ring's contents and the framing of every connection |
| ProtocolSafety.SafeRun | src/server.c:343-718 | so does every run from the start |
| ProtocolSafety.WriteWire | src/protocol.c:83-127 | a partial write keeps a connection's bytes whole frames and part of one more |
| ProtocolDelivery.NothingIsTrimmed | src/server.c:416-423 | the trim of a broadcast chunk always sends all of it or none of it |
| ProtocolDelivery.SnapshotLeavesOut | src/server.c:343-380 | a list snapshot leaves out only clients that are dead or not yet attached, and none is between its ring snapshot and its publication |
| ProtocolDelivery.LivesNext | src/server.c:397-515 | while allocations succeed, every step keeps every live client's sequence number at an end of the chunk in hand |
| ProtocolDelivery.StreamsNext | src/server.c:397-515 | in a good environment every step keeps the frames of each connection |
| ProtocolPeers.NextFrame | src/protocol.c:169-232 | whatever part of a connection's bytes has arrived, a receive that delivers delivers the next frame sent |
| ProtocolPeers.PeersNext | src/client.c:300-327 | in a good environment every step keeps every client's output made of history slices |
| ProtocolPeers.DeliveryRun | src/client.c:1655-1695 | so does every run, over any number of reconnects |
| ProtocolTheorems.RingHoldsTheTail | src/ring.c:57-105 | in every reachable state the ring holds the last `cap` bytes ever produced, byte i at i % cap, with no overflow |
| ProtocolTheorems.HistoryIsWhatWasRead | src/server.c:642-664 | over any run the history, with the chunk in hand, is the chunks read from the PTY, one after the other |
| ProtocolTheorems.CountsAreExact | src/server.c:288-341 | in every reachable state a client's count is list + thread + pin, and it has been freed once exactly when that is zero |
| ProtocolTheorems.NoUseAfterFree | src/server.c:252-439 | no step of any run reads or writes a freed client, unless it is a late store of the client's thread handle |
| ProtocolTheorems.FreedForGood | src/server.c:288-306 | a freed client is never freed again, listed or pinned |
| ProtocolTheorems.LocksAreOrdered | src/server.c:487-512 | a thread that holds one lock and wants another wants a later one in the order clients_mu, write_mu, ring.mu |
| ProtocolTheorems.AttachFindsWriteMuFree | src/server.c:487-495 | an attach never waits for write_mu while it holds clients_mu |
| ProtocolTheorems.ThreadGoesOn | src/server.c:410-632 | every running thread that does not wait for a held lock has a step to take with no allocation failing, no write failing on a healthy socket and no HELLO or RECONNECT turned away; a thread with one of those takes it by admitting the client |
| ProtocolTheorems.NoDeadlock | src/server.c:410-512 | whenever a lock is held, following who waits for whom ends at a thread that holds a lock and can go on with nothing going wrong |
| ProtocolTheorems.BytesAreWholeFrames | src/server.c:412-428 | in every reachable state a connection's bytes are whole frames and at most part of one more, and a receiver of any initial part has exactly an initial part of the frames |
| ProtocolTheorems.LiveClientsStandAtChunkEnds | src/server.c:416-427 | while allocations succeed: while a chunk is in hand every live client stands at one of its ends, so that the trim cuts nothing, and between chunks at the end of the history |
| ProtocolTheorems.ConnectionsAreGapFree | src/server.c:479-515 | in a good environment an attached connection is WELCOME with the window, REPLAY of the requested part, then only STDOUT frames that each start where the one before ended, and any other has only ERROR frames |
| ProtocolTheorems.GapFreeIsOneSlice | src/client.c:300-312 | gap-free frames deliver one unbroken slice of the history |
| ProtocolTheorems.IdleMeansUpToDate | src/server.c:397-439 | between chunks a live connection past its attach has been sent everything from its start to the end of the history |
| ProtocolTheorems.EndToEnd | src/client.c:1655-1695 | over any number of cuts and reconnects a client's output is history slices, each starting at the later of the previous end and the ring's base at the attach of the slice's own connection, and a running client has caught up with every attach |
| ProtocolTheorems.NothingElseIsLost | src/ring.c:125-136 | output plus skipped bytes account for everything up to where the client stands, and nothing is skipped if the ring never overtook the client |
| ProtocolFailures.BrokenForGood | src/server.c:252-260 | not one more byte or frame goes out on a socket that failed or was shut down |
| ProtocolFailures.DeadMeansBroken | src/server.c:429-434 | in every reachable state a dead client is unlisted and its socket shut down |
| ProtocolFailures.ShutdownReachesTheListed | src/server.c:252-260 | a shutdown of all clients shuts down every listed socket and does nothing else |
| ProtocolFailures.TrimSendsTheUnseen | src/server.c:416-423 | for any live sequence number, nothing is sent exactly when the chunk was seen, and otherwise exactly the part of the history that was not |
| ProtocolFailures.NobodyIsPassedOver | src/server.c:410-434 | in any environment, when a broadcast moves on from a client the client has the whole chunk or is dead |
| ProtocolFailures.OnlyFailuresKill | src/server.c:410-434 | while allocations succeed, only a client whose socket failed inside a frame is marked dead before its thread finishes |
| ProtocolFailures.NobodyIsDroppedSilently | src/server.c:573-640 | in any environment, over any run, a connection's thread finishes only after its input ended, was bad or was a shutdown request, or after it set out to send the client an ERROR |
| ProtocolRuns.SomeRunResumes | src/client.c:1655-1695 | for every output and every list of places in it there is a run in which one client is connected at each place, each time on a new connection that asks from where it stood, is admitted, attached and served, and prints exactly what it missed and the ring still held; the last connection is listed and in its input loop |
| ProtocolRuns.SomeRunResumesOnce | src/server.c:479-515 | the case of one cut, for every two pieces of output: the client prints the retained end of the first, then from the later of its end and the ring's base |
| ProtocolRuns.SomeRunServesMany | src/server.c:397-439 | for every output, chunk of up to 4096 bytes and number of clients there is a run in which all are attached at once and each prints what the ring held and then the chunk, live |
| ProtocolRuns.SomeRunServesStrangers | src/server.c:479-515 | for every output and requested sequence number, even beyond the end, there is a run in which the connection is answered with WELCOME and the part of the history from the nearest number the ring holds |
| ProtocolRuns.SomeRunRejects | src/server.c:525-552 | for every message there is a run in which a client is turned away with it in an ERROR frame, prints nothing and stops |
| ProtocolRuns.BadEnvironmentsHaveGaps | src/server.c:495-515 | when a full REPLAY does not fit a frame or allocations can fail, a concrete run makes a client print live output after WELCOME and skip retained bytes |
| ProtocolRuns.FailedSnapshotLeavesAGap | src/server.c:363-405 | a failed allocation in the list snapshot alone makes a live client's STDOUT frames skip a chunk |
| ProtocolRuns.FailedSnapshotLeavesAClientBehind | src/server.c:363-366 | a failed allocation in the list snapshot leaves a live client behind the history between chunks |
| ProtocolRuns.LiveClientsStandExactlyWhenAllocated | src/server.c:416-427 | every live client of every run stands at a chunk's end if and only if allocations cannot fail |
| ProtocolRuns.LateStoreTouchesFreed | src/server.c:709-717 | a concrete run in which the late store of a thread handle goes to a freed client |
| ProtocolRuns.StoresAreSafeExactly | src/server.c:288-717 | no step of any run touches a freed client if and only if thread handles are stored before their threads run |
| ProtocolRuns.GapFreeExactlyWhenGood | src/server.c:363-515 | every run is gap-free, and every client resumes exactly, if and only if a full REPLAY fits a frame and allocations succeed |
| ClientStream.Receiver.ProcessServerFrame | src/client.c:285-335 | with reliable descriptors it succeeds exactly on WELCOME, STDOUT and REPLAY frames, prints their data, adds it to the scrollback, advances last_seq and acknowledges; 1 only for an unreliable socket; on failure it has printed a prefix and not advanced |
| Child.PollKeeps | src/server.c:160-182 | a poll moves a request one place up the ladder or ends it |
| Child.SleepKeeps | src/server.c:172-181 | a sleep of 50 ms moves a request one place up the ladder |
| Child.SignalKeeps | src/server.c:212-221 | a signal moves a request one place up the ladder, or is skipped because the child is reaped |
| Child.FullWaitIsFull | src/server.c:160-182 | a timed-out wait is 41 polls over 2000 ms, or 21 over 1000 ms |
| Child.ReapedThenSilence | src/server.c:130-221 | over any run, once a waitpid has reported the child gone no step signals it or reaps it again |
| Child.LadderIs | src/server.c:262-286 | the ladder, act by act: 41 polls and 40 sleeps of 50 ms, HUP, 21 polls and 20 sleeps, TERM, the same again, KILL |
| Child.DoneMeansReaped | src/server.c:160-221 | a thread that is done leaves the child reaped or met a waitpid error |
| Child.SomeRunClimbsItAll | src/server.c:262-286 | any run in which the child lives and child_mu is free can go on so that a new request climbs the whole ladder and then reaps the child |
| Child.SomeRunWaits | src/server.c:668 | any such run can also go on with a final wait that reaps the child without a signal |
| Child.NobodyIsStuck | src/server.c:130-221 | in every reachable state each thread that is not done can make the call its place demands, or waits for child_mu and its holder can |
| Child.ThreadsClimbTheLadder | src/server.c:262-286 | over any run, each thread's polls, sleeps and signals are an initial part of the ladder |
| Child.SignalsReachTheChild | src/server.c:212-221 | every signal of every run goes to the server's own child exactly when the system leaves reaping to the server |
| Child.ChildFields.PollLocked | src/server.c:130-158 | the first waitpid result that is not EINTR decides child_reaped and 1, 0 or -1, and is the last one taken; none is once reaped |
| Child.ChildFields.WaitBlocking | src/server.c:184-210 | the first waitpid result that is not EINTR decides child_reaped, and is the last one taken |
| PtyInput.InputIsConserved | src/server.c:456-467 | over any run, the PTY is given one piece per hold of pty_mu; each connection's pieces are the payloads its frames asked to be written, in order, all but one it may be waiting to write, and only the last can be partial |
| PtyInput.OnlyTheEntitledAsk | src/server.c:525-616 | over any run, a connection has something written only if its first frame was admitted, or was a shutdown request with the control token |
| PtyInput.AdmitsExactly | src/server.c:525-552 | a well-formed HELLO or RECONNECT is admitted exactly when it has positive sizes and, if a token is set, that token, possibly padded with NULs |
| PtyInput.ControlsExactly | src/server.c:554-571 | a well-formed shutdown request is obeyed exactly when a control token is set and the request carries it, possibly padded with NULs |
| PtyInput.SomeRunTypes | src/server.c:583-632 | any run in which nobody writes can go on with a new client that is admitted and sends any list of keys, sizes and acknowledgements, so that the PTY is given exactly its keys and the connection stays open, or ends there |
| PtyInput.SomeRunShutsDown | src/server.c:554-571 | any such run can go on with a shutdown request that carries the control token and has its input written |
| PtyInput.NobodyIsStuck | src/server.c:456-467 | in every reachable state each connection's thread has a step to take, or is done, or waits for pty_mu and its holder has one |
| PtyInput.WritersKnowTheSecret | src/server.c:525-571 | with a secret set, every writer's first frame carried it |
| SessionCodec.DecodeInvertsEscape | src/client.c:680-798 | the lenient decoder undoes the escaper, whose output has no line break or tab and is at most twice as long |
| SessionCodec.EscapesAre | src/client.c:680-729 | line feed, carriage return, tab and backslash are escaped, each as a backslash and its letter, wherever they are, and nothing else is |
| SessionCodec.GracefulInputIsExit | src/client.c:1460-1506 | the default graceful_input decodes to the line `/exit` |
| SessionCodec.EscapeIsInjective | src/client.c:680-729 | no two arguments have the same escaped form |
| SessionCodec.EscapeReachesAllForms | src/client.c:680-729 | the escaped forms are exactly the well-escaped strings without raw line breaks and tabs |
| SessionCodec.TwoDecodersAgree | src/client.c:1460-1506 | the strict decoder accepts exactly the well-escaped values that fit, and then agrees with the lenient one |
| SessionCodec.StrictInvertsEscape | src/client.c:1460-1506 | the strict decoder undoes the escaper when there is room and says so when not |
| SessionCodec.EscapeValue | src/client.c:680-729 | the loop fills its 2n + 1 buffer with the escaped form and a NUL, in bounds |
| SessionCodec.DecodeValue | src/client.c:752-798 | the loop fills its n + 1 buffer with the decoded form and a NUL, in bounds |
| SessionCodec.DecodeGracefulInput | src/client.c:1460-1506 | the loop gives the decoded bytes or the first of the two errors, never beyond the buffer |
| SessionRecord.ParseInvertsDigits | src/client.c:1223-1240 | strtoul undoes decimal printing |
| SessionRecord.ParseForms | src/client.c:1329-1340 | white space and a plus sign change nothing, and a minus sign negates modulo 2^64 |
| SessionRecord.LinesThatDoNotMatter | src/client.c:1258-1275 | what follows a NUL in a line, and a line without an equals sign, are ignored |
| SessionRecord.WriteFile | src/client.c:870-973 | the text is the printed field list, after the name, token and argument count checks |
| SessionRecord.WritesExactly | src/client.c:870-895 | writing succeeds exactly for a well-formed name of at most 96 characters, a token of 1 to 255 and at most 128 arguments |
| SessionRecord.KeysAre | src/client.c:1262-1345 | which keys the reader knows |
| SessionRecord.ArgvKeyOf | src/client.c:1223-1240 | argv0 to argv127 are arguments and a higher number is an error |
| SessionRecord.ChompLine | src/client.c:639-646 | the loop strips all trailing line breaks and carriage returns |
| SessionRecord.ReadFile | src/client.c:1242-1380 | the reading loop computes what `ReadsAnyFile` and `ReadIsSound` are about |
| SessionRecord.ReadsAnyFile | src/client.c:1190-1380 | for any file of one-line fields: it is read exactly when each field is acceptable, the port is not empty and no argument below argc is missing, and each value is the last one given, or the default |
| SessionRecord.ReadsOldFile | src/client.c:1190-1380 | a file without argument, token and encoding lines is read with no arguments and the defaults |
| SessionRecord.LinesOfRender | src/client.c:921-947 | getline gives back exactly the lines printed |
| SessionRecord.ReadsWhatWasWritten | src/client.c:1242-1380 | without line breaks in unescaped strings, reading succeeds exactly when the values fit once trailing carriage returns are gone, and gives those values and exactly the arguments |
| SessionRecord.ReadIsSound | src/client.c:1201-1209 | whatever the file, the strings handed out are single lines that fit their buffers |
| SessionRecord.RoundTripExactly | src/client.c:870-1380 | reading gives back the session as it was if and only if its unescaped strings are single lines without trailing carriage return that fit |
| SessionRecord.LineBreakDropsArguments | src/client.c:945-947 | a working directory whose name ends in a line `argc=0` makes any session read back with no arguments |

## Left out

* Sockets, `poll`, address lookup, listeners, `fork`, `exec`, `openpty`, terminal modes: system calls, replaced by oracles or steps.
* Command lines, usage texts, session listing, liveness probes, port picking, retry delays, token generation, path building: no invariant beyond the single function.
* opty_ring_destroy, opty_frame_free, and the clean-up paths of the server's start: nothing runs concurrently with them.
* Failures of `pthread_mutex_lock` and `pthread_mutex_init`, which the code reports or skips.
* That a shutdown ends: the PTY thread's blocking wait holds child_mu, so a request can wait for it without limit; only the safety claims are proved.
* Atomicity of replacing a session file (rename, fsync, permissions).
* The second reader of host and port alone (src/client.c:800-868), used when the first one fails: the same loop with two of its fields.
* Timing of the token comparison; only its result is proved.
* Characters of session files are Dafny characters, not bytes; no operation of that module depends on their width.
* Out-parameters that a failing parser may already have written (src/protocol.c:434-510): a parser here returns all or nothing.
* RESIZE frames and the PTY's window size, apart from ending a connection when they are malformed.
* The scrollback log a client can keep, apart from the failure of a write to it.
* Reconnecting to another server instance whose sequence numbers started again.
