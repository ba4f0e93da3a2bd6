# A verified model of the kcp-proxy core

kcp-proxy carries SOCKS5 streams through an AEAD-protected KCP channel. This
project models, in Dafny, the state the proxy keeps around the KCP and OpenSSL
libraries, and proves what that state guarantees over every run: over networks
that reorder, duplicate, drop and forge, over racing teardowns, arbitrary
fragmentation and arbitrary sample sequences.

Most components come in two layers. A value layer defines the states, one
function per handler and the runs, and holds the theorems about all runs. A
class layer has the fields the C++ object has, updates them in place, and each
method is proved to perform exactly its step of the value layer, so the theorems
hold of the objects. One strand handler, or one critical section under the
session lock, is one step; steps interleave freely.

| file | what it models |
|---|---|
| `Bytes.dfy` | bytes, big-endian integers, concatenation |
| `ReplayWindow.dfy` | the 2048-bit replay bitmap, the scheme of section 3.4.3 of RFC 4303 |
| `Crypto.dfy` | wire format, nonce counter, salt learning and roll-back, encrypt and decrypt control flow |
| `SecureChannel.dfy` | a client and a server endpoint over a hostile network with an ideal AEAD |
| `SaltTombstones.dfy` | the map and deque of recently accepted salts |
| `AuthThrottle.dfy` | the per-second decrypt budget and the per-address failure limit |
| `SessionTable.dfy`, `SessionServer.dfy` | admission, replacement, close, sweep, connect completion, stop |
| `Tuning.dfy` | KCP tuning and the watermarks derived from it |
| `ReadPath.dfy`, `Tunnel.dfy` | control messages and the pending-read protocol |
| `TunnelSession.dfy`, `KcpSession.dfy` | send window, park and resume, FIN, tick and drain |
| `StateFlags.dfy` | the packed flag byte of a session |
| `Dispatcher.dfy` | the flag-driven dispatcher from HELLO to forwarding, as a control machine |
| `DispatchedReads.dfy`, `SessionDispatcher.dfy` | the dispatcher running on the session object: numbered reads as a queue of handlers, and every handler |
| `CleanPath.dfy`, `AdaptivePolicy.dfy` | the clean-path hysteresis tracker and its two controllers |
| `Socks5.dfy` | the streaming codec of sections 4 and 6 of RFC 1928 |

## What was found

Five properties one might expect do not hold of the code as they stand. Each has
a lemma with a concrete input and a lemma with the condition under which the
property does hold.

- A duplicate-salt refusal leaves every live session registered if and only if
  the salt is still remembered or the session is at another endpoint
  (`DuplicateRefusalExactly`, `DuplicateRefusalCanEvict`).
- The drained callback runs only after everything queued was acknowledged, but
  the negotiated FIN is among it if and only if that tick's own flush did not
  stop the session with the FIN still owed (`DrainedMeansDelivered`,
  `DrainCanLoseFin`).
- A retransmit counter that rises is heeded if and only if the clock moved since
  the previous sample or the path was already protected that long
  (`LossHeededExactly`, `SwallowedLoss`).
- The successful encryptions of a run use strictly increasing counters from the
  salt-derived start up if and only if at most 2^64 - start encrypt calls are
  made, and two of them share a nonce if and only if they are a multiple of 2^64
  calls apart (`CountersFreshExactly`, `NonceReuseExactly`, `OneCallTooMany`,
  `NonceCanRepeat`).
- What reaches the target is always a prefix of what followed, in the client's
  stream, the one request that was acted on (`TargetGetsWhatFollowed`). That
  request is the first the client sent if and only if the session was never
  orphaned (`TargetGetsPrefix`), that is, if and only if no handler gave up on a
  request while the session was running but no longer in the table
  (`OrphanedExactly`). This never happens to a session the table holds, nor in a
  run in which no other strand takes the session out of it, by a replacing
  commit, the sweep, the stale reclaim or the server's stop
  (`RegisteredGetsPrefix`, `NeverTakenOutNeverOrphaned`); `GaveUpCanWriteElsewhere`
  is a run in which it does.

## Model

| member | source | states |
|---|---|---|
| `Replay.AcceptableByHighest` | src/kcp_proxy/crypto.cpp:313-328 | deciding by the greatest committed counter alone is the same as the abstract rule: new maximum, or unseen and at most 2048 behind |
| `Replay.ShiftLeft` | src/kcp_proxy/crypto.cpp:354-360 | the in-place bitmap shift moves every bit by exactly the distance and clears the rest |
| `Replay.ReplayWindow.Check` | src/kcp_proxy/crypto.cpp:313-328 | the bitmap answers as the set of all committed counters would, including a distance of exactly 2048 |
| `Replay.ReplayWindow.Commit` | src/kcp_proxy/crypto.cpp:333-370 | any commit, in or out of order or far ahead, adds that counter to the set and nothing else, and keeps the bitmap an exact summary |
| `Replay.ReplayWindow.Reset` | src/kcp_proxy/crypto.cpp:242-270 | roll-back leaves the window of a fresh endpoint |
| `Endpoints.NonceRoundTrip` | src/kcp_proxy/crypto.cpp:294-302 | counter and direction are recovered from the 12-byte nonce |
| `Endpoints.NonceInjective` | src/kcp_proxy/crypto.cpp:294-302 | a nonce determines counter and direction, so the two directions never share one |
| `Endpoints.StartCounterBound` | src/kcp_proxy/crypto.cpp:168-240 | every salt starts the counter below the 2^48 limit |
| `Endpoints.WireFields` | src/kcp_proxy/crypto.cpp:410-481 | the receiver's slices of a sealed datagram give back salt, nonce, body, counter and direction |
| `Endpoints.SaltIsPermanent` | src/kcp_proxy/crypto.cpp:508-564 | over any sequence of calls a set salt never changes, accepted counters are never forgotten, and the nonce counter counts the encrypt calls |
| `Endpoints.SpentEndpointIsDead` | src/kcp_proxy/crypto.cpp:242-270 | without salt and key no sequence of calls ever succeeds or changes anything |
| `Endpoints.FailedFirstDatagramIsFatal` | src/kcp_proxy/crypto.cpp:619-628 | a full-length first datagram that fails authentication leaves an instance that can never encrypt or decrypt again |
| `Endpoints.NonceReuseExactly` | src/kcp_proxy/crypto.cpp:410-426 | two successful encrypts of any run carry the same nonce exactly when they are a multiple of 2^64 encrypt calls apart |
| `Endpoints.CountersFreshExactly` | src/kcp_proxy/crypto.cpp:410-426 | the successful encrypts of any run, decrypts in between, use strictly increasing counters in [start, 2^48) exactly if at most 2^64 - start encrypt calls are made |
| `Endpoints.OneCallTooMany` | src/kcp_proxy/crypto.cpp:410-426 | the run of 2^64 - start + 1 encrypt calls breaks that order |
| `Endpoints.NonceCanRepeat` | src/kcp_proxy/crypto.cpp:410-426 | the run of 2^64 + 1 encrypt calls seals twice under one nonce |
| `SecureEndpoint.GenerateNonce` | src/kcp_proxy/crypto.cpp:294-302 | the byte loop produces the big-endian nonce format |
| `SecureEndpoint.ReadBigEndian` | src/kcp_proxy/crypto.cpp:538-541 | the shift loop computes the big-endian value of its bytes |
| `SecureEndpoint.Crypto.DeriveSessionKeys` | src/kcp_proxy/crypto.cpp:168-240 | the salt is taken, with its start counter, exactly for a 16-byte salt and an unspent key, else nothing changes |
| `SecureEndpoint.Crypto.ForgetLearnedSalt` | src/kcp_proxy/crypto.cpp:242-270 | a learned salt, its window and its counter are all undone together |
| `SecureEndpoint.Crypto.EncryptInto` | src/kcp_proxy/crypto.cpp:410-481 | which of the three results each state gives, the wire bytes on success, and that a call past the limit still consumes a counter |
| `SecureEndpoint.Crypto.DecryptInto` | src/kcp_proxy/crypto.cpp:483-645 | the order of checks, roll-back and commit accepts exactly what the abstract acceptance rule accepts and changes state exactly then, first-packet bypass included |
| `SecureEndpoint.Create` | src/kcp_proxy/crypto.cpp:144-158 | construction succeeds exactly without a salt or with a well-sized one and a key |
| `SecureChannel.RunKeeps` | src/kcp_proxy/crypto.cpp:483-631 | in every run both endpoints agree with the log of what was really sealed and with what was delivered |
| `SecureChannel.DeliveredOnceAndAuthentic` | src/kcp_proxy/crypto.cpp:483-631 | over any network each side delivers every datagram at most once and nothing its peer did not seal |
| `SecureChannel.RefusalsAreInert` | src/kcp_proxy/crypto.cpp:508-580 | two runs: taking every datagram that a salt-holding endpoint refuses out of a run, wherever it comes, leads to the same channel |
| `SecureChannel.GenuineIsAccepted` | src/kcp_proxy/crypto.cpp:573-631 | in every reachable state a genuine undelivered datagram at most 2048 behind is accepted with its own plaintext, in both directions |
| `SecureChannel.FirstGenuineIsAccepted` | src/kcp_proxy/crypto.cpp:508-536 | a server that still has its key and no salt accepts any datagram this client sealed, whichever comes first, and is on the client's salt from then on |
| `SecureChannel.SentCountersInOrder` | src/kcp_proxy/crypto.cpp:410-426 | in every run the datagrams of each direction carry strictly increasing counters while at most 2^64 - start calls were made, and different ones while at most 2^64 were |
| `SaltTombstones.LookupAgrees` | src/kcp_proxy/server.cpp:942-948 | the map lookup blocks exactly the salts among the last MAX_SALT_TOMBSTONES acceptances whose TTL has not run out |
| `SaltTombstones.AllUnexpired` | src/kcp_proxy/server.cpp:569-586 | an unexpired queue front means nothing in the map has expired |
| `SaltTombstones.Tombstones.IsBlocked` | src/kcp_proxy/server.cpp:942-948 | the lookup agrees with the plain acceptance log |
| `SaltTombstones.Tombstones.Prune` | src/kcp_proxy/server.cpp:569-586 | removes exactly the expired entries, keeps deque and map the same set, and changes no verdict |
| `SaltTombstones.Tombstones.Evict` | src/kcp_proxy/server.cpp:588-601 | making room discards only entries that can block nothing once the next acceptance is logged |
| `SaltTombstones.Tombstones.Remember` | src/kcp_proxy/server.cpp:588-607 | appends one acceptance to the log and keeps the refinement |
| `AuthThrottle.Throttle.Attempt` | src/kcp_proxy/server.cpp:746-800 | which datagrams are decrypted, in terms of the log of paid decrypts, and that only those enter the log |
| `AuthThrottle.Throttle.Charge` | src/kcp_proxy/server.cpp:774-800 | the failure table stays the tally of the log, and its sum at most the attempts |
| `AuthThrottle.Throttle.CountFailure` | src/kcp_proxy/server.cpp:790-800 | every failure is counted: the table never reaches its cap, so the fallback is unreachable |
| `AuthThrottle.SizeAtMostSum` | src/kcp_proxy/server.cpp:790-800 | a table of positive counts has at most as many addresses as failures |
| `AuthThrottle.FailuresPerAddress` | src/kcp_proxy/server.cpp:755-778 | no address is ever charged more than 20 failed decrypts in one window, whoever else sends |
| `AuthThrottle.AttemptsPerWindow` | src/kcp_proxy/server.cpp:746-778 | at most 5000 decrypts per window, and windows start at least a second apart |
| `AuthThrottle.DecryptsPerSpan` | src/kcp_proxy/server.cpp:746-778 | any span of T seconds pays for at most 5000 * (floor(T) + 2) decrypts |
| `SessionTable.ReachableStates` | src/kcp_proxy/server.cpp:843-1000 | every reachable table has at most MAX_CONCURRENT_SESSIONS entries, sockets only of the session registered under their key, no two live sessions with one salt, and every dropped session told to stop |
| `SessionTable.StoppedForGood` | src/kcp_proxy/server.cpp:199-264 | after stop both maps are empty and stay empty whatever arrives |
| `SessionTable.DepartureExactly` | src/kcp_proxy/server.cpp:852-896 | one step removes a live session exactly by its own teardown, a stall reap, an authenticated different-salt datagram at its endpoint, or stop, and only its own connect changes its target |
| `SessionTable.StaysRegistered` | src/kcp_proxy/server.cpp:671-708 | over any run without those causes it stays registered, with the same target unless its own connect completed, whatever is forged or arrives late from replaced sessions |
| `SessionTable.CapAndReplayRefusalsAreHarmless` | src/kcp_proxy/server.cpp:858-948 | refusing for the cap or a remembered salt removes no live session |
| `SessionTable.DuplicateRefusalExactly` | src/kcp_proxy/server.cpp:858-930 | a duplicate-salt refusal spares a live session exactly if it is at another endpoint or the salt is still remembered |
| `SessionTable.DuplicateRefusalCanEvict` | src/kcp_proxy/server.cpp:858-930 | a reachable state, with the other session's handshake finished and the sweep run every 30 seconds, in which the refusal comes after the incumbent was thrown out |
| `SessionServer.KCPServer.PreAuthCheck` | src/kcp_proxy/server.cpp:655-727 | the unauthenticated half drops a dead entry and nothing else, and its verdict |
| `SessionServer.KCPServer.RouteDatagram` | src/kcp_proxy/server.cpp:671-708 | routes to the live session and refreshes it only for an authentic datagram |
| `SessionServer.KCPServer.FindDuplicate` | src/kcp_proxy/server.cpp:915-930 | the scan finds a live session elsewhere with this salt exactly when there is one |
| `SessionServer.KCPServer.CommitAuthenticated` | src/kcp_proxy/server.cpp:843-1000 | the whole critical section with map, tombstones and clock does the commit step of the table, outcome included |
| `SessionServer.KCPServer.EvictIncumbent` | src/kcp_proxy/server.cpp:858-896 | the incumbent makes way unless it is live and the incoming salt is remembered |
| `SessionServer.KCPServer.CloseConnection` | src/kcp_proxy/server.cpp:1892-1950 | tears down the caller's session only while it is still the registered one |
| `SessionServer.KCPServer.StartForwarding` | src/kcp_proxy/server.cpp:1471-1488 | a socket is stored exactly if the session still owns its key |
| `SessionServer.KCPServer.FindReaped` | src/kcp_proxy/server.cpp:2041-2083 | the sweep's loop collects exactly the idle and the stalled sessions |
| `SessionServer.KCPServer.DoCleanup` | src/kcp_proxy/server.cpp:2041-2098 | removes exactly those, with their sockets, and stops them |
| `SessionServer.KCPServer.Stop` | src/kcp_proxy/server.cpp:199-264 | empties both maps and stops every session that was in them |
| `Tuning.SegmentsBound` | src/kcp_proxy/config.hpp:307-310 | a message of any length up to a forward buffer needs at most the computed segments, at most 30 for every legal tuning |
| `Tuning.WatermarksOrdered` | src/kcp_proxy/config.hpp:307-316 | for every legal tuning 0 < resume < threshold and threshold plus one message is the window less 8 |
| `Tuning.TuningStore.SetKcpTuning` | src/kcp_proxy/config.hpp:353-358 | any integers at all leave those relations true, and legal values are kept as given |
| `ReadPath.ControlIsExact` | src/kcp_proxy/kcp_tunnel.cpp:668-676 | a message is recognised as control exactly if it is the bytes the builder makes with this salt |
| `ReadPath.FetchShape` | src/kcp_proxy/kcp_tunnel.cpp:519-615 | one fulfilment consumes keepalives and at most one further message, which decides the answer |
| `ReadPath.StripAppend` | src/kcp_proxy/kcp_tunnel.cpp:553-565 | removing keepalives commutes with splitting the stream |
| `Tunnel.FulfillKeeps` | src/kcp_proxy/kcp_tunnel.cpp:519-615 | fulfilment keeps the books of reads and the correspondence of answers with consumed messages |
| `Tunnel.ReadKeeps` | src/kcp_proxy/kcp_tunnel.cpp:468-500 | so does a new read, whether it is refused, aborted, answered at once or left pending |
| `Tunnel.AbortKeeps` | src/kcp_proxy/kcp_tunnel.cpp:502-517 | so does a teardown, after which nothing is pending |
| `TunnelSession.TuningIsSound` | src/kcp_proxy/config.hpp:307-316 | every legal tuning gives the window relations the session theorems assume, for every size of TCP read |
| `TunnelSession.RunKeeps` | src/kcp_proxy/kcp_session.cpp:206-271 | the whole session invariant holds in every state of every run |
| `TunnelSession.EveryReadAnsweredOnce` | src/kcp_proxy/kcp_tunnel.cpp:468-517 | in every run each read has exactly one completion or is the one pending, and none is pending after a stop |
| `TunnelSession.ReadersSeeTheStream` | src/kcp_proxy/kcp_tunnel.cpp:519-615 | readers are told the consumed messages without keepalives, one by one and in order: verbatim exactly if it is data that fits, end of stream exactly for the FIN, too big exactly otherwise; and peer-FIN is recorded exactly if a reader was told end of stream |
| `TunnelSession.DataNeverFillsWindow` | src/kcp_proxy/server.cpp:1638-1688 | unacknowledged data never exceeds sndwnd - 9, and a refusal of the loop's data takes at least a message plus 9 control segments in flight |
| `TunnelSession.WakeupAdmitsFour` | src/kcp_proxy/kcp_tunnel.cpp:364-379 | a resumed loop admits four messages of any size before re-parking, and four is exact |
| `TunnelSession.BurstQueues` | src/kcp_proxy/client.cpp:1017-1095 | below the high watermark a burst of any length is queued whole and the loop goes on reading |
| `TunnelSession.NoParkedLoopIsForgotten` | src/kcp_proxy/kcp_tunnel.cpp:364-379 | after a tick and after a datagram no loop stays parked at or below the resume mark |
| `TunnelSession.OneFinOneDrain` | src/kcp_proxy/kcp_tunnel.cpp:306-346 | in every run at most one FIN, only if negotiated, and at most one drained callback; one that finds its session in the table leaves it stopped for good with everything acknowledged |
| `TunnelSession.ClosingTick` | src/kcp_proxy/kcp_session.cpp:206-263 | a tick of a closing session queues nothing but an owed FIN, and that exactly when window and session allow |
| `TunnelSession.DrainedMeansDelivered` | src/kcp_proxy/kcp_session.cpp:206-263 | the drained callback runs with every segment acknowledged, and with the negotiated FIN delivered exactly unless this tick's flush stopped the session first; it stops the session exactly if the table holds it |
| `TunnelSession.DrainCanLoseFin` | src/kcp_proxy/kcp_session.cpp:206-263 | for every window a run whose drain closes without the FIN: target data parks the loop, keepalives fill the window, the FIN is refused, and the flush after the last ACK fails |
| `KcpSession.KCPSession.CompletePendingRead` | src/kcp_proxy/kcp_tunnel.cpp:502-517 | answers the pending read if there is one and clears it |
| `KcpSession.KCPSession.TryFulfillRead` | src/kcp_proxy/kcp_tunnel.cpp:519-615 | the consuming loop does one fulfilment of the read protocol |
| `KcpSession.KCPSession.OnAsyncReadSome` | src/kcp_proxy/kcp_tunnel.cpp:468-500 | a read is aborted, rejected, answered or left pending as the protocol says |
| `StateFlags.FlagsAreIndependent` | src/kcp_proxy/kcp_session.hpp:52-94 | setting or clearing one flag of the packed byte leaves every other as it was |
| `StateFlags.StopMasks` | src/kcp_proxy/kcp_session.cpp:51-70 | the two masks of stop clear running and the three pending flags and keep the handshake flag |
| `KcpSession.KCPSession.ClearRunning` | src/kcp_proxy/kcp_session.cpp:51-70 | of any number of stops only the first finds the running bit set |
| `KcpSession.KCPSession.TrySetForwardReadPending` | src/kcp_proxy/kcp_session.hpp:90-94 | of any number of claims only the one that finds the bit clear gets the loop, and the bit is set either way |
| `KcpSession.KCPSession.Halt` | src/kcp_proxy/kcp_session.cpp:51-86 | stops once: unparks the loop, clears the pending flags and aborts the pending read |
| `KcpSession.KCPSession.SendFinNow` | src/kcp_proxy/kcp_tunnel.cpp:325-346 | the once-only budget is spent only when the FIN is queued |
| `KcpSession.KCPSession.TcpReadCompleted` | src/kcp_proxy/server.cpp:1579-1689 | send and re-arm keep the window invariant |
| `KcpSession.KCPSession.OnReceive` | src/kcp_proxy/kcp_session.cpp:107-165 | feeds messages and ACKs, then fulfils the read and resumes the loop |
| `KcpSession.KCPSession.HandleTargetClosed` | src/kcp_proxy/server.cpp:1858-1890 | marks the close once, drops the parked loop and asks for the FIN |
| `KcpSession.KCPSession.OnUpdateTick` | src/kcp_proxy/kcp_session.cpp:206-271 | flush, read, resume, keepalive, FIN retry and drain check, in that order, with the answer of the table lookup deciding the close |
| `KcpSession.KCPSession.TickReader` | src/kcp_proxy/kcp_session.cpp:206-271 | to the owner of the reads a tick is a fulfilment, with at most a stop before or after it |
| `Dispatcher.OneOfEach` | src/kcp_proxy/server.cpp:1047-1097 | in every run at most one read is outstanding, so already_started never happens, at most one CONNECT is acted on, and at most one write is outstanding on the target, initial payload included |
| `Dispatcher.RunKeeps` | src/kcp_proxy/server.cpp:1691-1856 | in every run the active reader owns all request bytes so far, what was written is what followed the request, and the handlers ran on the client's messages in order |
| `Dispatcher.ReadMoreBytes` | src/kcp_proxy/server.cpp:1231-1271 | the connect is started with exactly the bytes that followed the request, however it was fragmented |
| `Dispatcher.TargetGetsWhatFollowed` | src/kcp_proxy/server.cpp:1099-1271 | in every run, with no condition, the bytes handed to the target are a prefix of what followed, in the client's own stream, the CONNECT request that was acted on |
| `Dispatcher.TargetGetsPrefix` | src/kcp_proxy/server.cpp:1099-1271 | that request is the client's first, right after any HELLO, if and only if the session was never orphaned; then the bytes are a prefix of what followed the request in all the client sent |
| `Dispatcher.OrphanedExactly` | src/kcp_proxy/server.cpp:1900-1921 | over a run a session is orphaned if and only if some handler gave up on a handshake or request while the session was running and not in the table, and its reply did not stop it |
| `Dispatcher.TargetGetsEverything` | src/kcp_proxy/server.cpp:1691-1856 | and nothing is missing once the loop has caught up |
| `Dispatcher.RegisteredGetsPrefix` | src/kcp_proxy/server.cpp:1756-1762 | the prefix law holds without condition for a session the table still holds |
| `Dispatcher.NeverTakenOutNeverOrphaned` | src/kcp_proxy/server.cpp:1900-1921 | in a run in which no other strand takes the session out of the table, a session that gives up is stopped by it |
| `Dispatcher.GaveUpCanWriteElsewhere` | src/kcp_proxy/server.cpp:2084-2115 | a run of a session taken out of the table that breaks the first-request law, its queued stop included |
| `DispatchedReads.FulfillCorresponds` | src/kcp_proxy/kcp_tunnel.cpp:519-615 | try_fulfill_read on numbered reads and completions is the fulfilment of the dispatcher's queue of handlers |
| `DispatchedReads.ReadCorresponds` | src/kcp_proxy/kcp_tunnel.cpp:468-500 | so is async_read_some, whether it is aborted, rejected, answered at once or left pending |
| `DispatchedReads.AbortCorresponds` | src/kcp_proxy/kcp_tunnel.cpp:502-517 | so is the abort of stop |
| `DispatchedReads.RunCorresponds` | src/kcp_proxy/kcp_tunnel.cpp:602-613 | and the completion run next is the handler at the head of the queue |
| `SessionDispatcher.ServerSession.DatagramArrived` | src/kcp_proxy/server.cpp:1047-1097 | on the session object, flag byte, numbered reads and all, a datagram is one step of the control machine and keeps its one-reader, one-connect, one-write invariant and the link to the tcp to kcp loop |
| `SessionDispatcher.ServerSession.RunNextPosted` | src/kcp_proxy/server.cpp:1099-1271 | so is running the oldest due completion, whichever handler it belongs to and whether or not its reply stops the session |
| `SessionDispatcher.ServerSession.ConnectSucceeded` | src/kcp_proxy/server.cpp:1453-1547 | so is a completed connect, which starts forwarding at most once and only after the initial payload |
| `SessionDispatcher.ServerSession.ConnectRefused` | src/kcp_proxy/server.cpp:1417-1427 | so is a failed one |
| `SessionDispatcher.ServerSession.InitialWriteCompleted` | src/kcp_proxy/server.cpp:1529-1546 | so is the end of the initial write |
| `SessionDispatcher.ServerSession.ForwardWriteCompleted` | src/kcp_proxy/server.cpp:1828-1856 | so is the end of a forward write, with a stop after it if the half-close lost the session |
| `SessionDispatcher.ServerSession.TargetEnded` | src/kcp_proxy/server.cpp:1858-1890 | so is the target's end seen by the tcp to kcp loop |
| `SessionDispatcher.ServerSession.ForwardKcpToTcp` | src/kcp_proxy/server.cpp:1691-1772 | taking the claim first and giving it back on each failed start has the same effect as starting only when everything allows it |
| `SessionDispatcher.ServerSession.Ticked` | src/kcp_proxy/kcp_session.cpp:206-271 | a tick of the session object is, to the control machine, a fulfilment, a stop, or a close by the drained callback, and keeps the invariant |
| `CleanPath.CleanPathTracker.OnSample` | src/kcp_proxy/clean_path.hpp:66-121 | the in-place update equals the fold over all samples so far, and the reported transition is the change of state |
| `CleanPath.MonotoneInTuning` | src/kcp_proxy/clean_path.hpp:66-121 | on the same samples the tracker with the easier tuning is clean whenever the other is |
| `CleanPath.CheapStateIsLate` | src/kcp_proxy/clean_path.hpp:87-120 | entering the clean state comes at least max(hold, clean) and at least hold + clean - P after every loss |
| `CleanPath.LossHeededExactly` | src/kcp_proxy/clean_path.hpp:79-101 | a risen retransmit counter takes effect exactly when the clock moved since the previous sample, or the path was already protected that long |
| `CleanPath.SwallowedLoss` | src/kcp_proxy/clean_path.hpp:79-101 | four samples whose loss is not heeded |
| `CleanPath.TransitionsAlternate` | src/kcp_proxy/clean_path.hpp:87-120 | downgrades and upgrades alternate for any counters and clock |
| `CleanPath.DowngradeRate` | src/kcp_proxy/clean_path.hpp:87-120 | a run of length L has at most 1 + L / hold downgrades |
| `AdaptivePolicy.FecParityController.OnSample` | src/kcp_proxy/fec_parity.hpp:58-70 | the parity gate is always the negated tracker state, and the transition says when it moved |
| `AdaptivePolicy.RtoFloorController.OnSample` | src/kcp_proxy/rto_floor.hpp:59-71 | the same for the RTO floor gate |
| `AdaptivePolicy.SampleBoth` | src/kcp_proxy/config.hpp:429-469 | with the default tunings parity is off only while the RTO floor is relaxed |
| `Socks5.EncodeAddress` | src/kcp_proxy/address.cpp:68-104 | the appending loop writes the address field of the RFC, and refuses exactly a domain over 255 bytes |
| `Socks5.BuildResponse` | src/kcp_proxy/socks5.cpp:8-28 | a reply is the RFC message, with the zero address when no host is given |
| `Socks5.ParseBuilt` | src/kcp_proxy/socks5.cpp:30-170 | parsing a built message followed by any tail gives the same fields and exactly that tail |
| `Socks5.CompleteIsBuilt` | src/kcp_proxy/socks5.cpp:30-170 | and whatever parses is a built message followed by its payload |
| `Socks5.VerdictIsStable` | src/kcp_proxy/socks5.cpp:30-107 | a verdict survives appended bytes, which only extend the payload |
| `Socks5.NeverInvalidLate` | src/kcp_proxy/socks5.cpp:30-107 | a refusal is due to the first five bytes |
| `Socks5.NeedMoreIsPrefix` | src/kcp_proxy/socks5.cpp:30-107 | asking for more happens only on strict prefixes of an input with a verdict |
| `Socks5.Accumulate` | src/kcp_proxy/client.cpp:820-874 | the accumulating loop stops at the first fragment with a verdict or an overflow and gives the verdict of the bytes received |
| `Socks5.VerdictOnStream` | src/kcp_proxy/server.cpp:1231-1271 | an accumulation that does not overflow decides as the parser does on the whole stream, and its leftover and unread chunks are the stream's payload |
| `Socks5.FragmentationIsIrrelevant` | src/kcp_proxy/server.cpp:1231-1271 | however the same bytes are cut into chunks, two accumulations that do not overflow agree on verdict and fields, and on leftover followed by unread chunks |
| `Bytes.BigEndianRoundTrip` | src/kcp_proxy/crypto.cpp:294-302 | encoding to bytes and back is the identity below the width |

## Left out

- OpenSSL, HKDF and AES-GCM internals, key wiping, and the returns for OpenSSL faults: the cipher is an ideal AEAD whose only failure is a tag mismatch.
- The KCP library, forward error correction and its repair: KCP is an ordered message queue plus a count of unacknowledged segments that ACKs reduce.
- Sockets, timers, strands, batching, receive slots and backoff: a strand handler is one step, clocks and I/O results are parameters, and a flush or reply that fails is a parameter too.
- Overflow of the 64-bit microsecond clocks and counters of samples.
- Text conversion of IP addresses; a host is its wire bytes.
- apply_rto_floor, the allowlist and restricted-target checks, LogThrottle, BufferPool and FEC-string parsing: tables and counters without shared state.
- Logging, command line, GUI, packaging and test hooks.
- The client's half-close guard and its connection bookkeeping; its reply accumulation and its park and resume loop are the same code shapes as the server's and covered by the members cited for client.cpp.
- close_connection without an owner, and the branch of the tcp to kcp loop that finds the socket already closed.
- Random salts: that no payload equals a control message is not claimed, only that recognition is exact.
- SessionDispatcher.ServerSession: the maps sessions_ and connections_ appear as two booleans about this session; the maps themselves are in SessionServer.
- The tcp to kcp loop of KcpSession leaves out the close_connection of a session found stopped, which changes only the table.
- TunnelSession.OneFinOneDrain: a drained callback whose session is no longer in the table does not stop it; the stop queued by whoever took it out does, and is a separate step.
- DowngradeRate: states the bound multiplied out, (downgrades - 1) * hold <= L.
- CleanPath.CleanPathTracker.OnSample: compares rates over reals by cross-multiplication, without the rounding of double.
