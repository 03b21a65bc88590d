# Voice pipeline verification

A model, in Dafny, of the stateful cores of DadLink (an encrypted push-to-talk system: a C++ client
and a Rust server) and proofs of what they promise over whole runs. `dafny verify dfyconfig.toml`
checks everything.

| file | models |
|---|---|
| `EndToEnd.dfy` | the whole voice path as one system of clients, network, server tasks and listeners |
| `Delivery.dfy` | when a packet on that path reaches a listener |
| `VoiceKeys.dfy` | that path joined with every user's key exchange |
| `Restarts.dfy`, `StaleFrames.dfy`, `Replays.dfy` | what a sender's restart does to its sequence numbers |
| `VoicePath.dfy` | the client's transmit, receive and playback handlers, the server's receive loop and forwarding task, the buffer pool |
| `Addresses.dfy` | the UDP addresses the server learns, and where it sends |
| `RingBuffer.dfy`, `SpscProtocol.dfy` | the lock-free ring: the in-place class, and its two threads as interleaved atomic steps |
| `JitterBuffer.dfy` | ordered playout, loss signalling, eviction |
| `VoicePacket.dfy` | the 28-byte header, in both codecs |
| `Srtp.dfy` | nonce derivation, and the two-second dual-key window on both sides |
| `KeyAgreement.dfy`, `KeyHandlers.dfy` | the key exchange as a two-party protocol over FIFO channels, and the handlers that run it |
| `TokenBucket.dfy`, `AuthLimiter.dfy` | the three token buckets and the sliding-window failure counter |
| `SessionCache.dfy` | the revocation cache against the session table |
| `Managers.dfy`, `Membership.dfy` | the two indexes of channel membership and the handlers that update both |
| `Mixer.dfy`, `PilotFilter.dfy` | the ducking mixer and the receive-path filter |
| `Bits.dfy`, `Option.dfy`, `Runs.dfy` | fixed-width integers, bitwise operators, optional results, runs of a step function |

## How it is modelled

- Every operation has a specification function on values. Where the source updates in place there is
  also a class or an array method, with the source's branches and loops, proved equal to that function.
  Protocols and concurrency are state machines over steps; a theorem about runs quantifies over every
  sequence of steps.
- `size_t`, `uint64_t` and `u32` are bounded integers with explicit wrap-around (`Bits.Wrap`); `as i32`
  is written out. `float`, `f64` and times in seconds are `real`, so rounding is not modelled. Clocks
  are monotone inputs where that matters and arbitrary inputs where it does not.
- A clock read and the update of one map entry are one step, as DashMap's entry lock makes them.
- AES-128-GCM is an authenticated cipher in the sense of section 5.1 of RFC 5116: opening inverts sealing
  and opens nothing else (`Srtp.Lawful`), and for the keys in use a ciphertext belongs to one key and one
  96-bit nonce (`Srtp.NoCollision`). `Srtp.LawsCanBeMet` shows that the two can hold together. X25519
  (section 6.1 of RFC 7748) is a function that commutes, HKDF (sections 2.2 and 2.3 of RFC 5869) a
  function; "distinct secrets give distinct keys" is a hypothesis where it is needed.
- The network may lose, duplicate, delay, reorder and misdeliver any datagram.
- A client's answer to `key_exchange_init` and its own switch to the new key are one step, so each key is
  installed first by the client and, on reading the answer, by the server.

## Where a promise needs a condition

- Sequence numbers name ticks only within one sender `start()`, which resets the counter
  (client/src/voice/voice_session.cpp:113). Over several starts `PlayedIsEncoded` still holds, and
  `StaleFrameIsPlayedIff` says when a frame of an earlier start can still be played as a tick of the
  current one: exactly while a copy of it is in a datagram that the server opens with its keys for u, or
  will open with the key of u's answer in flight, in one that another client opens, in a task of the server,
  or in a listener's buffer. `RestartIsHeard` is a run. With no copy left it is never played, whatever
  exchanges are then in progress: what the server installs for u later is new, or the key of that answer, and
  what a client installs is new (`InstallsAreNewOrInFlight`). So an exchange completed after the earlier starts ends it as soon as the old
  key's window is over and the tasks and buffers have run out. While the key stays, it is exactly when some
  earlier start is not a prefix of the current one (`StaleFrameIsPlayedIffStartsDiffer`); that is about
  `VoiceSession::start` and `stop`, for the application's window starts a session only after a completed
  exchange.
- A listener that is already playing u when u restarts drops the new start's frames until they reach its
  playout point (client/src/voice/jitter_buffer.cpp:12-15): `RestartedSenderIsUnheard`.
- A second `key_exchange_init` overwrites the pending secret (server/src/server/websocket.rs:493-495,
  server/src/crypto/key_rotation.rs:62). `AgreementIff`: with nothing outstanding, the two keys are equal
  exactly when the last exchange was started with none outstanding; `OverlapBreaksAgreement` is a run.
- The design document says the dual-key window prevents dropped packets during rotation ("Project
  Development Prompt v2.md", line 201). For server-to-client packets it does, up to one switch and two
  seconds (`ServerPacketsAreOpenedIff`). A client-to-server packet under the new key is refused until the
  server has read the client's answer, because the client switches first, and for ever if another exchange
  starts before that (`ClientPacketsAreOpenedIff`).
- The same document says the revocation cache is invalidated immediately (line 123). That holds exactly
  when no check that has read the row as active is still unfinished: `RevocationIsImmediateIff`. The
  bound that always holds is `RefusedAfterBound`.
- Registering again replaces a handle by one with no channels (server/src/server/websocket.rs:299-308) and
  an admin revocation removes only the connection (server/src/server/admin/sessions.rs:130), so the two
  memberships agree for users registered once and not admin-removed since their last cleanup. A further
  case appears in the proof: a connection that outlives another connection's cleanup of the same user
  (`Status.Unclear`) can join channels without a handle; `OutlivingConnectionBreaksAgreement` is a run.
  `StepLosesAgreementIff` and `AgreementThroughoutIff` say exactly which steps lose agreement, and when.
- The ring's doubling loop ends exactly for requests up to 2^63 (`DoublingReachesIff`).
- An empty plaintext is opened by the server but is a failure to the client
  (`EmptyPlaintextIsLostOnTheClientOnly`).
- `build_forward_header` is documented as rewriting the user id (server/src/voice/packet.rs:65); the code
  keeps it, and the model follows the code.

## Model

| member | source | states |
|---|---|---|
| EndToEnd.PlayedIsEncoded | server/src/voice/router.rs:33-126 | in every run (any loss, duplication, reordering, misdelivery, key change, buffer reuse, restart), every non-empty frame played for user u was encoded by u at a tick with that sequence number and timestamp, and nobody hears himself |
| EndToEnd.PlayedIsExactlyTheTick | client/src/voice/voice_session.cpp:236-274 | within one sender start, or after starts that sent nothing the current one did not, and before the counter wraps, the frame played at sequence s is exactly the frame of tick s |
| Restarts.StaleFrameIsPlayedIff | client/src/voice/voice_session.cpp:113-114 | in every reachable world and in every continuation without a new start of u, in which other clients install new keys and the server takes for u new keys or the one of its answer in flight, a frame of u that is not in its current start can be played if and only if a live copy of one is left: in a datagram the server opens now, or with that answer's key, in one another client now opens, in a task, or in a listener's buffer |
| Restarts.RestartIsHeard | client/src/voice/voice_session.cpp:113-114 | a run in which a listener that joins after the sender's restart plays a frame of the old start as tick 0 of the new one, which has sent nothing |
| Restarts.StaleFrameIsPlayedIffStartsDiffer | client/src/voice/voice_session.cpp:113-114 | on the frames alone, for the voice session's start and stop as they are: while u has had no exchange since before its first frame, and up to 2^64 ticks, if and only if some earlier start is not a prefix of the current one |
| Replays.OldStartIsPlayed | client/src/voice/voice_session.cpp:113-114 | each live copy, wherever it is, has a run that plays that very frame: nobody talks, u does nothing, the one new key goes to the listener alone, and for u the server reads at most the answer in flight |
| Replays.BufferedIsPlayed | client/src/voice/jitter_buffer.cpp:29-59 | a listener that plays on comes to every frame in its buffer |
| StaleFrames.StalePlayNeedsLiveCopy | server/src/crypto/session_manager.rs:53-79 | without a live copy no such continuation ever plays a frame of u that is not in its current start, whatever exchanges are then in progress |
| Restarts.RunRecords | client/src/voice/voice_session.cpp:239-269 | in every run, each tick ever encoded has a datagram on the wire, sealed under a key in use, with that tick's number and time |
| Deliveries.Delivers | server/src/voice/router.rs:47-119 | a packet the server can open, under its current or in time its previous key, is forwarded under the listener's key of the moment and, whatever happens in between, lands in the listener's buffer if the listener holds that key when it reads it, exactly when the frame is not behind the playout point |
| Deliveries.RestartedSenderIsUnheard | client/src/voice/jitter_buffer.cpp:12-15 | a listener that has played u up to number n plays nothing of u while all it gets from u is numbered below n; after a restart, that is every tick before tick n |
| VoiceKeys.KeysComeFromExchanges | server/src/server/websocket.rs:679-685 | in every run of voice path and exchanges together, overlapping exchanges included, each client and the server's entry for it hold exactly the keys of that user's exchange |
| VoiceKeys.ServerPassesIff | server/src/voice/router.rs:56-74 | what u seals now, its exchanges not having overlapped so far, starts a task for l, when the server reads it after any run of u's connection, exactly when l is another member then, no exchange of u has overtaken its answer in flight, the server has taken that answer, if any, and has replaced that key at most once, less than two seconds ago |
| VoiceKeys.ListenerReadsIff | client/src/voice/voice_session.cpp:288-328 | what a task seals for l now, l's exchanges not having overlapped so far, is pushed into l's buffer, when l reads it after any run of l's connection, exactly when l has left the server's key at most once, less than two seconds ago, an answer in flight included; otherwise l's buffers do not change |
| EndToEnd.StepKeepsInv | server/src/voice/router.rs:47-127 | each step of clients, network and server keeps the system invariant: every datagram on the wire is sealed under a known key over a frame its sender encoded, every task carries such a frame, the pooled buffers are empty |
| EndToEnd.OutgoingIsGenuine | client/src/voice/voice_session.cpp:239-274 | what a transmit tick sends parses to the sender's next tick number, sealed over the frame it encoded |
| EndToEnd.TickIsSentToEach | client/src/voice/voice_session.cpp:245-275 | in the whole system, a tick puts exactly those datagrams on the wire, logs its frame and advances both counters, or changes nothing |
| EndToEnd.ClientForgets | client/src/voice/voice_session.cpp:113-137 | what a client forgets on connecting, starting again and changing channel, and what it keeps |
| EndToEnd.ServerOpens | server/src/crypto/session_manager.rs:53-79 | whatever the server opens, under either key, is the frame the sender encoded at that tick |
| EndToEnd.ClientOpens | client/src/crypto/srtp_session.cpp:31-54 | whatever the listener opens, under either key, is the frame the sender encoded at that tick |
| EndToEnd.DatagramIsGenuine | server/src/voice/router.rs:107-114 | a datagram built in an empty recycled buffer is the received header followed by the frame sealed for the recipient |
| EndToEnd.PopKeepsGenuine | client/src/voice/jitter_buffer.cpp:29-59 | a pop returns a loss signal or a frame of that sender, and leaves only such frames |
| VoicePath.VoiceSession.OnTransmitTimer | client/src/voice/voice_session.cpp:218-275 | with a channel open or the key held, a session and an encoded frame: exactly one datagram for each open-mic channel and, while push-to-talk is held, for its channel too, all with the same sequence, timestamp and ciphertext; the counters advance once; otherwise nothing is sent and nothing changes |
| VoicePath.TickSends | client/src/voice/voice_session.cpp:218-275 | what the tick of any client state sends, channel by channel, and how its counters move |
| VoicePath.VoiceSession.ProcessReceivedPacket | client/src/voice/voice_session.cpp:288-328 | own, malformed and unopenable packets change no source; any other is pushed into its sender's jitter buffer, created on demand |
| VoicePath.ReceivedChanges | client/src/voice/voice_session.cpp:288-328 | a packet of another user that opens to some text changes that user's source only: it gets the frame and the packet's channel, a new source having one frame of delay; any other packet changes no source |
| VoicePath.VoiceSession.PopSources | client/src/voice/voice_session.cpp:352-354 | a playback tick pops every source exactly once, each independently of the others |
| VoicePath.VoiceSession.Restart | client/src/voice/voice_session.cpp:113-137 | stop then start forgets the sources and resets both transmit counters |
| VoicePath.VoiceRouter.HandleDatagram | server/src/voice/router.rs:33-90 | the receive loop's tasks, one per recipient and no duplicates; once a packet is parsed, and before decryption, its sender's handle, if there is one, gets the packet's source as address, and no other handle changes |
| VoicePath.VoiceRouter.Forward | server/src/voice/router.rs:86-119 | a task sends the packet sealed under the recipient's current key to its learned address, or nothing without session or address; the pool stays clean |
| Addresses.SentToLastSourceIff | server/src/voice/router.rs:59-106 | over all runs: a task for r is sent to an address exactly when r has a session and that is the source of the last packet past limiter and parser that named r since r registered |
| Addresses.RegisteredIff | server/src/state/connection_manager.rs:28-43 | a user has a handle exactly when it has registered and not been removed since |
| VoicePath.FanOutIff | server/src/voice/router.rs:65-74 | a packet that opens goes once to each other member of its channel with the same text, any other to nobody |
| EndToEnd.TasksAreCounted | server/src/voice/router.rs:86-126 | in the whole system each datagram read starts one task for each of those members, and each task ends once |
| VoicePath.ForwardKeepsHeader | server/src/voice/packet.rs:66-76 | the first 28 bytes forwarded equal the first 28 bytes received |
| VoicePath.RecycledBuffersAreEmpty | server/src/voice/buffer_pool.rs:29-37 | whatever a returned buffer held, the buffers handed out later are empty and the pool never exceeds its size |
| EndToEnd.BuffersAreConserved | server/src/voice/buffer_pool.rs:22-37 | in every run the pool and the buffers tasks hold are never fewer than the pool was made with; when no task holds one, the pool is full |
| RingBuffers.RingBuffer.constructor | client/src/audio/ring_buffer.h:15-25 | the capacity is the least power of two at or above the request |
| RingBuffers.DoublingReachesIff | client/src/audio/ring_buffer.h:17-20 | on 64 bits the doubling loop ends if and only if the request is at most 2^63 |
| RingBuffers.RingBuffer.Write | client/src/audio/ring_buffer.h:43-61 | appends the first min(count, free) items to the queue, whatever the indices have wrapped to |
| RingBuffers.RingBuffer.Read | client/src/audio/ring_buffer.h:65-82 | moves the first min(count, queued) items, in order, from the queue to the destination and touches nothing beyond them |
| RingBuffers.SlotIsMod | client/src/audio/ring_buffer.h:47-57 | the two-chunk position from a masked, wrapped index is the unbounded count modulo the capacity |
| RingBuffers.FillLevel | client/src/audio/ring_buffer.h:28-39 | modular w - r is the true fill level after either index has wrapped past 2^64 |
| RingBuffers.SplicedHolds | client/src/audio/ring_buffer.h:50-57 | a two-chunk write keeps every unread item and adds the new ones |
| SpscProtocol.StepKeepsInv | client/src/audio/ring_buffer.h:43-82 | every atomic step of either thread (load, copy one item, publish) keeps unread items intact and published indices exact |
| SpscProtocol.StepRefinesFifo | client/src/audio/ring_buffer.h:43-82 | only publishing changes the abstract queue: a write appends the copied items at its end, a read removes from its front |
| SpscProtocol.EveryInterleavingIsFifo | client/src/audio/ring_buffer.h:8-9 | in every interleaving what has been read is a prefix of what has been written |
| SpscProtocol.StaleLoadsAreConservative | client/src/audio/ring_buffer.h:28-39 | space or data computed from a stale load of the other index is still there later |
| SpscProtocol.NoSlotIsSharedByBothThreads | client/src/audio/ring_buffer.h:54-57 | no slot is being stored into while it is readable or being read |
| SpscProtocol.WriteCompletes | client/src/audio/ring_buffer.h:43-61 | a write run to its end publishes exactly its items |
| SpscProtocol.ReadCompletes | client/src/audio/ring_buffer.h:65-82 | a read run to its end returns exactly the oldest items |
| JitterBuffers.JitterBuffer.Push | client/src/voice/jitter_buffer.cpp:11-27 | frames behind the playout point dropped, the oldest evicted at 50, an equal sequence overwritten |
| JitterBuffers.JitterBuffer.Pop | client/src/voice/jitter_buffer.cpp:29-59 | waits, starts, returns the next frame, signals a loss, or reports nothing |
| JitterBuffers.RunKeepsInv | client/src/voice/jitter_buffer.cpp:11-59 | in every run at most 50 frames are held, each at its own key, none behind the playout point once started |
| JitterBuffers.OutputIsConsecutive | client/src/voice/jitter_buffer.cpp:41-56 | between resets the returned sequences are s0, s0+1, s0+2, ... for any pushes and pops, with no repeat and no skip |
| JitterBuffers.EveryPushIsAccountedOnce | client/src/voice/jitter_buffer.cpp:11-59 | every pushed frame is exactly one of late, overwritten, evicted, returned, buffered; and the returned ones are exactly those the pops gave, loss signals apart |
| JitterBuffers.DrainsInOrder | client/src/voice/jitter_buffer.cpp:41-58 | draining a started buffer takes exactly max - next + 1 pops, sorted, one empty frame per missing number, and empties it |
| JitterBuffers.NothingIffEmpty | client/src/voice/jitter_buffer.cpp:30-58 | a started buffer returns nothing if and only if it is empty |
| JitterBuffers.PushedIff | client/src/voice/jitter_buffer.cpp:11-27 | a pushed frame is in the buffer at its key afterwards if and only if the buffer has not started or its number is not below the next to play; the other frames all stay, but for the first when 50 are held |
| JitterBuffers.InOrderIsLossless | client/src/voice/jitter_buffer.cpp:11-59 | however pushes and pops alternate, while fewer than 50 wait, a sender whose packets arrive in order loses none: what was returned is what was pushed, in order, each once, without loss signals, up to what the buffer holds |
| JitterBuffers.InOrderIsPlayedAtOnce | client/src/voice/jitter_buffer.cpp:11-59 | with one frame of delay each such frame is returned by the pop after its push |
| JitterBuffers.LateFramesAreSilent | client/src/voice/jitter_buffer.cpp:11-59 | a drained buffer that gets only late frames stays as it is and plays nothing |
| JitterBuffers.PlayoutIsOrderIndependent | client/src/voice/jitter_buffer.cpp:11-59 | at most 50 distinct frames pushed in any order into an unstarted buffer play out identically, sorted with gaps signalled |
| JitterBuffers.SameFramesSameBuffer | client/src/voice/jitter_buffer.cpp:11-27 | two arrival orders of the same frames leave the same buffer |
| VoicePackets.ParseSerialize | server/src/voice/packet.rs:22-63 | parse after serialize restores every field and the payload |
| VoicePackets.SerializeParse | server/src/voice/packet.rs:22-76 | serialize after parse restores every accepted byte string; the forward header is its first 28 bytes |
| VoicePackets.AcceptedIff | server/src/voice/packet.rs:22-30 | exactly the strings of at least 28 bytes that begin with "VL" are accepted, and they are exactly the serialized packets |
| VoicePackets.HeaderFields | server/src/voice/packet.rs:52-63 | at which byte each field is, in big-endian order |
| VoicePackets.ToBytes | server/src/voice/packet.rs:52-63 | the growing buffer ends as the serialized packet |
| VoicePackets.BuildForwardHeader | server/src/voice/packet.rs:66-76 | filling the zeroed array slice by slice gives the packet's header |
| VoicePackets.ClientParse | client/src/voice/voice_packet.cpp:5-24 | the client's shift-and-or parser equals the server's on every byte string |
| VoicePackets.ClientHeader | client/src/voice/voice_packet.cpp:37-48 | the client's header equals the server's on every packet |
| VoicePackets.ClientToBytes | client/src/voice/voice_packet.cpp:26-35 | the client's serializer equals the server's |
| VoicePackets.Readers64Agree | client/src/voice/voice_packet.cpp:68-77 | ORing eight shifted bytes decodes like from_be_bytes |
| VoicePackets.ByteOfBE | client/src/voice/voice_packet.cpp:50-66 | a shifted and masked byte is the byte of the big-endian encoding |
| Srtp.DeriveNonce | server/src/crypto/srtp_session.rs:45-59 | the in-place XOR loop gives the padded sequence XORed with the salt's first 12 bytes |
| Srtp.ClientDeriveNonce | client/src/crypto/srtp_session.cpp:130-149 | the client derives the same nonce as the server |
| Srtp.NonceBits | server/src/crypto/srtp_session.rs:45-59 | bit by bit: four bytes of the salt, then the eight bytes of the number, most significant first, each bit added to the salt's without carry |
| Srtp.NonceInjective | server/src/crypto/srtp_session.rs:45-59 | under one salt two sequence numbers never share a nonce |
| Srtp.SrtpSession.Decrypt | client/src/crypto/srtp_session.cpp:31-54 | current key, then the previous one in its window, discarding it once the window is over |
| Srtp.SrtpSessionManager.Decrypt | server/src/crypto/session_manager.rs:55-79 | current key, then the previous one while its window lasts, else refused |
| Srtp.OpensOnlyTheSealed | server/src/crypto/srtp_session.rs:36-41 | a packet that opens under any key in use yields the text that was sealed; the key is the sealing key, the nonce the sealing nonce, and under one salt the number the sealed number |
| Srtp.DualKeyWindowsAgree | client/src/crypto/srtp_session.cpp:31-54 | after the same installs, with any packets in between, client (lazy discard) and server (elapsed check) answer every packet alike, by the documented rule |
| Srtp.ServerFollowsInstalls | server/src/crypto/session_manager.rs:30-46 | after any run the entry holds the last two installed keys and the time of the last install |
| Srtp.ClientFollowsInstalls | client/src/crypto/srtp_session.cpp:12-54 | after any run the session holds the last installed key, and the one before it unless its window has passed |
| Srtp.GenerationIsAcceptedIff | server/src/crypto/session_manager.rs:66-78 | a packet of generation i opens exactly when i is the newest, or the one before it less than two seconds after the last install |
| Srtp.EmptyPlaintextIsLostOnTheClientOnly | client/src/crypto/srtp_session.cpp:35-36 | the one difference between the two sides: an empty plaintext |
| KeyAgreement.RunKeepsInv | server/src/server/websocket.rs:635-692 | every step of joins, rotations, deliveries and voice keeps the exchange invariant |
| KeyAgreement.AgreementIff | server/src/server/websocket.rs:655-689 | with nothing outstanding, the keys are equal if and only if the last exchange was started with none outstanding |
| KeyAgreement.OneAtATimeAgrees | server/src/crypto/key_rotation.rs:36-66 | one exchange at a time: the keys agree whenever none is outstanding, and the server's key is always the client's current or just-replaced one |
| KeyAgreement.ServerPacketsAreOpenedIff | client/src/crypto/srtp_session.cpp:38-51 | with any delay and any exchanges meanwhile, a packet the server seals is opened by the client exactly when the client has switched at most once away from its key, and, if once, less than two seconds before the read |
| KeyAgreement.ClientPacketsAreOpenedIff | server/src/crypto/session_manager.rs:55-79 | with any delay and any exchanges meanwhile, a packet the client seals is refused until the server has read the answer for its key, then opened until two seconds after the server's next switch; refused for ever if an exchange starts before that answer is read |
| KeyAgreement.InstallsAreNewOrInFlight | server/src/server/websocket.rs:655-689 | after any state and run, a client installs a key for a secret new since that state, and the server one for a new pair of secrets or for the answer that was next to be read |
| KeyAgreement.OverlapBreaksAgreement | server/src/server/websocket.rs:493-495 | a run of two joins before the first answer after which all is quiet and the keys differ |
| KeyAgreement.MessagesAreConserved | server/src/server/websocket.rs:635-692 | over any run: exchanges started are inits read or on their way, inits read are answers read or on their way, and keys installed by the server are confirmations read or on their way |
| KeyAgreement.EachKeyIsConfirmedOnce | server/src/server/websocket.rs:691 | when all has been read, the client has been told exactly once of each key the server installed, and each exchange was answered once |
| KeyHandlers.KeyServer.InitiateOnJoin | server/src/server/websocket.rs:491-499 | the first joins of a connection store a secret and send an init; later ones do nothing; other users untouched |
| KeyHandlers.KeyServer.HandleKeyExchangeResponse | server/src/server/websocket.rs:647-691 | takes the connection's secret first, then the rotation store's; with a secret and a decoded public key it installs the derived key, keeping the replaced one, and sends exactly one confirmation; otherwise it sends none and installs nothing, the secret being spent; other users untouched |
| KeyHandlers.KeyServer.RotateAll | server/src/crypto/key_rotation.rs:46-66 | each listed user with a session gets a fresh secret, and its init message if still connected; nobody else anything |
| KeyHandlers.RotatedIsTheStep | server/src/crypto/key_rotation.rs:46-66 | a user's turn in the rotation loop is the protocol's Rotate step |
| KeyHandlers.MainWindow.OnKeyExchangeInit | client/src/ui/main_window.cpp:448-483 | answers with a fresh public key and switches to the derived keys at once, as the protocol's client step; without a key pair nothing is sent, and a failed derivation leaves the keys after the answer was sent |
| TokenBuckets.LevelIsLeastBound | server/src/voice/rate_limiter.rs:27-47 | the level at every call is the least of the capacity and, over all earlier calls i, capacity + rate * (now - t_i) - allowed since i |
| TokenBuckets.RefusedIff | server/src/voice/rate_limiter.rs:41-46 | a call is refused exactly when allowing it would exceed capacity + rate * T in some window ending now |
| TokenBuckets.WindowBound | server/src/voice/rate_limiter.rs:27-47 | any window of calls, from any call i to any call j, allows at most capacity + rate * its length |
| TokenBuckets.BucketFollowsCalls | server/src/voice/rate_limiter.rs:49-53 | a key's bucket is what its own calls alone would give, or was dropped when full again |
| TokenBuckets.AnswersFollowCalls | server/src/voice/rate_limiter.rs:27-53 | the answers a key gets depend on its own calls only, not on other keys or cleanups |
| TokenBuckets.LimiterRefusesIff | server/src/server/rate_limit.rs:119-136 | with many keys and cleanups in between, a call is refused exactly by that key's window rule |
| TokenBuckets.LimiterWindowBound | server/src/server/rate_limit.rs:119-144 | the same for every window of every key of a limiter with cleanups |
| TokenBuckets.VoiceWindowBound | server/src/voice/rate_limiter.rs:18-53 | at most rate + rate * T packets of an address pass in any T seconds |
| TokenBuckets.AdminWindowBound | server/src/server/rate_limit.rs:109-144 | at most 10 + T requests of a user pass in any T seconds |
| TokenBuckets.AdminRefusedIff | server/src/server/rate_limit.rs:109-144 | a request is refused exactly when it would make more than 10 + T of the user's allowed in some T seconds that end with it |
| TokenBuckets.VoiceRefusedIff | server/src/voice/rate_limiter.rs:18-53 | the same for the packets of an address, at rate + rate * T |
| TokenBuckets.WebSocketWindowBound | server/src/server/websocket.rs:105-117 | at most 30 + 30 T messages are handled in any T seconds, and one is dropped exactly when handling it would break that |
| TokenBuckets.CleanupIsInvisible | server/src/server/rate_limit.rs:139-144 | removing all cleanups from a run changes no answer |
| TokenBuckets.FullBucketLikeNone | server/src/server/websocket.rs:90-91 | a bucket created full at connection time answers like one created at the first message |
| TokenBuckets.VoiceRateLimiter.Allow | server/src/voice/rate_limiter.rs:27-47 | refill, cap and spend under one entry, per source address |
| TokenBuckets.AdminRateLimiter.CheckAndConsume | server/src/server/rate_limit.rs:119-136 | one token per second, bursts of ten, per user |
| TokenBuckets.WsLimiter.Admit | server/src/server/websocket.rs:105-117 | thirty messages per second for each connection |
| AuthLimiters.AuthRateLimiter.Prune | server/src/server/rate_limit.rs:67 | keeps exactly the failures of the last 60 seconds, in order |
| AuthLimiters.EntryShowsRecentLog | server/src/server/rate_limit.rs:64-91 | after any checks and cleanups a key's pruned entry shows the same recent failures as its full history |
| AuthLimiters.AuthRateLimiter.Admit | server/src/server/websocket.rs:196-215 | an attempt needs its address and, if given, its username below their limits |
| AuthLimiters.AuthRateLimiter.RecordFailure | server/src/server/websocket.rs:333-339 | a failure is recorded for the address and, if given, the username |
| AuthLimiters.AuthRateLimiter.Cleanup | server/src/server/rate_limit.rs:81-91 | both maps keep exactly the keys with a recent failure |
| AuthLimiters.CheckCountsTheWindow | server/src/server/rate_limit.rs:64-72 | after any pruning and cleaning a check allows exactly when fewer than limit failures were recorded in the last 60 seconds |
| AuthLimiters.AllowedIff | server/src/server/rate_limit.rs:64-72 | a check is allowed exactly when fewer than limit failures were ever recorded or the limit-th last is at least 60 seconds old |
| AuthLimiters.LimitsInForce | server/src/server/rate_limit.rs:33-62 | which is the fifth last for an address and the tenth last for a username |
| AuthLimiters.WindowHoldsFewFailures | server/src/server/rate_limit.rs:64-78 | with at most k attempts between check and record at once, any 60-second window holds at most limit - 1 + k failures |
| AuthLimiters.SequentialAttempts | server/src/server/rate_limit.rs:64-78 | attempts made one after another: at most limit failures in any 60 seconds |
| AuthLimiters.CleanupIsInvisible | server/src/server/rate_limit.rs:81-91 | removing all cleanups from a run changes no later answer |
| SessionCaches.SessionCache.LookUpCached | server/src/auth/session.rs:30-35 | takes the protocol's lookup step: a fresh entry answers, otherwise the check goes on to the table |
| SessionCaches.SessionCache.FinishRead | server/src/auth/session.rs:38-48 | takes the protocol's finishing step, whatever other tasks did since the lookup: the table's answer is cached and is the answer given, a database error refuses and caches nothing |
| SessionCaches.RefusedAfterBound | server/src/auth/session.rs:28-49 | if a read reaches the cache within d, a session revoked at T is refused by every check at or after T + d + 5 s |
| SessionCaches.RefusedOnlyWithReason | server/src/auth/session.rs:28-61 | in every run a refusal, database errors apart, comes after the session was revoked, invalidated, or read without a row |
| SessionCaches.LiveSessionIsAccepted | server/src/db/sessions.rs:44-55 | a session whose row exists before it is first asked about, and is never revoked, deleted or invalidated, is accepted by every answer, database errors apart |
| SessionCaches.AnsweredByTheRow | server/src/auth/session.rs:38-41 | a check that goes on to the table is answered by the row it finds there at that moment, whatever happens before and after |
| SessionCaches.RowIsHistory | server/src/db/sessions.rs:44-81 | after every run a session has a row exactly when one was created and not deleted since |
| SessionCaches.ActiveIsHistory | server/src/db/sessions.rs:57-81 | and an active one exactly when it was neither revoked nor deleted since |
| SessionCaches.RunKeepsInv | server/src/auth/session.rs:28-71 | in every run a cached or pending "active" answer was read before the revocation, at most d before it was cached |
| SessionCaches.AcceptableIffOpen | server/src/auth/session.rs:28-61 | a revoked session can still be accepted by some continuation exactly when a fresh entry or an unfinished check holds it active |
| SessionCaches.RefusedForeverIff | server/src/auth/session.rs:28-61 | after its revocation a session is refused for ever exactly when neither a fresh cache entry nor an unfinished check holds it active |
| SessionCaches.RevocationIsImmediateIff | server/src/server/admin/sessions.rs:57-66 | revoking and invalidating in one go refuses the session from then on exactly when no unfinished check read it as active |
| SessionCaches.CleanupIsInvisible | server/src/auth/session.rs:64-71 | removing all cache cleanups from a run changes no answer |
| Managers.ChannelManager.Join | server/src/state/channel_manager.rs:28-47 | enters the user unless the channel is at its positive limit; the channel's entry is created either way |
| Managers.ChannelManager.LeaveAll | server/src/state/channel_manager.rs:63-71 | removes the user from every channel and returns exactly the channels it was in |
| Managers.ConnectionManager.BroadcastToChannel | server/src/state/connection_manager.rs:74-83 | reaches each connection in the channel once, except the excluded user |
| Managers.ConnectionManager.UsersInChannel | server/src/state/connection_manager.rs:96-102 | exactly the users whose handle lists the channel |
| Membership.Server.HandleJoinChannel | server/src/server/websocket.rs:451-486 | both indexes gain the membership, or neither does when the channel is full; the others are told |
| Membership.Server.ProcessLeaveChannel | server/src/server/websocket.rs:521-534 | both indexes lose the membership; those that remain are told |
| Membership.Server.DeleteChannel | server/src/server/admin/channels.rs:245-259 | the member loop ends with the channel gone from both indexes |
| Membership.Server.CleanupConnection | server/src/server/websocket.rs:694-721 | leaves all channels and removes connection, presence and SRTP entry |
| Membership.RunKeepsInv | server/src/server/websocket.rs:451-540 | in every run every control member is a voice member, and each user is as its history says |
| Membership.MembershipsAgree | server/src/server/websocket.rs:451-458 | control reaches only voice members always; for users registered once the two memberships are the same; users cleaned up have left no trace |
| Membership.VoiceIsHistory | server/src/state/channel_manager.rs:28-71 | after every run a user is in a channel exactly when it has entered at some step, the channel having room, and has not left, closed or seen the channel deleted since |
| Membership.ControlIsHistory | server/src/state/connection_manager.rs:49-59 | the same for the connection's own list, which also needs a handle, neither replaced nor removed since |
| Membership.RegistrationIsHistory | server/src/server/websocket.rs:298-308 | a user has a handle exactly when it has registered and has neither closed a connection nor been removed by an admin since |
| Membership.JoinLeaveDeleteTouchMembershipsOnly | server/src/server/websocket.rs:451-534 | joining, leaving and deleting keep every handle, its organisation and address, and all limits, presence and SRTP entries |
| Membership.OtherEntriesStep | server/src/server/websocket.rs:694-721 | which steps add and remove presence entries, SRTP entries and limits |
| Membership.SameAudience | server/src/state/connection_manager.rs:74-83 | if all members of a channel are registered once, voice and control broadcasts have the same audience |
| Membership.CleanupLeavesNoTrace | server/src/server/websocket.rs:694-721 | after cleanup no channel, connection, presence or SRTP entry mentions the user, and the others keep theirs |
| Membership.AgreementLostIff | server/src/server/admin/sessions.rs:130 | from agreement: registering again or removing only the connection keeps it exactly when the user is in no channel; joining keeps it exactly when the user has a connection or the channel is full |
| Membership.StepLosesAgreementIff | server/src/server/websocket.rs:451-458 | in every reachable state a step takes a user's agreement away if and only if it is one of those three under those conditions |
| Membership.AgreementThroughoutIff | server/src/server/websocket.rs:298-308 | a user's memberships agree throughout a run if and only if the run takes none of those steps |
| Membership.OutlivingConnectionBreaksAgreement | server/src/server/websocket.rs:694-721 | a run in which a connection outlives another's cleanup of the same user and then joins a channel: voice only |
| Membership.JoinRespectsLimit | server/src/state/channel_manager.rs:28-47 | a join never exceeds the limit, and a full channel refuses even its own members |
| Mixers.VoiceSession.DecodeAll | client/src/voice/voice_session.cpp:352-390 | the first pass keeps the audible sources in order and finds the smallest priority number among them |
| Mixers.VoiceSession.MixFrame | client/src/voice/voice_session.cpp:332-412 | the two passes compute the specified mix, sample by sample |
| Mixers.MixIsLinear | client/src/voice/voice_session.cpp:391-410 | changing one audible source's samples changes the mix by the difference times its channel's volume, times the duck level exactly when a more urgent audible source exists; a channel without settings has volume 1 and priority 5 |
| Mixers.SilenceMixesToZero | client/src/voice/voice_session.cpp:391-410 | where no audible source has a sample other than zero, the mix is zero |
| Mixers.DuckedIff | client/src/voice/voice_session.cpp:398-403 | comparing with the highest active priority ducks a source exactly when some other audible source is strictly more urgent |
| Mixers.SomeSourceIsUnducked | client/src/voice/voice_session.cpp:398-403 | if any source is audible, some audible source is not ducked |
| Mixers.InactiveSourceIsIrrelevant | client/src/voice/voice_session.cpp:359-363 | a muted or silent source neither sounds nor ducks others |
| Mixers.MixIsOrderIndependent | client/src/voice/voice_session.cpp:391-410 | the mix does not depend on the order of the sources |
| PilotFilters.PilotFilter.Process | client/src/audio/pilot_filter.h:38-48 | the buffer ends as the chain's output on the stream so far, and the state as the state after it |
| PilotFilters.ChainIsSeries | client/src/audio/pilot_filter.h:38-48 | on every stream the chain is its parts in series: peak filter, high pass, low pass, shaper and compressor |
| PilotFilters.BiquadSolvesItsEquation | client/src/audio/pilot_filter.h:133-142 | from silence, the output of each biquad solves its second-order difference equation at every sample of every stream |
| PilotFilters.LevellerEquations | client/src/audio/pilot_filter.h:144-168 | at every sample: tanh(1.5 y) / 1.5, an envelope that moves towards its magnitude, a gain that moves towards one dividing by five what is above -24 dB, attack and release coefficients as they apply |
| PilotFilters.FinishFrame | client/src/voice/voice_session.cpp:414-423 | the filter, if on, then the hard clip: a filtered frame leaves exactly as the filter made it, an unfiltered one clipped to [-1, 1] |
| PilotFilters.ChunksDoNotMatter | client/src/audio/pilot_filter.h:38-48 | cutting a stream into any chunks gives the same samples and the same state |
| PilotFilters.StreamWithin | client/src/audio/pilot_filter.h:140-168 | for every stream the envelope stays in [0, 2/3], the gain in (0, 1], every output below 2/3 in magnitude, so the hard clip changes none |

## Left out

- Qt user interface, audio device, configuration, HTTP routes, SQL, TLS, metrics and bootstrap code: plumbing around the cores.
- Opus: an encoded frame is an opaque byte string; decoding is an input of the mixer (the samples a source yielded, if any).
- OpenSSL, aes-gcm, x25519-dalek and hkdf internals, and their failure returns (allocation, key generation): abstract functions with the laws named above.
- Malformed key-exchange messages, failing key generation and a rotation of a user that has just gone are branches of the handlers in `KeyHandlers`, but not steps of the runs in `KeyAgreement`, which follows one connection with well-formed messages; nor is a rotation secret left behind by an earlier connection of the same user.
- VoicePath.VoiceSession.ProcessReceivedPacket: sources are values in the map, not objects behind pointers, and their decoder is left out.
- VoicePath.VoiceRouter.HandleDatagram: the rate limiter's answer is an input here; the limiter itself is `TokenBuckets`. Socket errors are a lost datagram.
- EndToEnd.PlayedIsEncoded: the addresses learned from packets are left out there, because a datagram may be delivered to anybody (`Addresses` has them); a user id belongs to one client at a time.
- VoiceKeys.ServerPassesIff: packets sealed after two exchanges of the user have overlapped are not covered (`KeyAgreement.AgreementIff` says what keys they leave), nor is a logout or login of the sender between sealing and reading.
- VoiceKeys.ListenerReadsIff: the same, for the listener.
- VoiceKeys.KeysComeFromExchanges: a login starts with a new client session, while the application's session object keeps its keys over a reconnect until the next exchange.
- `VoiceRateLimiter::cleanup` has no caller in server/src/main.rs; its invisibility is proved as written.
- Presence and SRTP sessions in `Membership` are sets of user ids: only who has an entry matters there.
- IEEE rounding of samples, tokens and coefficients; the filter's coefficient design (any coefficients are allowed for the biquads, attack and release in (0, 1)).
- C++ memory orders weaker than acquire and release: index loads and stores are atomic steps. Scheduling fairness of tokio and of the audio threads.
- Permission masks, mute and deafen state, client reconnect and the PTT key map: single-branch code.
