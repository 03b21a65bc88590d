/**
 * The two ends and the middle of the voice path: a client's transmit and receive handlers, the
 * server's receive loop body and forwarding task, and the buffers the tasks recycle.
 */
module VoicePath {
  import opened Bits
  import opened Options
  import opened Managers
  import VP = VoicePackets
  import Srtp
  import JB = JitterBuffers

  const VERSION: byte := 1
  const SAMPLES_PER_FRAME := 960
  const SOURCE_DELAY_MS := 20

  // ---- The client ----

  datatype Source = Source(buffer: JB.Buffer, channelId: u32)

  datatype Endpoint = Endpoint(
    userId: u32, srtp: Srtp.Client, txSequence: u64, txTimestamp: u64, sources: map<u32, Source>)

  const NEW_SOURCE := Source(JB.Fresh(JB.InitialFrames(SOURCE_DELAY_MS)), 0)

  /** The open-mic channels, and the push-to-talk channel while it is held. */
  function Targets(openMic: set<u32>, ptt: Option<u32>): set<u32> {
    openMic + if ptt.Some? then {ptt.value} else {}
  }

  function Sealed(a: Srtp.Aead, e: Endpoint, frame: seq<byte>): seq<byte> {
    if e.srtp.ready then Srtp.SealWith(a, e.srtp.current, e.txSequence, frame) else []
  }

  /** The tick sends something: there is a channel to send to, a session, and an encoded frame. */
  predicate Transmits(a: Srtp.Aead, e: Endpoint, targets: set<u32>, frame: seq<byte>) {
    targets != {} && e.srtp.ready && frame != [] && Sealed(a, e, frame) != []
  }

  function ToChannel(e: Endpoint, encrypted: seq<byte>, channelId: u32): seq<byte> {
    VP.Serialize(VP.Packet(VERSION, 0, e.txSequence, e.txTimestamp, channelId, e.userId, encrypted))
  }

  function Outgoing(a: Srtp.Aead, e: Endpoint, frame: seq<byte>, channelId: u32): seq<byte> {
    ToChannel(e, Sealed(a, e, frame), channelId)
  }

  /** One transmit tick: the client afterwards, and the datagrams it sends. */
  function Transmitted(a: Srtp.Aead, e: Endpoint, targets: set<u32>, frame: seq<byte>): (Endpoint, set<seq<byte>>) {
    if !Transmits(a, e, targets, frame) then (e, {})
    else
      (e.(txSequence := Wrap(e.txSequence + 1), txTimestamp := Wrap(e.txTimestamp + SAMPLES_PER_FRAME)),
       set c | c in targets :: Outgoing(a, e, frame, c))
  }

  /**
   * What a tick sends and counts, channel by channel: if a channel is open or the push-to-talk key held, the
   * session ready and a frame encoded and sealed, then to each open-mic channel and to the held one.
   */
  lemma TickSends(a: Srtp.Aead, e: Endpoint, openMic: set<u32>, ptt: Option<u32>, frame: seq<byte>)
    ensures Transmits(a, e, Targets(openMic, ptt), frame) <==> CanSend(a, e, openMic, ptt, frame)
    ensures |Targets(openMic, ptt)| == |openMic| + (if ptt.Some? && ptt.value !in openMic then 1 else 0)
    ensures Transmitted(a, e, Targets(openMic, ptt), frame).0 ==
            if CanSend(a, e, openMic, ptt, frame)
            then e.(txSequence := Wrap(e.txSequence + 1), txTimestamp := Wrap(e.txTimestamp + 960)) else e
    ensures forall d :: d in Transmitted(a, e, Targets(openMic, ptt), frame).1 <==>
                        && CanSend(a, e, openMic, ptt, frame)
                        && exists c: u32 :: (c in openMic || ptt == Some(c)) && d == NextDatagram(a, e, frame, c)
  {
    TargetsAre(openMic, ptt);
    var sent := Transmitted(a, e, Targets(openMic, ptt), frame).1;
    if CanSend(a, e, openMic, ptt, frame) {
      forall c: u32 ensures Outgoing(a, e, frame, c) == NextDatagram(a, e, frame, c) { }
      forall d | d in sent ensures exists c: u32 :: (c in openMic || ptt == Some(c)) && d == NextDatagram(a, e, frame, c) {
        var c :| c in Targets(openMic, ptt) && d == Outgoing(a, e, frame, c);
        assert d == NextDatagram(a, e, frame, c);
      }
      forall c: u32 | c in openMic || ptt == Some(c) ensures NextDatagram(a, e, frame, c) in sent {
        assert c in Targets(openMic, ptt) && Outgoing(a, e, frame, c) in sent;
      }
    }
  }

  /** One datagram for each of the channels. */
  ghost predicate AreFor(e: Endpoint, sent: seq<seq<byte>>, targets: set<u32>, encrypted: seq<byte>) {
    forall d :: d in sent <==> exists c :: c in targets && d == ToChannel(e, encrypted, c)
  }

  lemma SentIsTransmitted(a: Srtp.Aead, e: Endpoint, targets: set<u32>, frame: seq<byte>, sent: seq<seq<byte>>)
    requires AreFor(e, sent, targets, Sealed(a, e, frame))
    requires Transmits(a, e, targets, frame)
    ensures forall d :: d in sent <==> d in Transmitted(a, e, targets, frame).1
  {
    forall d ensures d in sent <==> d in Transmitted(a, e, targets, frame).1 {
      if d in sent {
        var c :| c in targets && d == ToChannel(e, Sealed(a, e, frame), c);
        assert d == Outgoing(a, e, frame, c);
      }
    }
  }

  lemma TargetsAre(openMic: set<u32>, ptt: Option<u32>)
    ensures forall c: u32 :: c in Targets(openMic, ptt) <==> c in openMic || ptt == Some(c)
    ensures Targets(openMic, ptt) != {} <==> openMic != {} || ptt.Some?
    ensures |Targets(openMic, ptt)| == |openMic| + (if ptt.Some? && ptt.value !in openMic then 1 else 0)
  {
    assert Targets(openMic, ptt) == if ptt.Some? && ptt.value !in openMic then openMic + {ptt.value} else openMic;
    if ptt.Some? { assert ptt.value in Targets(openMic, ptt); }
    if openMic != {} {
      var c :| c in openMic;
      assert c in Targets(openMic, ptt);
    }
  }

  /** A channel is open or the push-to-talk key held, the session is ready, and a frame is encoded and sealed. */
  predicate CanSend(a: Srtp.Aead, e: Endpoint, openMic: set<u32>, ptt: Option<u32>, frame: seq<byte>) {
    && (openMic != {} || ptt.Some?) && e.srtp.ready && frame != []
    && Srtp.SealWith(a, e.srtp.current, e.txSequence, frame) != []
  }

  /** The datagram of the next tick for channel c. */
  function NextDatagram(a: Srtp.Aead, e: Endpoint, frame: seq<byte>, c: u32): seq<byte> {
    VP.Serialize(VP.Packet(1, 0, e.txSequence, e.txTimestamp, c, e.userId,
                           Srtp.SealWith(a, e.srtp.current, e.txSequence, frame)))
  }

  function SourceOf(sources: map<u32, Source>, u: u32): Source {
    if u in sources then sources[u] else NEW_SOURCE
  }

  /** What a client keeps of a received packet it could open. */
  function Buffered(sources: map<u32, Source>, p: VP.Packet, plain: seq<byte>): map<u32, Source> {
    var s := SourceOf(sources, p.userId);
    sources[p.userId := Source(JB.Pushed(s.buffer, JB.Frame(p.sequence, p.timestamp, plain)), p.channelId)]
  }

  /** One received datagram. */
  function Received(a: Srtp.Aead, e: Endpoint, data: seq<byte>, now: Srtp.Time): Endpoint {
    if !e.srtp.ready || VP.Parse(data).None? then e
    else
      var p := VP.Parse(data).value;
      if p.userId == e.userId then e
      else
        var (srtp, plain) := Srtp.ClientDecrypt(a, e.srtp, p.sequence, p.payload, now);
        if plain == [] then e.(srtp := srtp)
        else e.(srtp := srtp, sources := Buffered(e.sources, p, plain))
  }

  /**
   * What a received packet changes: if the session is ready, the packet parses, is another user's and opens
   * to some text, then its sender's source, a fresh one of one frame's delay if there is none, gets the
   * frame and the packet's channel; otherwise no source changes. The text is what the session opens.
   */
  lemma ReceivedChanges(a: Srtp.Aead, e: Endpoint, data: seq<byte>, now: Srtp.Time)
    ensures
      var (parsed, after) := (VP.Parse(data), Received(a, e, data, now));
      var heard := if e.srtp.ready && parsed.Some? && parsed.value.userId != e.userId
                   then Srtp.ClientDecrypt(a, e.srtp, parsed.value.sequence, parsed.value.payload, now).1 else [];
      && after.userId == e.userId && after.txSequence == e.txSequence && after.txTimestamp == e.txTimestamp
      && if heard == [] then after.sources == e.sources
         else
           var p := parsed.value;
           && after.sources.Keys == e.sources.Keys + {p.userId}
           && (forall v :: v in after.sources && v != p.userId ==> after.sources[v] == e.sources[v])
           && after.sources[p.userId].channelId == p.channelId
           && after.sources[p.userId].buffer ==
              JB.Pushed(if p.userId in e.sources then e.sources[p.userId].buffer else JB.Fresh(1),
                        JB.Frame(p.sequence, p.timestamp, heard))
  {
  }

  /** One source's turn in a playback tick. */
  function Played(e: Endpoint, u: u32): (Endpoint, Option<JB.Frame>) {
    if u !in e.sources then (e, None)
    else
      var (b, r) := JB.Popped(e.sources[u].buffer);
      (e.(sources := e.sources[u := e.sources[u].(buffer := b)]), r)
  }

  class VoiceSession {
    var userId: u32
    var channelId: u32
    var openMicChannels: set<u32>
    var txSequence: u64
    var txTimestamp: u64
    var sources: map<u32, Source>
    const srtpSession: Srtp.SrtpSession

    function State(): Endpoint
      reads this, srtpSession
    {
      Endpoint(userId, srtpSession.State(), txSequence, txTimestamp, sources)
    }

    constructor (userId: u32, srtpSession: Srtp.SrtpSession)
      ensures this.srtpSession == srtpSession && openMicChannels == {}
      ensures State() == Endpoint(userId, srtpSession.State(), 0, 0, map[])
    {
      this.userId, channelId, openMicChannels := userId, 0, {};
      txSequence, txTimestamp, sources := 0, 0, map[];
      this.srtpSession := srtpSession;
    }

    /** stop, then start: the sources are forgotten and the counters begin again. */
    method Restart()
      modifies this
      ensures State() == old(State()).(txSequence := 0, txTimestamp := 0, sources := map[])
    {
      sources := map[];
      txSequence := 0;
      txTimestamp := 0;
    }

    method SetIdentity(userId: u32, channelId: u32)
      modifies this
      ensures State() == old(State()).(userId := userId,
                                       sources := if channelId != old(this.channelId) then map[] else old(sources))
    {
      var channelChanged := this.channelId != channelId;
      this.userId := userId;
      this.channelId := channelId;
      if channelChanged { sources := map[]; }
    }

    /** The sending loop: one datagram for each channel. */
    method SendTo(targets: set<u32>, encrypted: seq<byte>) returns (sent: seq<seq<byte>>)
      ensures |sent| == |targets| && AreFor(State(), sent, targets, encrypted)
    {
      sent := [];
      var todo := targets;
      while todo != {}
        invariant todo <= targets && |sent| == |targets| - |todo|
        invariant AreFor(State(), sent, targets - todo, encrypted)
        decreases |todo|
      {
        var c := Pick(todo);
        var bytes := VP.ClientToBytes(VP.Packet(VERSION, 0, txSequence, txTimestamp, c, userId, []), encrypted);
        assert targets - (todo - {c}) == (targets - todo) + {c};
        todo, sent := todo - {c}, sent + [bytes];
      }
      assert targets - todo == targets;
    }

    method OnTransmitTimer(a: Srtp.Aead, pttActive: bool, encoded: seq<byte>) returns (sent: seq<seq<byte>>)
      modifies this`txSequence, this`txTimestamp
      ensures
        var ptt := if pttActive then Some(channelId) else None;
        && State() == Transmitted(a, old(State()), Targets(openMicChannels, ptt), encoded).0
        && (forall d :: d in sent <==> d in Transmitted(a, old(State()), Targets(openMicChannels, ptt), encoded).1)
      ensures
        var ptt := if pttActive then Some(channelId) else None;
        && (forall d :: d in sent <==>
              && CanSend(a, old(State()), openMicChannels, ptt, encoded)
              && exists c: u32 :: (c in openMicChannels || ptt == Some(c)) && d == NextDatagram(a, old(State()), encoded, c))
        && |sent| == if !CanSend(a, old(State()), openMicChannels, ptt, encoded) then 0
                     else |openMicChannels| + if pttActive && channelId !in openMicChannels then 1 else 0
    {
      TickSends(a, State(), openMicChannels, if pttActive then Some(channelId) else None, encoded);
      sent := [];
      if !pttActive && openMicChannels == {} { return; }
      if !srtpSession.ready { return; }
      if encoded == [] { return; }
      var encrypted := srtpSession.Encrypt(a, encoded, txSequence);
      if encrypted == [] { return; }
      var targets := openMicChannels;
      if pttActive { targets := targets + {channelId}; }
      assert targets == Targets(openMicChannels, if pttActive then Some(channelId) else None);
      assert encrypted == Sealed(a, State(), encoded);
      sent := SendTo(targets, encrypted);
      SentIsTransmitted(a, State(), targets, encoded, sent);
      TickSends(a, State(), openMicChannels, if pttActive then Some(channelId) else None, encoded);
      txSequence := Wrap(txSequence + 1);
      txTimestamp := Wrap(txTimestamp + SAMPLES_PER_FRAME);
    }

    method ProcessReceivedPacket(a: Srtp.Aead, data: seq<byte>, now: Srtp.Time)
      modifies this`sources, srtpSession
      ensures State() == Received(a, old(State()), data, now)
    {
      if !srtpSession.ready { return; }
      var parsed := VP.ClientParse(data);
      if parsed.None? { return; }
      var p := parsed.value;
      if p.userId == userId { return; }
      var decrypted := srtpSession.Decrypt(a, p.payload, p.sequence, now);
      if decrypted == [] { return; }
      if p.userId !in sources { sources := sources[p.userId := NEW_SOURCE]; }
      var source := sources[p.userId].(channelId := p.channelId);
      source := source.(buffer := JB.Pushed(source.buffer, JB.Frame(p.sequence, p.timestamp, decrypted)));
      sources := sources[p.userId := source];
    }

    /** The start of a playback tick: every source takes its turn once, independently of the others. */
    method PopSources() returns (frames: map<u32, JB.Frame>)
      modifies this`sources
      ensures sources.Keys == old(sources).Keys && frames.Keys <= sources.Keys
      ensures forall v :: v in sources ==>
                var (e, r) := Played(old(State()), v);
                sources[v] == e.sources[v] && Lookup(frames, v) == r
      ensures forall v :: v in sources ==>
                var (b, r) := JB.Popped(old(sources)[v].buffer);
                sources[v] == Source(b, old(sources)[v].channelId) && Lookup(frames, v) == r
    {
      frames := map[];
      var todo := sources.Keys;
      while todo != {}
        invariant todo <= sources.Keys == old(sources).Keys && frames.Keys <= sources.Keys - todo
        invariant forall v :: v in todo ==> sources[v] == old(sources)[v]
        invariant forall v :: v in sources.Keys - todo ==>
                    var (b, r) := JB.Popped(old(sources)[v].buffer);
                    sources[v] == old(sources)[v].(buffer := b) && Lookup(frames, v) == r
        decreases |todo|
      {
        var v := Pick(todo);
        todo := todo - {v};
        var (b, r) := JB.Popped(sources[v].buffer);
        sources := sources[v := sources[v].(buffer := b)];
        if r.Some? { frames := frames[v := r.value]; }
      }
    }
  }

  // ---- The server ----

  /** `as i32`: the same 32 bits, signed. */
  function AsI32(x: u32): (r: int)
    ensures IsI32(r) && (r - x) % TWO32 == 0
  {
    if x < 0x8000_0000 then x else x - TWO32
  }

  predicate IsI32(x: int) {
    -0x8000_0000 <= x < 0x8000_0000
  }

  function FromI32(x: int): (u: u32)
    requires IsI32(x)
    ensures AsI32(u) == x
  {
    if x < 0 then x + TWO32 else x
  }

  lemma AsI32Injective(x: u32, y: u32)
    ensures AsI32(x) == AsI32(y) <==> x == y
  {
  }

  /** One forwarding task: a packet, what it decrypted to, and who is to have it. */
  datatype Job = Job(packet: VP.Packet, plain: seq<byte>, recipient: int)

  function Recipients(channels: Channels, p: VP.Packet): set<int> {
    Members(channels, AsI32(p.channelId)) - {AsI32(p.userId)}
  }

  /** The tasks one received datagram starts. */
  function Jobs(a: Srtp.Aead, sessions: map<int, Srtp.Entry>, channels: Channels, data: seq<byte>, now: Srtp.Time): set<Job> {
    if VP.Parse(data).None? then {}
    else
      var p := VP.Parse(data).value;
      var plain := Srtp.ServerDecrypt(a, Lookup(sessions, AsI32(p.userId)), p.sequence, p.payload, now);
      if plain.None? then {} else set r | r in Recipients(channels, p) :: Job(p, plain.value, r)
  }

  /**
   * Fan-out: a packet that opens under the sender's current key, or in time under its previous one, goes
   * once to each other member of its channel with the same text; any other packet goes to nobody.
   */
  lemma FanOutIff(a: Srtp.Aead, sessions: map<int, Srtp.Entry>, channels: Channels, p: VP.Packet, now: Srtp.Time, j: Job)
    ensures j in Jobs(a, sessions, channels, VP.Serialize(p), now) <==>
            && j.packet == p
            && j.recipient in Members(channels, AsI32(p.channelId)) && j.recipient != AsI32(p.userId)
            && AsI32(p.userId) in sessions
            && var e := sessions[AsI32(p.userId)];
               || Srtp.OpenWith(a, e.current, p.sequence, p.payload) == Some(j.plain)
               || (&& Srtp.OpenWith(a, e.current, p.sequence, p.payload).None?
                   && e.previous.Some? && now - e.previous.value.1 < Srtp.DUAL_KEY_WINDOW
                   && Srtp.OpenWith(a, e.previous.value.0, p.sequence, p.payload) == Some(j.plain))
  {
    VP.ParseSerialize(p);
  }

  /** What is forwarded starts with the 28 bytes that were received. */
  lemma ForwardKeepsHeader(a: Srtp.Aead, sessions: map<int, Srtp.Entry>, channels: Channels, data: seq<byte>,
                           now: Srtp.Time, job: Job, keys: Srtp.Keys)
    requires job in Jobs(a, sessions, channels, data, now)
    ensures |data| >= VP.HEADER_SIZE
    ensures Datagram(a, [], job, keys)[..VP.HEADER_SIZE] == data[..VP.HEADER_SIZE]
  {
    VP.SerializeParse(data);
  }

  /** The datagram a task sends: whatever its buffer held, the header, and the text sealed under `keys`. */
  function Datagram(a: Srtp.Aead, buf: seq<byte>, job: Job, keys: Srtp.Keys): seq<byte> {
    buf + VP.Header(job.packet) + Srtp.SealWith(a, keys, job.packet.sequence, job.plain)
  }

  function Taken(free: seq<seq<byte>>): (seq<seq<byte>>, seq<byte>) {
    if free == [] then (free, []) else (free[1..], free[0])
  }

  /** The buffer is cleared; it is dropped when the queue is full. */
  function PutBack(free: seq<seq<byte>>, capacity: nat, buf: seq<byte>): seq<seq<byte>> {
    if |free| < capacity then free + [buf[..0]] else free
  }

  ghost predicate AllEmpty(free: seq<seq<byte>>) {
    forall i :: 0 <= i < |free| ==> free[i] == []
  }

  /** Whatever the recycled buffers held, the next ones handed out are empty. */
  lemma RecycledBuffersAreEmpty(free: seq<seq<byte>>, capacity: nat, buf: seq<byte>)
    requires AllEmpty(free)
    ensures Taken(free).1 == [] && AllEmpty(Taken(free).0)
    ensures AllEmpty(PutBack(free, capacity, buf)) && (|free| <= capacity ==> |PutBack(free, capacity, buf)| <= capacity)
  {
  }

  class BufferPool {
    var pool: seq<seq<byte>>
    const capacity: nat

    ghost predicate Valid()
      reads this
    {
      |pool| <= capacity && AllEmpty(pool)
    }

    constructor (poolSize: nat)
      requires poolSize > 0
      ensures Valid() && capacity == poolSize && |pool| == poolSize
    {
      capacity := poolSize;
      pool := [];
      new;
      for i := 0 to poolSize
        invariant |pool| == i && AllEmpty(pool)
      {
        pool := pool + [[]];
      }
    }

    method Get() returns (buf: seq<byte>)
      requires Valid()
      modifies this
      ensures Valid() && buf == [] && (pool, buf) == Taken(old(pool))
      ensures pool == if old(pool) == [] then [] else old(pool)[1..]
    {
      if pool == [] { return []; }
      buf := pool[0];
      pool := pool[1..];
    }

    method Put(buf: seq<byte>)
      requires Valid()
      modifies this
      ensures Valid() && pool == PutBack(old(pool), capacity, buf)
      ensures pool == if |old(pool)| < capacity then old(pool) + [[]] else old(pool)
    {
      var cleared := buf[..0];
      if |pool| < capacity { pool := pool + [cleared]; }
    }
  }

  class VoiceRouter {
    const srtpManager: Srtp.SrtpSessionManager
    const channelManager: ChannelManager
    const connectionManager: ConnectionManager
    const bufferPool: BufferPool

    constructor (srtp: Srtp.SrtpSessionManager, channels: ChannelManager, connections: ConnectionManager, pool: BufferPool)
      ensures srtpManager == srtp && channelManager == channels && connectionManager == connections && bufferPool == pool
    {
      srtpManager, channelManager, connectionManager, bufferPool := srtp, channels, connections, pool;
    }

    /** The body of the receive loop, after the rate limiter: the tasks it spawns, one per recipient. */
    method HandleDatagram(a: Srtp.Aead, data: seq<byte>, src: int, now: Srtp.Time, allowed: bool) returns (tasks: seq<Job>)
      modifies connectionManager
      ensures forall j :: j in tasks <==> allowed && j in Jobs(a, srtpManager.sessions, channelManager.channels, data, now)
      ensures forall i, j :: 0 <= i < j < |tasks| ==> tasks[i] != tasks[j]
      ensures connectionManager.connections ==
              if allowed && VP.Parse(data).Some?
              then WithAddress(old(connectionManager.connections), AsI32(VP.Parse(data).value.userId), src)
              else old(connectionManager.connections)
      ensures connectionManager.connections.Keys == old(connectionManager.connections).Keys
      ensures forall v :: v in connectionManager.connections ==>
                connectionManager.connections[v] ==
                if allowed && VP.Parse(data).Some? && v == AsI32(VP.Parse(data).value.userId)
                then old(connectionManager.connections)[v].(udpAddr := Some(src))
                else old(connectionManager.connections)[v]
    {
      tasks := [];
      if !allowed { return; }
      var parsed := VP.Parse(data);
      if parsed.None? { return; }
      var packet := parsed.value;
      var senderId, cid := AsI32(packet.userId), AsI32(packet.channelId);
      connectionManager.SetUdpAddr(senderId, src);
      ghost var learned := connectionManager.connections;
      var plaintext := srtpManager.Decrypt(a, senderId, packet.payload, packet.sequence, now);
      if plaintext.None? { return; }
      var members := channelManager.MembersOf(cid);
      for i := 0 to |members|
        invariant forall j :: j in tasks <==>
                    exists k :: 0 <= k < i && members[k] != senderId && j == Job(packet, plaintext.value, members[k])
        invariant forall j, k :: 0 <= j < k < |tasks| ==> tasks[j] != tasks[k]
        invariant connectionManager.connections == learned
      {
        if members[i] != senderId {
          var task := Job(packet, plaintext.value, members[i]);
          assert task !in tasks;
          tasks := tasks + [task];
        }
      }
      forall j ensures j in tasks <==> j in Jobs(a, srtpManager.sessions, channelManager.channels, data, now) {
        if j in Jobs(a, srtpManager.sessions, channelManager.channels, data, now) {
          assert j.recipient in members;
        }
      }
    }

    /** One task: seal under the recipient's current key, fill a recycled buffer, send, give it back. */
    method Forward(a: Srtp.Aead, job: Job) returns (sent: Option<(seq<byte>, int)>)
      requires bufferPool.Valid()
      modifies bufferPool
      ensures bufferPool.Valid()
      ensures
        var r := job.recipient;
        sent == if r in srtpManager.sessions && r in connectionManager.connections
                   && connectionManager.connections[r].udpAddr.Some?
                then Some((VP.Serialize(job.packet.(payload :=
                             Srtp.SealWith(a, srtpManager.sessions[r].current, job.packet.sequence, job.plain))),
                           connectionManager.connections[r].udpAddr.value))
                else None
      ensures (if sent.Some? then Some(sent.value.1) else None)
           == Destination(srtpManager.sessions, connectionManager.connections, job.recipient)
    {
      var keys := srtpManager.GetEncryptSession(job.recipient);
      if keys.None? { return None; }
      if job.recipient !in connectionManager.connections { return None; }
      var addr := connectionManager.connections[job.recipient].udpAddr;
      if addr.None? { return None; }
      var encrypted := Srtp.SealWith(a, keys.value, job.packet.sequence, job.plain);
      var header := VP.BuildForwardHeader(job.packet);
      var buf := bufferPool.Get();
      buf := buf + header[..];
      buf := buf + encrypted;
      sent := Some((buf, addr.value));
      HeaderIgnoresPayload(job.packet, encrypted);
      bufferPool.Put(buf);
    }
  }

  /** Where a task for r sends its datagram, if it does. */
  function Destination(sessions: map<int, Srtp.Entry>, connections: Connections, r: int): Option<int> {
    if r in sessions && r in connections then connections[r].udpAddr else None
  }

  lemma HeaderIgnoresPayload(p: VP.Packet, payload: seq<byte>)
    ensures VP.Serialize(p.(payload := payload)) == [] + VP.Header(p) + payload
  {
  }
}
