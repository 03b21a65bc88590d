/**
 * The whole voice path as one system: clients that encode and send, a network that may lose,
 * duplicate, delay and misdeliver any datagram, a server whose tasks re-encrypt through recycled
 * buffers, and listeners' jitter buffers. Any order of these steps is a run.
 */
module EndToEnd {
  import opened Bits
  import opened Options
  import opened Managers
  import opened VoicePath
  import opened Runs
  import VP = VoicePackets
  import Srtp
  import JB = JitterBuffers

  /** For each user, the frames encoded since each start: history[u][g][t] is tick t of start g. */
  type History = map<u32, seq<seq<seq<byte>>>>

  datatype Playback = Playback(listener: u32, source: u32, frame: JB.Frame)

  datatype World = World(
    peers: map<u32, Endpoint>,
    sessions: map<int, Srtp.Entry>,
    channels: Channels,
    tasks: multiset<Job>,
    pool: seq<seq<byte>>,
    held: multiset<seq<byte>>,
    wire: set<seq<byte>>,
    history: History,
    played: set<Playback>)

  datatype Step =
    | Connect(u: u32)
    | Restart(u: u32)
    | ClearSources(u: u32)
    | Transmit(u: u32, openMic: set<u32>, ptt: Option<u32>, encoded: seq<byte>)
    | ServerReceive(data: seq<byte>, now: Srtp.Time)
    | ServerSend(job: Job)
    | ServerSkip(job: Job)
    | ServerRelease(buf: seq<byte>)
    | Receive(u: u32, data: seq<byte>, now: Srtp.Time)
    | Play(u: u32, source: u32)
    | ClientInit(u: u32, keys: Srtp.Keys, now: Srtp.Time)
    | ServerInit(id: int, keys: Srtp.Keys, now: Srtp.Time)
    | ServerRemove(id: int)
    | Regroup(channels: Channels)

  function NewStart(h: History, u: u32): History {
    h[u := (if u in h then h[u] else []) + [[]]]
  }

  /** One more frame in the current start. */
  function Logged(h: History, u: u32, frame: seq<byte>): History {
    if u !in h || h[u] == [] then h
    else
      var g := |h[u]| - 1;
      h[u := h[u][..g] + [h[u][g] + [frame]]]
  }

  // ---- What a step does to each part of the world; a step that is not possible changes nothing ----

  /** The transmit tick sends something. */
  predicate Ticks(a: Srtp.Aead, w: World, s: Step) {
    s.Transmit? && s.u in w.peers && Transmits(a, w.peers[s.u], Targets(s.openMic, s.ptt), s.encoded)
  }

  /** The task runs and its recipient has a session. */
  predicate Sends(w: World, s: Step) {
    s.ServerSend? && s.job in w.tasks && s.job.recipient in w.sessions
  }

  /** What that task sends, and keeps until it gives the buffer back. */
  function SentDatagram(a: Srtp.Aead, w: World, job: Job): seq<byte>
    requires job.recipient in w.sessions
  {
    Datagram(a, Taken(w.pool).1, job, w.sessions[job.recipient].current)
  }

  function PeersAfter(a: Srtp.Aead, w: World, s: Step): map<u32, Endpoint> {
    match s
    case Connect(u) => w.peers[u := Endpoint(u, Srtp.NEW_CLIENT, 0, 0, map[])]
    case Restart(u) =>
      if u in w.peers then w.peers[u := Endpoint(w.peers[u].userId, w.peers[u].srtp, 0, 0, map[])] else w.peers
    case ClearSources(u) => if u in w.peers then w.peers[u := w.peers[u].(sources := map[])] else w.peers
    case Transmit(u, openMic, ptt, encoded) =>
      if u in w.peers then w.peers[u := Transmitted(a, w.peers[u], Targets(openMic, ptt), encoded).0] else w.peers
    case Receive(u, data, now) =>
      if u in w.peers && data in w.wire then w.peers[u := Received(a, w.peers[u], data, now)] else w.peers
    case Play(u, source) => if u in w.peers then w.peers[u := Played(w.peers[u], source).0] else w.peers
    case ClientInit(u, keys, now) =>
      if u in w.peers then w.peers[u := w.peers[u].(srtp := Srtp.ClientInstall(w.peers[u].srtp, keys, now))] else w.peers
    case _ => w.peers
  }

  function SessionsAfter(sessions: map<int, Srtp.Entry>, s: Step): map<int, Srtp.Entry> {
    match s
    case ServerInit(id, keys, now) => sessions[id := Srtp.ServerInstall(Lookup(sessions, id), keys, now)]
    case ServerRemove(id) => sessions - {id}
    case _ => sessions
  }

  function TasksAfter(a: Srtp.Aead, w: World, s: Step): multiset<Job> {
    match s
    case ServerReceive(data, now) =>
      if data in w.wire then w.tasks + multiset(Jobs(a, w.sessions, w.channels, data, now)) else w.tasks
    case ServerSend(job) => w.tasks - multiset{job}
    case ServerSkip(job) => w.tasks - multiset{job}
    case _ => w.tasks
  }

  function PoolAfter(w: World, capacity: nat, s: Step): seq<seq<byte>> {
    if Sends(w, s) then Taken(w.pool).0
    else if s.ServerRelease? && s.buf in w.held then PutBack(w.pool, capacity, s.buf)
    else w.pool
  }

  function HeldAfter(a: Srtp.Aead, w: World, s: Step): multiset<seq<byte>> {
    if Sends(w, s) then w.held + multiset{SentDatagram(a, w, s.job)}
    else if s.ServerRelease? then w.held - multiset{s.buf}
    else w.held
  }

  /** Nothing leaves the wire: the network may deliver any datagram again, or never. */
  function WireAfter(a: Srtp.Aead, w: World, s: Step): set<seq<byte>> {
    if Ticks(a, w, s) then w.wire + Transmitted(a, w.peers[s.u], Targets(s.openMic, s.ptt), s.encoded).1
    else if Sends(w, s) then w.wire + {SentDatagram(a, w, s.job)}
    else w.wire
  }

  function HistoryAfter(a: Srtp.Aead, w: World, s: Step): History {
    if s.Connect? || (s.Restart? && s.u in w.peers) then NewStart(w.history, s.u)
    else if Ticks(a, w, s) then Logged(w.history, s.u, s.encoded)
    else w.history
  }

  function PlayedAfter(w: World, s: Step): set<Playback> {
    if s.Play? && s.u in w.peers && Played(w.peers[s.u], s.source).1.Some?
    then w.played + {Playback(s.u, s.source, Played(w.peers[s.u], s.source).1.value)}
    else w.played
  }

  function Next(a: Srtp.Aead, capacity: nat, w: World, s: Step): World {
    World(PeersAfter(a, w, s), SessionsAfter(w.sessions, s), if s.Regroup? then s.channels else w.channels,
          TasksAfter(a, w, s), PoolAfter(w, capacity, s), HeldAfter(a, w, s), WireAfter(a, w, s),
          HistoryAfter(a, w, s), PlayedAfter(w, s))
  }

  function Start(pool: seq<seq<byte>>): World {
    World(map[], map[], map[], multiset{}, pool, multiset{}, {}, map[], {})
  }

  function Stepper(a: Srtp.Aead, capacity: nat): (World, Step) -> World {
    (w, s) => Next(a, capacity, w, s)
  }

  function Run(a: Srtp.Aead, capacity: nat, w: World, steps: seq<Step>): World {
    Fold(Stepper(a, capacity), w, steps)
  }

  /** Every key a step installs is one of ks. */
  ghost predicate StepKeysIn(ks: set<seq<byte>>, s: Step) {
    && (s.ClientInit? ==> s.keys.masterKey in ks)
    && (s.ServerInit? ==> s.keys.masterKey in ks)
  }

  // ---- What it means to be genuine ----

  ghost predicate TickOf(h: History, u: u32, g: nat, t: nat, sequence: u64, timestamp: u64, frame: seq<byte>) {
    && u in h && g < |h[u]| && t < |h[u][g]| && h[u][g][t] == frame
    && sequence == Wrap(t) && timestamp == Wrap(SAMPLES_PER_FRAME * t)
  }

  /** u encoded this frame, at the tick these numbers stand for, in one of its starts. */
  ghost predicate Encoded(h: History, u: u32, sequence: u64, timestamp: u64, frame: seq<byte>) {
    exists g: nat, t: nat :: TickOf(h, u, g, t, sequence, timestamp, frame)
  }

  ghost predicate SealedBy(a: Srtp.Aead, ks: set<seq<byte>>, h: History, p: VP.Packet, k: Srtp.Keys, plain: seq<byte>) {
    && k.masterKey in ks
    && p.payload == Srtp.SealWith(a, k, p.sequence, plain)
    && Encoded(h, p.userId, p.sequence, p.timestamp, plain)
  }

  ghost predicate GenuineDatagram(a: Srtp.Aead, ks: set<seq<byte>>, h: History, d: seq<byte>) {
    VP.Parse(d).Some? && exists k: Srtp.Keys, plain :: SealedBy(a, ks, h, VP.Parse(d).value, k, plain)
  }

  ghost predicate GenuineJob(h: History, j: Job) {
    Encoded(h, j.packet.userId, j.packet.sequence, j.packet.timestamp, j.plain)
  }

  ghost predicate GenuineFrame(h: History, u: u32, f: JB.Frame) {
    Encoded(h, u, f.sequence, f.timestamp, f.payload)
  }

  ghost predicate GenuineBuffer(h: History, u: u32, b: JB.Buffer) {
    JB.Inv(b) && b.initial == NEW_SOURCE.buffer.initial && forall k :: k in b.frames ==> GenuineFrame(h, u, b.frames[k])
  }

  ghost predicate ClientKeysIn(ks: set<seq<byte>>, c: Srtp.Client) {
    && (c.ready ==> c.current.masterKey in ks)
    && (c.previous.Some? ==> c.ready && c.previous.value.masterKey in ks)
  }

  ghost predicate EntryKeysIn(ks: set<seq<byte>>, e: Srtp.Entry) {
    && e.current.masterKey in ks
    && (e.previous.Some? ==> e.previous.value.0.masterKey in ks)
  }

  ghost predicate GenuineSources(h: History, sources: map<u32, Source>) {
    forall v :: v in sources ==> GenuineBuffer(h, v, sources[v].buffer)
  }

  /** A client's counters say which tick of its current start comes next. */
  ghost predicate CountersMatch(h: History, e: Endpoint) {
    && e.userId in h && h[e.userId] != []
    && var ticks := |h[e.userId][|h[e.userId]| - 1]|;
       e.txSequence == Wrap(ticks) && e.txTimestamp == Wrap(SAMPLES_PER_FRAME * ticks)
  }

  ghost predicate GoodPeer(ks: set<seq<byte>>, h: History, e: Endpoint) {
    && ClientKeysIn(ks, e.srtp)
    && CountersMatch(h, e)
    && e.userId !in e.sources
    && GenuineSources(h, e.sources)
  }

  ghost predicate GoodPlayback(h: History, p: Playback) {
    p.listener != p.source && (p.frame.payload != [] ==> GenuineFrame(h, p.source, p.frame))
  }

  ghost predicate GoodPeers(ks: set<seq<byte>>, h: History, peers: map<u32, Endpoint>) {
    forall u :: u in peers ==> peers[u].userId == u && GoodPeer(ks, h, peers[u])
  }

  ghost predicate GoodServer(ks: set<seq<byte>>, h: History, sessions: map<int, Srtp.Entry>, tasks: multiset<Job>, pool: seq<seq<byte>>) {
    && (forall id :: id in sessions ==> EntryKeysIn(ks, sessions[id]))
    && (forall j :: j in tasks ==> GenuineJob(h, j))
    && AllEmpty(pool)
  }

  ghost predicate Inv(a: Srtp.Aead, ks: set<seq<byte>>, w: World) {
    && GoodPeers(ks, w.history, w.peers)
    && GoodServer(ks, w.history, w.sessions, w.tasks, w.pool)
    && (forall d :: d in w.wire ==> GenuineDatagram(a, ks, w.history, d))
    && (forall p :: p in w.played ==> GoodPlayback(w.history, p))
  }

  // ---- History only grows ----

  ghost predicate Grows(h: History, h': History) {
    forall u :: u in h ==> u in h' && |h[u]| <= |h'[u]| && forall g :: 0 <= g < |h[u]| ==> h[u][g] <= h'[u][g]
  }

  lemma EncodedGrows(h: History, h': History, u: u32, sequence: u64, timestamp: u64, frame: seq<byte>)
    requires Grows(h, h') && Encoded(h, u, sequence, timestamp, frame)
    ensures Encoded(h', u, sequence, timestamp, frame)
  {
    var g: nat, t: nat :| TickOf(h, u, g, t, sequence, timestamp, frame);
    assert h[u][g] <= h'[u][g];
    assert TickOf(h', u, g, t, sequence, timestamp, frame);
  }

  lemma DatagramGrows(a: Srtp.Aead, ks: set<seq<byte>>, h: History, h': History, d: seq<byte>)
    requires Grows(h, h') && GenuineDatagram(a, ks, h, d)
    ensures GenuineDatagram(a, ks, h', d)
  {
    var p := VP.Parse(d).value;
    var k: Srtp.Keys, plain :| SealedBy(a, ks, h, p, k, plain);
    EncodedGrows(h, h', p.userId, p.sequence, p.timestamp, plain);
    assert SealedBy(a, ks, h', p, k, plain);
  }

  lemma SourcesGrow(h: History, h': History, sources: map<u32, Source>)
    requires Grows(h, h') && GenuineSources(h, sources)
    ensures GenuineSources(h', sources)
  {
    forall v, k | v in sources && k in sources[v].buffer.frames
      ensures GenuineFrame(h', v, sources[v].buffer.frames[k])
    {
      var f := sources[v].buffer.frames[k];
      assert GenuineBuffer(h, v, sources[v].buffer);
      EncodedGrows(h, h', v, f.sequence, f.timestamp, f.payload);
    }
  }

  // ---- Opening a genuine packet gives the encoded frame ----

  lemma OpensToEncoded(a: Srtp.Aead, ks: set<seq<byte>>, h: History, d: seq<byte>, k: Srtp.Keys)
    requires Srtp.Lawful(a) && Srtp.NoCollision(a, ks) && GenuineDatagram(a, ks, h, d) && k.masterKey in ks
    ensures
      var p := VP.Parse(d).value;
      var r := Srtp.OpenWith(a, k, p.sequence, p.payload);
      r.Some? ==> Encoded(h, p.userId, p.sequence, p.timestamp, r.value)
  {
    var p := VP.Parse(d).value;
    var k0: Srtp.Keys, plain :| SealedBy(a, ks, h, p, k0, plain);
    if Srtp.OpenWith(a, k, p.sequence, p.payload).Some? {
      Srtp.OpensOnlyTheSealed(a, ks, k0, k, p.sequence, p.sequence, plain);
    }
  }

  lemma ServerOpens(a: Srtp.Aead, ks: set<seq<byte>>, h: History, d: seq<byte>, e: Option<Srtp.Entry>, now: Srtp.Time)
    requires Srtp.Lawful(a) && Srtp.NoCollision(a, ks) && GenuineDatagram(a, ks, h, d)
    requires e.Some? ==> EntryKeysIn(ks, e.value)
    ensures
      var p := VP.Parse(d).value;
      var r := Srtp.ServerDecrypt(a, e, p.sequence, p.payload, now);
      r.Some? ==> Encoded(h, p.userId, p.sequence, p.timestamp, r.value)
  {
    if e.Some? {
      OpensToEncoded(a, ks, h, d, e.value.current);
      if e.value.previous.Some? { OpensToEncoded(a, ks, h, d, e.value.previous.value.0); }
    }
  }

  lemma ClientOpens(a: Srtp.Aead, ks: set<seq<byte>>, h: History, d: seq<byte>, c: Srtp.Client, now: Srtp.Time)
    requires Srtp.Lawful(a) && Srtp.NoCollision(a, ks) && GenuineDatagram(a, ks, h, d) && ClientKeysIn(ks, c)
    ensures
      var p := VP.Parse(d).value;
      var (c', plain) := Srtp.ClientDecrypt(a, c, p.sequence, p.payload, now);
      && ClientKeysIn(ks, c')
      && (plain != [] ==> Encoded(h, p.userId, p.sequence, p.timestamp, plain))
  {
    if c.ready { OpensToEncoded(a, ks, h, d, c.current); }
    if c.previous.Some? { OpensToEncoded(a, ks, h, d, c.previous.value); }
  }

  // ---- Each step keeps the invariant ----

  lemma PushKeepsGenuine(h: History, u: u32, b: JB.Buffer, f: JB.Frame)
    requires GenuineBuffer(h, u, b) && GenuineFrame(h, u, f)
    ensures GenuineBuffer(h, u, JB.Pushed(b, f))
  {
    JB.PushKeepsInv(b, f);
  }

  lemma PopKeepsGenuine(h: History, u: u32, b: JB.Buffer)
    requires GenuineBuffer(h, u, b)
    ensures GenuineBuffer(h, u, JB.Popped(b).0)
    ensures JB.Popped(b).1.Some? && JB.Popped(b).1.value.payload != [] ==> GenuineFrame(h, u, JB.Popped(b).1.value)
  {
    JB.PopKeepsInv(b);
    JB.PopTakesFromBuffer(b);
  }

  lemma SetSourceKeepsGenuine(h: History, sources: map<u32, Source>, v: u32, s: Source)
    requires GenuineSources(h, sources) && GenuineBuffer(h, v, s.buffer)
    ensures GenuineSources(h, sources[v := s])
  {
  }

  lemma BufferedKeepsGenuine(h: History, sources: map<u32, Source>, p: VP.Packet, plain: seq<byte>)
    requires GenuineSources(h, sources) && Encoded(h, p.userId, p.sequence, p.timestamp, plain)
    ensures GenuineSources(h, Buffered(sources, p, plain))
  {
    var b := SourceOf(sources, p.userId).buffer;
    var f := JB.Frame(p.sequence, p.timestamp, plain);
    assert GenuineBuffer(h, p.userId, b);
    PushKeepsGenuine(h, p.userId, b, f);
    SetSourceKeepsGenuine(h, sources, p.userId, Source(JB.Pushed(b, f), p.channelId));
  }

  lemma ReceivedKeepsPeer(a: Srtp.Aead, ks: set<seq<byte>>, h: History, e: Endpoint, d: seq<byte>, now: Srtp.Time)
    requires Srtp.Lawful(a) && Srtp.NoCollision(a, ks) && GenuineDatagram(a, ks, h, d) && GoodPeer(ks, h, e)
    ensures GoodPeer(ks, h, Received(a, e, d, now)) && Received(a, e, d, now).userId == e.userId
  {
    var p := VP.Parse(d).value;
    ClientOpens(a, ks, h, d, e.srtp, now);
    var plain := Srtp.ClientDecrypt(a, e.srtp, p.sequence, p.payload, now).1;
    if e.srtp.ready && p.userId != e.userId && plain != [] {
      BufferedKeepsGenuine(h, e.sources, p, plain);
    }
  }

  lemma PlayedKeepsPeer(ks: set<seq<byte>>, h: History, e: Endpoint, v: u32)
    requires GoodPeer(ks, h, e)
    ensures GoodPeer(ks, h, Played(e, v).0) && Played(e, v).0.userId == e.userId
    ensures Played(e, v).1.Some? ==> GoodPlayback(h, Playback(e.userId, v, Played(e, v).1.value))
  {
    if v in e.sources { PlayedKeepsSources(h, e.sources, v); }
  }

  lemma PlayedKeepsSources(h: History, sources: map<u32, Source>, v: u32)
    requires GenuineSources(h, sources) && v in sources
    ensures GenuineSources(h, sources[v := sources[v].(buffer := JB.Popped(sources[v].buffer).0)])
    ensures
      var r := JB.Popped(sources[v].buffer).1;
      r.Some? && r.value.payload != [] ==> GenuineFrame(h, v, r.value)
  {
    PopKeepsGenuine(h, v, sources[v].buffer);
    SetSourceKeepsGenuine(h, sources, v, sources[v].(buffer := JB.Popped(sources[v].buffer).0));
  }

  lemma LoggedGrows(h: History, u: u32, frame: seq<byte>)
    requires u in h && h[u] != []
    ensures Grows(h, Logged(h, u, frame))
    ensures
      var g := |h[u]| - 1;
      var h' := Logged(h, u, frame);
      |h'[u]| == g + 1 && h'[u][g] == h[u][g] + [frame] && forall v :: v in h && v != u ==> h'[v] == h[v]
  {
  }

  lemma NextCount(ticks: nat)
    ensures Wrap(Wrap(ticks) + 1) == Wrap(ticks + 1)
    ensures Wrap(Wrap(SAMPLES_PER_FRAME * ticks) + SAMPLES_PER_FRAME) == Wrap(SAMPLES_PER_FRAME * (ticks + 1))
  {
    WrapStep(ticks, 1);
    WrapStep(SAMPLES_PER_FRAME * ticks, SAMPLES_PER_FRAME);
  }

  /** What a tick sends is genuine as soon as its frame is logged. */
  lemma OutgoingIsGenuine(a: Srtp.Aead, ks: set<seq<byte>>, h: History, e: Endpoint, frame: seq<byte>, c: u32)
    requires GoodPeer(ks, h, e) && e.srtp.ready
    ensures GenuineDatagram(a, ks, Logged(h, e.userId, frame), Outgoing(a, e, frame, c))
  {
    var h', g := Logged(h, e.userId, frame), |h[e.userId]| - 1;
    var t := |h[e.userId][g]|;
    LoggedGrows(h, e.userId, frame);
    var p := VP.Packet(VERSION, 0, e.txSequence, e.txTimestamp, c, e.userId, Sealed(a, e, frame));
    VP.ParseSerialize(p);
    assert TickOf(h', e.userId, g, t, e.txSequence, e.txTimestamp, frame);
    assert SealedBy(a, ks, h', p, e.srtp.current, frame);
  }

  lemma PeerGrows(ks: set<seq<byte>>, h: History, h': History, e: Endpoint)
    requires GoodPeer(ks, h, e) && Grows(h, h') && h'[e.userId] == h[e.userId]
    ensures GoodPeer(ks, h', e)
  {
    SourcesGrow(h, h', e.sources);
  }

  lemma TransmitKeepsPeer(a: Srtp.Aead, ks: set<seq<byte>>, h: History, e: Endpoint, targets: set<u32>, frame: seq<byte>)
    requires GoodPeer(ks, h, e) && Transmits(a, e, targets, frame)
    ensures GoodPeer(ks, Logged(h, e.userId, frame), Transmitted(a, e, targets, frame).0)
  {
    LoggedGrows(h, e.userId, frame);
    NextCount(|h[e.userId][|h[e.userId]| - 1]|);
    SourcesGrow(h, Logged(h, e.userId, frame), e.sources);
  }

  lemma SentIsGenuine(a: Srtp.Aead, ks: set<seq<byte>>, h: History, e: Endpoint, targets: set<u32>, frame: seq<byte>, d: seq<byte>)
    requires GoodPeer(ks, h, e) && d in Transmitted(a, e, targets, frame).1
    ensures GenuineDatagram(a, ks, Logged(h, e.userId, frame), d)
  {
    var c :| c in targets && d == Outgoing(a, e, frame, c);
    OutgoingIsGenuine(a, ks, h, e, frame, c);
  }

  lemma FreshPeer(ks: set<seq<byte>>, h: History, u: u32, srtp: Srtp.Client)
    requires ClientKeysIn(ks, srtp)
    ensures GoodPeer(ks, NewStart(h, u), Endpoint(u, srtp, 0, 0, map[]))
  {
  }

  lemma JobsAreGenuine(a: Srtp.Aead, ks: set<seq<byte>>, w: World, d: seq<byte>, now: Srtp.Time, j: Job)
    requires Srtp.Lawful(a) && Srtp.NoCollision(a, ks) && Inv(a, ks, w) && d in w.wire
    requires j in Jobs(a, w.sessions, w.channels, d, now)
    ensures GenuineJob(w.history, j)
  {
    ServerOpens(a, ks, w.history, d, Lookup(w.sessions, AsI32(VP.Parse(d).value.userId)), now);
  }

  /** A datagram built in an empty buffer carries the task's header and text. */
  lemma DatagramIsGenuine(a: Srtp.Aead, ks: set<seq<byte>>, h: History, job: Job, k: Srtp.Keys)
    requires GenuineJob(h, job) && k.masterKey in ks
    ensures Datagram(a, [], job, k)
         == VP.Serialize(job.packet.(payload := Srtp.SealWith(a, k, job.packet.sequence, job.plain)))
    ensures GenuineDatagram(a, ks, h, Datagram(a, [], job, k))
  {
    var p := job.packet.(payload := Srtp.SealWith(a, k, job.packet.sequence, job.plain));
    HeaderIgnoresPayload(job.packet, p.payload);
    VP.ParseSerialize(p);
    assert SealedBy(a, ks, h, p, k, job.plain);
  }

  /** No step takes anything from the history, and only u's own steps add to u's. */
  lemma StepGrowsHistory(a: Srtp.Aead, ks: set<seq<byte>>, w: World, s: Step)
    requires Inv(a, ks, w)
    ensures Grows(w.history, HistoryAfter(a, w, s))
    ensures forall v :: v in w.history && !((s.Connect? || s.Restart? || s.Transmit?) && s.u == v) ==>
                          HistoryAfter(a, w, s)[v] == w.history[v]
  {
    if Ticks(a, w, s) {
      assert GoodPeer(ks, w.history, w.peers[s.u]);
      LoggedGrows(w.history, s.u, s.encoded);
    }
  }

  lemma OthersLeaveClient(a: Srtp.Aead, w: World, s: Step, v: u32)
    requires v in PeersAfter(a, w, s) && !ByClient(s, v)
    ensures v in w.peers && PeersAfter(a, w, s)[v] == w.peers[v]
  {
    match s
    case Connect(_) =>
    case Restart(_) =>
    case Transmit(_, _, _, _) =>
    case Receive(_, _, _) =>
    case Play(_, _) =>
    case ClearSources(_) =>
    case ClientInit(_, _, _) =>
    case _ =>
  }

  /** A step by somebody else, or at the server, leaves v's client and its history. */
  lemma OthersLeavePeer(a: Srtp.Aead, ks: set<seq<byte>>, w: World, s: Step, v: u32)
    requires Inv(a, ks, w) && v in PeersAfter(a, w, s) && !ByClient(s, v)
    ensures v in w.peers && PeersAfter(a, w, s)[v] == w.peers[v]
    ensures v in w.history ==> v in HistoryAfter(a, w, s) && HistoryAfter(a, w, s)[v] == w.history[v]
  {
    OthersLeaveClient(a, w, s, v);
    StepGrowsHistory(a, ks, w, s);
  }

  /** A step of client v. */
  predicate ByClient(s: Step, v: u32) {
    || s == Connect(v) || s == Restart(v) || s == ClearSources(v)
    || ((s.Transmit? || s.Receive? || s.Play? || s.ClientInit?) && s.u == v)
  }

  lemma OwnStepKeepsPeer(a: Srtp.Aead, ks: set<seq<byte>>, w: World, s: Step, v: u32)
    requires Srtp.Lawful(a) && Srtp.NoCollision(a, ks) && (forall d :: d in w.wire ==> GenuineDatagram(a, ks, w.history, d))
    requires v in w.peers && w.peers[v].userId == v && GoodPeer(ks, w.history, w.peers[v])
    requires StepKeysIn(ks, s) && ByClient(s, v) && !s.Connect?
    ensures v in PeersAfter(a, w, s)
    ensures PeersAfter(a, w, s)[v].userId == v && GoodPeer(ks, HistoryAfter(a, w, s), PeersAfter(a, w, s)[v])
  {
    match s
    case Restart(_) => FreshPeer(ks, w.history, v, w.peers[v].srtp);
    case Transmit(_, openMic, ptt, encoded) =>
      if Ticks(a, w, s) { TransmitKeepsPeer(a, ks, w.history, w.peers[v], Targets(openMic, ptt), encoded); }
    case Receive(_, data, now) =>
      if data in w.wire { ReceivedKeepsPeer(a, ks, w.history, w.peers[v], data, now); }
    case Play(_, source) => PlayedKeepsPeer(ks, w.history, w.peers[v], source);
    case ClearSources(_) =>
    case ClientInit(_, _, _) =>
  }

  lemma StepKeepsPeer(a: Srtp.Aead, ks: set<seq<byte>>, w: World, s: Step, v: u32)
    requires Srtp.Lawful(a) && Srtp.NoCollision(a, ks) && Inv(a, ks, w) && StepKeysIn(ks, s) && v in PeersAfter(a, w, s)
    ensures PeersAfter(a, w, s)[v].userId == v && GoodPeer(ks, HistoryAfter(a, w, s), PeersAfter(a, w, s)[v])
  {
    if s == Connect(v) {
      FreshPeer(ks, w.history, v, Srtp.NEW_CLIENT);
    } else if ByClient(s, v) {
      assert GoodPeer(ks, w.history, w.peers[v]) && w.peers[v].userId == v;
      OwnStepKeepsPeer(a, ks, w, s, v);
    } else {
      OthersLeavePeer(a, ks, w, s, v);
      assert GoodPeer(ks, w.history, w.peers[v]) && w.peers[v].userId == v;
      StepGrowsHistory(a, ks, w, s);
      PeerGrows(ks, w.history, HistoryAfter(a, w, s), w.peers[v]);
    }
  }

  lemma StepKeepsTasks(a: Srtp.Aead, ks: set<seq<byte>>, w: World, s: Step, j: Job)
    requires Srtp.Lawful(a) && Srtp.NoCollision(a, ks) && Inv(a, ks, w) && j in TasksAfter(a, w, s)
    ensures GenuineJob(w.history, j)
  {
    if j !in w.tasks { JobsAreGenuine(a, ks, w, s.data, s.now, j); }
  }

  lemma StepKeepsServer(a: Srtp.Aead, ks: set<seq<byte>>, capacity: nat, w: World, s: Step)
    requires Inv(a, ks, w) && StepKeysIn(ks, s)
    ensures forall id :: id in SessionsAfter(w.sessions, s) ==> EntryKeysIn(ks, SessionsAfter(w.sessions, s)[id])
    ensures AllEmpty(PoolAfter(w, capacity, s))
  {
    RecycledBuffersAreEmpty(w.pool, capacity, []);
  }

  lemma StepKeepsWire(a: Srtp.Aead, ks: set<seq<byte>>, w: World, s: Step, d: seq<byte>)
    requires Inv(a, ks, w) && d in WireAfter(a, w, s)
    ensures GenuineDatagram(a, ks, HistoryAfter(a, w, s), d)
  {
    StepGrowsHistory(a, ks, w, s);
    if d in w.wire {
      DatagramGrows(a, ks, w.history, HistoryAfter(a, w, s), d);
    } else if Ticks(a, w, s) {
      assert GoodPeer(ks, w.history, w.peers[s.u]) && w.peers[s.u].userId == s.u;
      SentIsGenuine(a, ks, w.history, w.peers[s.u], Targets(s.openMic, s.ptt), s.encoded, d);
    } else {
      RecycledBuffersAreEmpty(w.pool, 0, []);
      assert EntryKeysIn(ks, w.sessions[s.job.recipient]);
      DatagramIsGenuine(a, ks, w.history, s.job, w.sessions[s.job.recipient].current);
    }
  }

  lemma StepKeepsPlayed(a: Srtp.Aead, ks: set<seq<byte>>, w: World, s: Step, p: Playback)
    requires Inv(a, ks, w) && p in PlayedAfter(w, s)
    ensures GoodPlayback(HistoryAfter(a, w, s), p)
  {
    StepGrowsHistory(a, ks, w, s);
    if p in w.played {
      if p.frame.payload != [] {
        EncodedGrows(w.history, HistoryAfter(a, w, s), p.source, p.frame.sequence, p.frame.timestamp, p.frame.payload);
      }
    } else {
      assert GoodPeer(ks, w.history, w.peers[s.u]) && w.peers[s.u].userId == s.u;
      PlayedKeepsPeer(ks, w.history, w.peers[s.u], s.source);
    }
  }

  /** Every step of clients, network and server keeps the invariant. */
  lemma StepKeepsInv(a: Srtp.Aead, ks: set<seq<byte>>, capacity: nat, w: World, s: Step)
    requires Srtp.Lawful(a) && Srtp.NoCollision(a, ks) && Inv(a, ks, w) && StepKeysIn(ks, s)
    ensures Inv(a, ks, Next(a, capacity, w, s))
  {
    var h' := HistoryAfter(a, w, s);
    StepGrowsHistory(a, ks, w, s);
    StepKeepsServer(a, ks, capacity, w, s);
    forall v | v in PeersAfter(a, w, s) ensures PeersAfter(a, w, s)[v].userId == v && GoodPeer(ks, h', PeersAfter(a, w, s)[v]) {
      StepKeepsPeer(a, ks, w, s, v);
    }
    forall j | j in TasksAfter(a, w, s) ensures GenuineJob(h', j) {
      StepKeepsTasks(a, ks, w, s, j);
      EncodedGrows(w.history, h', j.packet.userId, j.packet.sequence, j.packet.timestamp, j.plain);
    }
    forall d | d in WireAfter(a, w, s) ensures GenuineDatagram(a, ks, h', d) {
      StepKeepsWire(a, ks, w, s, d);
    }
    forall p | p in PlayedAfter(w, s) ensures GoodPlayback(h', p) {
      StepKeepsPlayed(a, ks, w, s, p);
    }
  }

  lemma {:induction false} RunKeepsInv(a: Srtp.Aead, ks: set<seq<byte>>, capacity: nat, w: World, steps: seq<Step>)
    requires Srtp.Lawful(a) && Srtp.NoCollision(a, ks) && Inv(a, ks, w)
    requires forall i :: 0 <= i < |steps| ==> StepKeysIn(ks, steps[i])
    ensures Inv(a, ks, Run(a, capacity, w, steps))
    decreases |steps|
  {
    if steps != [] {
      StepKeepsInv(a, ks, capacity, w, steps[0]);
      RunKeepsInv(a, ks, capacity, Next(a, capacity, w, steps[0]), steps[1..]);
    }
  }

  // ---- Main results ----

  /**
   * Voice integrity. In every run, whatever the network loses, repeats, reorders or misdelivers,
   * however keys rotate and buffers are reused: a frame played for user u at sequence s is a loss
   * signal or a frame u encoded at a tick numbered s, and it is never the listener's own.
   */
  lemma PlayedIsEncoded(a: Srtp.Aead, ks: set<seq<byte>>, capacity: nat, pool: seq<seq<byte>>, steps: seq<Step>, p: Playback)
    requires Srtp.Lawful(a) && Srtp.NoCollision(a, ks) && AllEmpty(pool)
    requires forall i :: 0 <= i < |steps| ==> StepKeysIn(ks, steps[i])
    requires p in Run(a, capacity, Start(pool), steps).played
    ensures p.listener != p.source
    ensures p.frame.payload != [] ==>
              Encoded(Run(a, capacity, Start(pool), steps).history, p.source, p.frame.sequence, p.frame.timestamp, p.frame.payload)
  {
    assert Inv(a, ks, Start(pool));
    RunKeepsInv(a, ks, capacity, Start(pool), steps);
  }

  /** Every earlier start of u is a prefix of its current one; in particular when there is no earlier one. */
  ghost predicate StartsAgree(h: History, u: u32) {
    u in h && h[u] != [] && forall g :: 0 <= g < |h[u]| - 1 ==> h[u][g] <= h[u][|h[u]| - 1]
  }

  lemma AgreeingStartsOneTick(h: History, u: u32, sequence: u64, timestamp: u64, frame: seq<byte>)
    requires Encoded(h, u, sequence, timestamp, frame) && StartsAgree(h, u) && |h[u][|h[u]| - 1]| <= TWO64
    ensures TickOf(h, u, |h[u]| - 1, sequence, sequence, timestamp, frame)
  {
    var g: nat, t: nat :| TickOf(h, u, g, t, sequence, timestamp, frame);
    assert h[u][g] <= h[u][|h[u]| - 1];
  }

  /**
   * Within one start, or when the earlier ones sent only what the current one repeated, and before the
   * counter wraps, that tick is unique: it is exactly tick s of the current start.
   */
  lemma PlayedIsExactlyTheTick(a: Srtp.Aead, ks: set<seq<byte>>, capacity: nat, pool: seq<seq<byte>>, steps: seq<Step>, p: Playback)
    requires Srtp.Lawful(a) && Srtp.NoCollision(a, ks) && AllEmpty(pool)
    requires forall i :: 0 <= i < |steps| ==> StepKeysIn(ks, steps[i])
    requires p in Run(a, capacity, Start(pool), steps).played && p.frame.payload != []
    ensures
      var h := Run(a, capacity, Start(pool), steps).history;
      StartsAgree(h, p.source) ==>
        var current := h[p.source][|h[p.source]| - 1];
        |current| <= TWO64 ==>
          && p.frame.sequence < |current| && p.frame.payload == current[p.frame.sequence]
          && p.frame.timestamp == Wrap(SAMPLES_PER_FRAME * p.frame.sequence)
  {
    PlayedIsEncoded(a, ks, capacity, pool, steps, p);
    var h := Run(a, capacity, Start(pool), steps).history;
    if StartsAgree(h, p.source) && |h[p.source][|h[p.source]| - 1]| <= TWO64 {
      AgreeingStartsOneTick(h, p.source, p.frame.sequence, p.frame.timestamp, p.frame.payload);
    }
  }

  // ---- What a tick sends, and what becomes of the buffers ----

  /**
   * With a session and an encoded frame, a tick puts on the wire exactly one datagram for each open-mic
   * channel and for the held push-to-talk channel, logs the frame and advances both counters once.
   * Without them, or without such a channel, it changes nothing.
   */
  lemma TickIsSentToEach(a: Srtp.Aead, capacity: nat, w: World, u: u32, openMic: set<u32>, ptt: Option<u32>, encoded: seq<byte>)
    requires Srtp.Lawful(a) && u in w.peers
    ensures
      var e, after := w.peers[u], Next(a, capacity, w, Transmit(u, openMic, ptt, encoded));
      if e.srtp.ready && encoded != [] && (openMic != {} || ptt.Some?) then
        && (forall d :: d in after.wire <==>
              d in w.wire || exists c: u32 :: (c in openMic || ptt == Some(c)) && d == NextDatagram(a, e, encoded, c))
        && after.history == Logged(w.history, u, encoded)
        && after.peers == w.peers[u := e.(txSequence := Wrap(e.txSequence + 1), txTimestamp := Wrap(e.txTimestamp + 960))]
      else after.wire == w.wire && after.history == w.history && after.peers == w.peers
  {
    var e := w.peers[u];
    TickSends(a, e, openMic, ptt, encoded);
    assert |Srtp.SealWith(a, e.srtp.current, e.txSequence, encoded)| == |encoded| + Srtp.GCM_TAG_SIZE;
  }

  /**
   * How often each task waits: one more for each datagram the server reads and opens with that task's
   * recipient among the other members, one less when it runs or is skipped.
   */
  lemma TasksAreCounted(a: Srtp.Aead, capacity: nat, w: World, s: Step, j: Job)
    ensures
      var starts := s.ServerReceive? && s.data in w.wire && j in Jobs(a, w.sessions, w.channels, s.data, s.now);
      var ends := (s == ServerSend(j) || s == ServerSkip(j)) && j in w.tasks;
      Next(a, capacity, w, s).tasks[j] == w.tasks[j] + (if starts then 1 else 0) - (if ends then 1 else 0)
  {
  }

  /** What a client forgets: all on connecting, its sources and counters on a new start, its sources on changing channel. */
  lemma ClientForgets(a: Srtp.Aead, capacity: nat, w: World, u: u32)
    requires u in w.peers
    ensures Next(a, capacity, w, Connect(u)).peers[u] == Endpoint(u, Srtp.NEW_CLIENT, 0, 0, map[])
    ensures Next(a, capacity, w, Restart(u)).peers[u] == w.peers[u].(txSequence := 0, txTimestamp := 0, sources := map[])
    ensures Next(a, capacity, w, ClearSources(u)).peers[u] == w.peers[u].(sources := map[])
  {
  }

  /** What the pool holds and what tasks hold: never less than the pool was made with, and never more in the pool. */
  ghost predicate BuffersKept(capacity: nat, w: World) {
    |w.pool| <= capacity <= |w.pool| + |w.held|
  }

  /** In every run no buffer is lost: when no task holds one, the pool is full again. */
  lemma {:induction false} BuffersAreConserved(a: Srtp.Aead, capacity: nat, w: World, steps: seq<Step>)
    requires BuffersKept(capacity, w)
    ensures BuffersKept(capacity, Run(a, capacity, w, steps))
    ensures Run(a, capacity, w, steps).held == multiset{} ==> |Run(a, capacity, w, steps).pool| == capacity
    decreases |steps|
  {
    if steps != [] {
      StepKeepsBuffers(a, capacity, w, steps[0]);
      BuffersAreConserved(a, capacity, Next(a, capacity, w, steps[0]), steps[1..]);
    }
  }

  lemma StepKeepsBuffers(a: Srtp.Aead, capacity: nat, w: World, s: Step)
    requires BuffersKept(capacity, w)
    ensures BuffersKept(capacity, Next(a, capacity, w, s))
  {
    if Sends(w, s) {
      assert |HeldAfter(a, w, s)| == |w.held| + 1;
    } else if s.ServerRelease? && s.buf in w.held {
      assert |HeldAfter(a, w, s)| == |w.held| - 1;
    } else if s.ServerRelease? {
      assert HeldAfter(a, w, s) == w.held;
    }
  }
}
