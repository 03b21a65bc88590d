/**
 * Frames of a sender's earlier starts after it has started again: what is stale, where live copies can
 * be, and why without a live copy none is ever played.
 */
module StaleFrames {
  import opened Bits
  import opened Options
  import opened Managers
  import opened VoicePath
  import opened Runs
  import opened EndToEnd
  import opened Deliveries
  import VP = VoicePackets
  import Srtp
  import JB = JitterBuffers

  // ---- u's current start, and what of it stays ----

  predicate StartsAgain(s: Step, u: u32) {
    s == Connect(u) || s == Restart(u)
  }

  /** Start g of u has this frame at this number and time. */
  ghost predicate InStart(h: History, u: u32, g: nat, f: JB.Frame) {
    exists t: nat :: TickOf(h, u, g, t, f.sequence, f.timestamp, f.payload)
  }

  ghost predicate InCurrent(h: History, u: u32, f: JB.Frame) {
    u in h && h[u] != [] && InStart(h, u, |h[u]| - 1, f)
  }

  /** A frame to be heard that is not a tick of u's current start. */
  ghost predicate IsStale(h: History, u: u32, f: JB.Frame) {
    f.payload != [] && !InCurrent(h, u, f)
  }

  function FrameOf(p: VP.Packet, plain: seq<byte>): JB.Frame {
    JB.Frame(p.sequence, p.timestamp, plain)
  }

  /** While u does not start again, what is in its current start stays there. */
  lemma StepKeepsCurrent(a: Srtp.Aead, w: World, s: Step, u: u32, f: JB.Frame)
    requires !StartsAgain(s, u) && !IsStale(w.history, u, f)
    ensures !IsStale(HistoryAfter(a, w, s), u, f)
  {
    if f.payload != [] {
      var h, h', g := w.history, HistoryAfter(a, w, s), |w.history[u]| - 1;
      var t: nat :| TickOf(h, u, g, t, f.sequence, f.timestamp, f.payload);
      assert TickOf(h', u, |h'[u]| - 1, t, f.sequence, f.timestamp, f.payload);
    }
  }

  /** With u silent too, its history stays as it is. */
  lemma {:induction false} QuietRunKeepsHistory(a: Srtp.Aead, capacity: nat, w: World, steps: seq<Step>, u: u32)
    requires u in w.history && forall s :: s in steps ==> !StartsAgain(s, u) && !s.Transmit?
    ensures u in Run(a, capacity, w, steps).history && Run(a, capacity, w, steps).history[u] == w.history[u]
    decreases |steps|
  {
    if steps != [] {
      assert steps[0] in steps && HistoryAfter(a, w, steps[0])[u] == w.history[u];
      QuietRunKeepsHistory(a, capacity, Next(a, capacity, w, steps[0]), steps[1..], u);
    }
  }

  lemma SameTicksSameStale(h: History, h': History, u: u32, f: JB.Frame)
    requires (u in h <==> u in h') && (u in h ==> h[u] == h'[u])
    ensures IsStale(h, u, f) <==> IsStale(h', u, f)
  {
    forall g: nat, t: nat ensures TickOf(h, u, g, t, f.sequence, f.timestamp, f.payload)
                             <==> TickOf(h', u, g, t, f.sequence, f.timestamp, f.payload) { }
  }

  // ---- Continuations ----

  /** What every step of the code respects: channels hold user ids, and keys are among ks. */
  ghost predicate Allowed(ks: set<seq<byte>>, s: Step) {
    && StepKeysIn(ks, s)
    && (s.Regroup? ==> forall c, r :: c in s.channels && r in s.channels[c] ==> IsI32(r))
  }

  /**
   * What has been installed when a continuation begins. `used` holds the master keys; `inFlight` is the key
   * of u's answer, if one is on its way: u's client has it, and the server takes it on reading the answer.
   */
  datatype Past = Past(used: set<seq<byte>>, inFlight: Option<Srtp.Keys>)

  /**
   * Every key comes from the fresh secrets of one exchange, and is installed by the client first and by the
   * server later. So other clients install only keys that have never been installed, and the server's entry
   * for u gets such a key, or the one of the answer in flight. Entries of other users may get any key.
   */
  ghost predicate InstallsInOrder(past: Past, u: u32, s: Step) {
    && (s.ClientInit? && s.u != u ==> s.keys.masterKey !in past.used)
    && (s.ServerInit? && s.id == AsI32(u) ==> s.keys.masterKey !in past.used || past.inFlight == Some(s.keys))
  }

  ghost predicate NotBefore(now: Srtp.Time, s: Step) {
    (s.ServerReceive? || s.Receive? || s.ClientInit? || s.ServerInit?) ==> s.now >= now
  }

  ghost predicate Continues(ks: set<seq<byte>>, past: Past, u: u32, now: Srtp.Time, s: Step) {
    Allowed(ks, s) && InstallsInOrder(past, u, s) && NotBefore(now, s) && !StartsAgain(s, u)
  }

  /** From time now on, without a new start of u, a frame of u is played that is not in its current start. */
  ghost predicate PlaysStale(a: Srtp.Aead, ks: set<seq<byte>>, past: Past, capacity: nat, w: World, u: u32,
                             now: Srtp.Time, more: seq<Step>, p: Playback) {
    && (forall s :: s in more ==> Continues(ks, past, u, now, s))
    && var done := Run(a, capacity, w.(played := {}), more);
       p in done.played && p.source == u && IsStale(done.history, u, p.frame)
  }

  // ---- Where a live copy of such a frame can be ----

  /** A datagram of u. */
  predicate IsOf(u: u32, d: seq<byte>) {
    VP.Parse(d).Some? && VP.Parse(d).value.userId == u
  }

  /**
   * Where a frame can be: in a datagram that the server opens with its keys for u, that it will open with
   * the key of u's answer in flight, or that client v opens; in a task of the server; or in the buffer
   * of listener v.
   */
  datatype Copy =
    | AtServer(d: seq<byte>)
    | AfterAnswer(d: seq<byte>)
    | AtClient(d: seq<byte>, v: u32)
    | InTask(job: Job)
    | InBuffer(v: u32, key: u64)

  /** The frame there, if it can be had now. */
  function Held(a: Srtp.Aead, w: World, u: u32, past: Past, now: Srtp.Time, c: Copy): Option<JB.Frame> {
    match c
    case AtServer(d) =>
      if d !in w.wire || !IsOf(u, d) then None
      else
        var p := VP.Parse(d).value;
        var r := Srtp.ServerDecrypt(a, Lookup(w.sessions, AsI32(u)), p.sequence, p.payload, now);
        if r.Some? then Some(FrameOf(p, r.value)) else None
    case AfterAnswer(d) =>
      if d !in w.wire || !IsOf(u, d) || past.inFlight.None? then None
      else
        var p := VP.Parse(d).value;
        var r := Srtp.OpenWith(a, past.inFlight.value, p.sequence, p.payload);
        if r.Some? then Some(FrameOf(p, r.value)) else None
    case AtClient(d, v) =>
      if d !in w.wire || !IsOf(u, d) || v !in w.peers || v == u then None
      else
        var p := VP.Parse(d).value;
        Some(FrameOf(p, Srtp.ClientDecrypt(a, w.peers[v].srtp, p.sequence, p.payload, now).1))
    case InTask(job) =>
      if job in w.tasks && job.packet.userId == u then Some(FrameOf(job.packet, job.plain)) else None
    case InBuffer(v, key) =>
      if v in w.peers && u in w.peers[v].sources && key in w.peers[v].sources[u].buffer.frames
      then Some(w.peers[v].sources[u].buffer.frames[key]) else None
  }

  ghost predicate IsLive(a: Srtp.Aead, w: World, u: u32, past: Past, now: Srtp.Time, c: Copy) {
    var f := Held(a, w, u, past, now, c);
    f.Some? && IsStale(w.history, u, f.value)
  }

  ghost predicate HasLiveCopy(a: Srtp.Aead, w: World, u: u32, past: Past, now: Srtp.Time) {
    exists c :: IsLive(a, w, u, past, now, c)
  }

  // ---- Without a live copy none is ever played ----

  predicate Opens(a: Srtp.Aead, k: Srtp.Keys, p: VP.Packet) {
    Srtp.OpenWith(a, k, p.sequence, p.payload).Some?
  }

  /** The server will not open p with these keys, now or later. */
  predicate ServerShut(a: Srtp.Aead, e: Option<Srtp.Entry>, p: VP.Packet, now: Srtp.Time) {
    e.Some? ==>
      && !Opens(a, e.value.current, p)
      && (e.value.previous.Some? && Opens(a, e.value.previous.value.0, p) ==>
            now - e.value.previous.value.1 >= Srtp.DUAL_KEY_WINDOW)
  }

  predicate ClientShut(a: Srtp.Aead, c: Srtp.Client, p: VP.Packet, now: Srtp.Time) {
    c.ready ==>
      && !Opens(a, c.current, p)
      && (c.previous.Some? && Opens(a, c.previous.value, p) ==> now - c.rotationTime >= Srtp.DUAL_KEY_WINDOW)
  }

  /** p was sealed under a used key, over text that is stale, or not. */
  ghost predicate SealedUnder(a: Srtp.Aead, ks: set<seq<byte>>, p: VP.Packet, k: Srtp.Keys, plain: seq<byte>) {
    k.masterKey in ks && p.payload == Srtp.SealWith(a, k, p.sequence, plain)
  }

  ghost predicate IsCurrent(a: Srtp.Aead, ks: set<seq<byte>>, h: History, u: u32, p: VP.Packet) {
    exists k, plain :: SealedUnder(a, ks, p, k, plain) && !IsStale(h, u, FrameOf(p, plain))
  }

  /** Sealed under an old key that nobody can use for it any more. */
  ghost predicate IsLocked(a: Srtp.Aead, past: Past, w: World, u: u32, p: VP.Packet, now: Srtp.Time) {
    && (exists k, plain :: SealedUnder(a, past.used, p, k, plain))
    && (past.inFlight.Some? ==> !Opens(a, past.inFlight.value, p))
    && ServerShut(a, Lookup(w.sessions, AsI32(u)), p, now)
    && forall v :: v in w.peers && v != u ==> ClientShut(a, w.peers[v].srtp, p, now)
  }

  ghost predicate WireQuiet(a: Srtp.Aead, ks: set<seq<byte>>, past: Past, w: World, u: u32, now: Srtp.Time) {
    forall d :: d in w.wire && IsOf(u, d) ==>
                  IsCurrent(a, ks, w.history, u, VP.Parse(d).value) || IsLocked(a, past, w, u, VP.Parse(d).value, now)
  }

  ghost predicate TasksQuiet(w: World, u: u32) {
    forall j :: j in w.tasks && j.packet.userId == u ==> !IsStale(w.history, u, FrameOf(j.packet, j.plain))
  }

  ghost predicate BufferQuiet(h: History, u: u32, sources: map<u32, Source>) {
    u in sources ==> forall k :: k in sources[u].buffer.frames ==> !IsStale(h, u, sources[u].buffer.frames[k])
  }

  ghost predicate PlayedQuiet(w: World, u: u32) {
    forall p :: p in w.played && p.source == u ==> !IsStale(w.history, u, p.frame)
  }

  ghost predicate Quiet(a: Srtp.Aead, ks: set<seq<byte>>, past: Past, w: World, u: u32, now: Srtp.Time) {
    && WireQuiet(a, ks, past, w, u, now)
    && TasksQuiet(w, u)
    && (forall v :: v in w.peers ==> BufferQuiet(w.history, u, w.peers[v].sources))
    && PlayedQuiet(w, u)
  }

  /** Whatever opens a current packet yields a frame of the current start. */
  lemma CurrentOpensToCurrent(a: Srtp.Aead, ks: set<seq<byte>>, h: History, u: u32, p: VP.Packet, k: Srtp.Keys)
    requires Srtp.Lawful(a) && Srtp.NoCollision(a, ks) && IsCurrent(a, ks, h, u, p) && k.masterKey in ks && Opens(a, k, p)
    ensures !IsStale(h, u, FrameOf(p, Srtp.OpenWith(a, k, p.sequence, p.payload).value))
  {
    var k0: Srtp.Keys, plain :| SealedUnder(a, ks, p, k0, plain) && !IsStale(h, u, FrameOf(p, plain));
    Srtp.OpensOnlyTheSealed(a, ks, k0, k, p.sequence, p.sequence, plain);
  }

  lemma ServerOpensCurrent(a: Srtp.Aead, ks: set<seq<byte>>, past: Past, w: World, u: u32, p: VP.Packet,
                           now: Srtp.Time, at: Srtp.Time)
    requires Srtp.Lawful(a) && Srtp.NoCollision(a, ks) && now <= at
    requires AsI32(u) in w.sessions ==> EntryKeysIn(ks, w.sessions[AsI32(u)])
    requires IsCurrent(a, ks, w.history, u, p) || IsLocked(a, past, w, u, p, now)
    ensures
      var r := Srtp.ServerDecrypt(a, Lookup(w.sessions, AsI32(u)), p.sequence, p.payload, at);
      r.Some? ==> !IsStale(w.history, u, FrameOf(p, r.value))
  {
    if AsI32(u) in w.sessions && IsCurrent(a, ks, w.history, u, p) {
      var e := w.sessions[AsI32(u)];
      if Opens(a, e.current, p) { CurrentOpensToCurrent(a, ks, w.history, u, p, e.current); }
      if e.previous.Some? && Opens(a, e.previous.value.0, p) {
        CurrentOpensToCurrent(a, ks, w.history, u, p, e.previous.value.0);
      }
    }
  }

  lemma ClientOpensCurrent(a: Srtp.Aead, ks: set<seq<byte>>, past: Past, w: World, u: u32, v: u32, p: VP.Packet,
                           now: Srtp.Time, at: Srtp.Time)
    requires Srtp.Lawful(a) && Srtp.NoCollision(a, ks) && now <= at && v in w.peers && v != u && ClientKeysIn(ks, w.peers[v].srtp)
    requires IsCurrent(a, ks, w.history, u, p) || IsLocked(a, past, w, u, p, now)
    ensures !IsStale(w.history, u, FrameOf(p, Srtp.ClientDecrypt(a, w.peers[v].srtp, p.sequence, p.payload, at).1))
  {
    var c := w.peers[v].srtp;
    if c.ready && IsCurrent(a, ks, w.history, u, p) {
      if Opens(a, c.current, p) { CurrentOpensToCurrent(a, ks, w.history, u, p, c.current); }
      if c.previous.Some? && Opens(a, c.previous.value, p) {
        CurrentOpensToCurrent(a, ks, w.history, u, p, c.previous.value);
      }
    }
  }

  // ---- The four parts, step by step ----

  lemma StepKeepsTasksQuiet(a: Srtp.Aead, ks: set<seq<byte>>, past: Past, w: World, s: Step, u: u32, now: Srtp.Time, j: Job)
    requires Srtp.Lawful(a) && Srtp.NoCollision(a, ks) && Inv(a, ks, w) && Quiet(a, ks, past, w, u, now)
    requires Continues(ks, past, u, now, s) && j in TasksAfter(a, w, s) && j.packet.userId == u
    ensures !IsStale(HistoryAfter(a, w, s), u, FrameOf(j.packet, j.plain))
  {
    if j !in w.tasks { ServerOpensCurrent(a, ks, past, w, u, j.packet, now, s.now); }
    StepKeepsCurrent(a, w, s, u, FrameOf(j.packet, j.plain));
  }

  lemma PushKeepsQuiet(h: History, u: u32, sources: map<u32, Source>, p: VP.Packet, plain: seq<byte>)
    requires BufferQuiet(h, u, sources) && (p.userId == u ==> !IsStale(h, u, FrameOf(p, plain)))
    ensures BufferQuiet(h, u, Buffered(sources, p, plain))
  {
  }

  lemma ReceiveKeepsBufferQuiet(a: Srtp.Aead, ks: set<seq<byte>>, past: Past, w: World, u: u32, v: u32, data: seq<byte>,
                                now: Srtp.Time, at: Srtp.Time)
    requires Srtp.Lawful(a) && Srtp.NoCollision(a, ks) && Inv(a, ks, w) && WireQuiet(a, ks, past, w, u, now)
    requires now <= at && v in w.peers && data in w.wire && BufferQuiet(w.history, u, w.peers[v].sources)
    ensures BufferQuiet(w.history, u, Received(a, w.peers[v], data, at).sources)
  {
    var e := w.peers[v];
    assert GoodPeer(ks, w.history, e) && e.userId == v;
    if VP.Parse(data).Some? {
      var p := VP.Parse(data).value;
      if p.userId != v {
        if p.userId == u { ClientOpensCurrent(a, ks, past, w, u, v, p, now, at); }
        PushKeepsQuiet(w.history, u, e.sources, p, Srtp.ClientDecrypt(a, e.srtp, p.sequence, p.payload, at).1);
      }
    }
  }

  lemma PlayKeepsBufferQuiet(h: History, u: u32, e: Endpoint, source: u32)
    requires BufferQuiet(h, u, e.sources)
    ensures BufferQuiet(h, u, Played(e, source).0.sources)
    ensures Played(e, u).1.Some? ==> !IsStale(h, u, Played(e, u).1.value)
  {
    if source in e.sources { JB.PopTakesFromBuffer(e.sources[source].buffer); }
    if u in e.sources { JB.PopTakesFromBuffer(e.sources[u].buffer); }
  }

  lemma QuietAfterHistory(a: Srtp.Aead, w: World, s: Step, u: u32, sources: map<u32, Source>)
    requires !StartsAgain(s, u) && BufferQuiet(w.history, u, sources)
    ensures BufferQuiet(HistoryAfter(a, w, s), u, sources)
  {
    if u in sources {
      forall k | k in sources[u].buffer.frames ensures !IsStale(HistoryAfter(a, w, s), u, sources[u].buffer.frames[k]) {
        StepKeepsCurrent(a, w, s, u, sources[u].buffer.frames[k]);
      }
    }
  }

  lemma OtherStepsLeaveBuffers(a: Srtp.Aead, w: World, s: Step, v: u32)
    requires v in PeersAfter(a, w, s) && !(s.Play? && s.u == v) && !(s.Receive? && s.u == v)
    ensures PeersAfter(a, w, s)[v].sources == map[] || (v in w.peers && PeersAfter(a, w, s)[v].sources == w.peers[v].sources)
  {
  }

  lemma StepKeepsBuffersQuiet(a: Srtp.Aead, ks: set<seq<byte>>, past: Past, w: World, s: Step, u: u32, now: Srtp.Time, v: u32)
    requires Srtp.Lawful(a) && Srtp.NoCollision(a, ks) && Inv(a, ks, w) && WireQuiet(a, ks, past, w, u, now)
    requires v in w.peers ==> BufferQuiet(w.history, u, w.peers[v].sources)
    requires Continues(ks, past, u, now, s) && v in PeersAfter(a, w, s)
    ensures BufferQuiet(HistoryAfter(a, w, s), u, PeersAfter(a, w, s)[v].sources)
  {
    if s.Receive? && s.u == v {
      if s.data in w.wire { ReceiveKeepsBufferQuiet(a, ks, past, w, u, v, s.data, now, s.now); }
    } else if s.Play? && s.u == v {
      PlayKeepsBufferQuiet(w.history, u, w.peers[v], s.source);
    } else {
      OtherStepsLeaveBuffers(a, w, s, v);
    }
    QuietAfterHistory(a, w, s, u, PeersAfter(a, w, s)[v].sources);
  }

  lemma StepKeepsPlayedQuiet(a: Srtp.Aead, ks: set<seq<byte>>, past: Past, w: World, s: Step, u: u32, now: Srtp.Time, p: Playback)
    requires Quiet(a, ks, past, w, u, now) && !StartsAgain(s, u) && p in PlayedAfter(w, s) && p.source == u
    ensures !IsStale(HistoryAfter(a, w, s), u, p.frame)
  {
    if p !in w.played { PlayKeepsBufferQuiet(w.history, u, w.peers[s.u], u); }
    StepKeepsCurrent(a, w, s, u, p.frame);
  }

  /** A fresh key opens nothing sealed under a used one, so installing it leaves the locked packets locked. */
  lemma FreshKeyOpensNothing(a: Srtp.Aead, ks: set<seq<byte>>, used: set<seq<byte>>, p: VP.Packet, newKeys: Srtp.Keys)
    requires Srtp.Lawful(a) && Srtp.NoCollision(a, ks) && used <= ks && newKeys.masterKey in ks && newKeys.masterKey !in used
    requires exists k, plain :: SealedUnder(a, used, p, k, plain)
    ensures !Opens(a, newKeys, p)
  {
    var k: Srtp.Keys, plain :| SealedUnder(a, used, p, k, plain);
    if Opens(a, newKeys, p) { Srtp.OpensOnlyTheSealed(a, ks, k, newKeys, p.sequence, p.sequence, plain); }
  }

  lemma InstallKeepsShut(a: Srtp.Aead, e: Option<Srtp.Entry>, c: Srtp.Client, p: VP.Packet, newKeys: Srtp.Keys, now: Srtp.Time, at: Srtp.Time)
    requires !Opens(a, newKeys, p)
    ensures ServerShut(a, e, p, now) ==> ServerShut(a, Some(Srtp.ServerInstall(e, newKeys, at)), p, now)
    ensures ClientShut(a, c, p, now) && (c.previous.Some? ==> c.ready) ==> ClientShut(a, Srtp.ClientInstall(c, newKeys, at), p, now)
  {
  }

  lemma StepKeepsServerShut(a: Srtp.Aead, ks: set<seq<byte>>, past: Past, w: World, s: Step, u: u32, now: Srtp.Time, p: VP.Packet)
    requires Srtp.Lawful(a) && Srtp.NoCollision(a, ks) && past.used <= ks && Continues(ks, past, u, now, s) && IsLocked(a, past, w, u, p, now)
    ensures ServerShut(a, Lookup(SessionsAfter(w.sessions, s), AsI32(u)), p, now)
  {
    if s.ServerInit? && s.id == AsI32(u) {
      if s.keys.masterKey !in past.used { FreshKeyOpensNothing(a, ks, past.used, p, s.keys); }
      InstallKeepsShut(a, Lookup(w.sessions, AsI32(u)), Srtp.NEW_CLIENT, p, s.keys, now, s.now);
    }
  }

  lemma DecryptKeepsShut(a: Srtp.Aead, c: Srtp.Client, p: VP.Packet, sequence: u64, cipher: seq<byte>, now: Srtp.Time, at: Srtp.Time)
    requires ClientShut(a, c, p, now)
    ensures ClientShut(a, Srtp.ClientDecrypt(a, c, sequence, cipher, at).0, p, now)
  {
  }

  /** No other step touches a client's keys, but for connecting, which forgets them. */
  lemma OtherStepsLeaveKeys(a: Srtp.Aead, w: World, s: Step, v: u32)
    requires v in PeersAfter(a, w, s) && !(s.ClientInit? && s.u == v) && !(s.Receive? && s.u == v)
    ensures PeersAfter(a, w, s)[v].srtp == Srtp.NEW_CLIENT || (v in w.peers && PeersAfter(a, w, s)[v].srtp == w.peers[v].srtp)
  {
  }

  lemma ReceiveKeepsShut(a: Srtp.Aead, e: Endpoint, data: seq<byte>, p: VP.Packet, now: Srtp.Time, at: Srtp.Time)
    requires ClientShut(a, e.srtp, p, now)
    ensures ClientShut(a, Received(a, e, data, at).srtp, p, now)
  {
    if VP.Parse(data).Some? {
      DecryptKeepsShut(a, e.srtp, p, VP.Parse(data).value.sequence, VP.Parse(data).value.payload, now, at);
    }
  }

  lemma StepKeepsClientShut(a: Srtp.Aead, ks: set<seq<byte>>, past: Past, w: World, s: Step, u: u32, now: Srtp.Time,
                            p: VP.Packet, v: u32)
    requires Srtp.Lawful(a) && Srtp.NoCollision(a, ks) && past.used <= ks && v in PeersAfter(a, w, s) && v != u
    requires v in w.peers ==> ClientKeysIn(ks, w.peers[v].srtp) && ClientShut(a, w.peers[v].srtp, p, now)
    requires Continues(ks, past, u, now, s) && exists k, plain :: SealedUnder(a, past.used, p, k, plain)
    ensures ClientShut(a, PeersAfter(a, w, s)[v].srtp, p, now)
  {
    if s.ClientInit? && s.u == v {
      FreshKeyOpensNothing(a, ks, past.used, p, s.keys);
      InstallKeepsShut(a, None, w.peers[v].srtp, p, s.keys, now, s.now);
    } else if s.Receive? && s.u == v {
      ReceiveKeepsShut(a, w.peers[v], s.data, p, now, s.now);
    } else {
      OtherStepsLeaveKeys(a, w, s, v);
    }
  }

  lemma StepKeepsLocked(a: Srtp.Aead, ks: set<seq<byte>>, past: Past, capacity: nat, w: World, s: Step, u: u32, now: Srtp.Time, p: VP.Packet)
    requires Srtp.Lawful(a) && Srtp.NoCollision(a, ks) && past.used <= ks && Inv(a, ks, w)
    requires Continues(ks, past, u, now, s) && IsLocked(a, past, w, u, p, now)
    ensures IsLocked(a, past, Next(a, capacity, w, s), u, p, now)
  {
    StepKeepsServerShut(a, ks, past, w, s, u, now, p);
    forall v | v in PeersAfter(a, w, s) && v != u ensures ClientShut(a, PeersAfter(a, w, s)[v].srtp, p, now) {
      if v in w.peers { assert GoodPeer(ks, w.history, w.peers[v]) && ClientShut(a, w.peers[v].srtp, p, now); }
      StepKeepsClientShut(a, ks, past, w, s, u, now, p, v);
    }
  }

  lemma StepKeepsPacketCurrent(a: Srtp.Aead, ks: set<seq<byte>>, w: World, s: Step, u: u32, p: VP.Packet)
    requires !StartsAgain(s, u) && IsCurrent(a, ks, w.history, u, p)
    ensures IsCurrent(a, ks, HistoryAfter(a, w, s), u, p)
  {
    var k: Srtp.Keys, plain :| SealedUnder(a, ks, p, k, plain) && !IsStale(w.history, u, FrameOf(p, plain));
    StepKeepsCurrent(a, w, s, u, FrameOf(p, plain));
  }

  /** What u sends is a tick of its current start. */
  lemma OutgoingIsCurrent(a: Srtp.Aead, ks: set<seq<byte>>, h: History, e: Endpoint, frame: seq<byte>, c: u32)
    requires GoodPeer(ks, h, e) && e.srtp.ready
    ensures VP.Parse(Outgoing(a, e, frame, c)).Some?
    ensures
      var p := VP.Parse(Outgoing(a, e, frame, c)).value;
      p.userId == e.userId && IsCurrent(a, ks, Logged(h, e.userId, frame), e.userId, p)
  {
    var p := VP.Packet(VERSION, 0, e.txSequence, e.txTimestamp, c, e.userId, Sealed(a, e, frame));
    VP.ParseSerialize(p);
    LoggedGrows(h, e.userId, frame);
    var g := |h[e.userId]| - 1;
    assert TickOf(Logged(h, e.userId, frame), e.userId, g, |h[e.userId][g]|, p.sequence, p.timestamp, frame);
    assert SealedUnder(a, ks, p, e.srtp.current, frame);
  }

  lemma SentIsCurrent(a: Srtp.Aead, ks: set<seq<byte>>, w: World, s: Step, u: u32, d: seq<byte>)
    requires Inv(a, ks, w) && Ticks(a, w, s) && IsOf(u, d)
    requires d in Transmitted(a, w.peers[s.u], Targets(s.openMic, s.ptt), s.encoded).1
    ensures IsCurrent(a, ks, HistoryAfter(a, w, s), u, VP.Parse(d).value)
  {
    var e := w.peers[s.u];
    assert GoodPeer(ks, w.history, e) && e.userId == s.u;
    var c :| c in Targets(s.openMic, s.ptt) && d == Outgoing(a, e, s.encoded, c);
    OutgoingIsCurrent(a, ks, w.history, e, s.encoded, c);
  }

  /** What a task sends of u is current if the task is. */
  lemma ForwardedIsCurrent(a: Srtp.Aead, ks: set<seq<byte>>, w: World, s: Step, u: u32)
    requires Inv(a, ks, w) && Sends(w, s) && TasksQuiet(w, u) && IsOf(u, SentDatagram(a, w, s.job))
    ensures IsCurrent(a, ks, w.history, u, VP.Parse(SentDatagram(a, w, s.job)).value)
  {
    var k := w.sessions[s.job.recipient].current;
    var p := s.job.packet.(payload := Srtp.SealWith(a, k, s.job.packet.sequence, s.job.plain));
    RecycledBuffersAreEmpty(w.pool, 0, []);
    HeaderIgnoresPayload(s.job.packet, p.payload);
    VP.ParseSerialize(p);
    assert EntryKeysIn(ks, w.sessions[s.job.recipient]);
    assert SealedUnder(a, ks, p, k, s.job.plain);
  }

  lemma StepKeepsWireQuiet(a: Srtp.Aead, ks: set<seq<byte>>, past: Past, capacity: nat, w: World, s: Step, u: u32, now: Srtp.Time, d: seq<byte>)
    requires Srtp.Lawful(a) && Srtp.NoCollision(a, ks) && past.used <= ks && Inv(a, ks, w) && Quiet(a, ks, past, w, u, now)
    requires Continues(ks, past, u, now, s) && d in WireAfter(a, w, s) && IsOf(u, d)
    ensures
      var p := VP.Parse(d).value;
      IsCurrent(a, ks, HistoryAfter(a, w, s), u, p) || IsLocked(a, past, Next(a, capacity, w, s), u, p, now)
  {
    var p := VP.Parse(d).value;
    if d in w.wire {
      if IsCurrent(a, ks, w.history, u, p) {
        StepKeepsPacketCurrent(a, ks, w, s, u, p);
      } else {
        StepKeepsLocked(a, ks, past, capacity, w, s, u, now, p);
      }
    } else if Ticks(a, w, s) {
      SentIsCurrent(a, ks, w, s, u, d);
    } else {
      ForwardedIsCurrent(a, ks, w, s, u);
      StepKeepsPacketCurrent(a, ks, w, s, u, p);
    }
  }

  lemma StepKeepsQuiet(a: Srtp.Aead, ks: set<seq<byte>>, past: Past, capacity: nat, w: World, s: Step, u: u32, now: Srtp.Time)
    requires Srtp.Lawful(a) && Srtp.NoCollision(a, ks) && past.used <= ks && Inv(a, ks, w) && Quiet(a, ks, past, w, u, now)
    requires Continues(ks, past, u, now, s)
    ensures Quiet(a, ks, past, Next(a, capacity, w, s), u, now)
  {
    forall d | d in WireAfter(a, w, s) && IsOf(u, d)
      ensures IsCurrent(a, ks, HistoryAfter(a, w, s), u, VP.Parse(d).value)
           || IsLocked(a, past, Next(a, capacity, w, s), u, VP.Parse(d).value, now)
    {
      StepKeepsWireQuiet(a, ks, past, capacity, w, s, u, now, d);
    }
    forall j | j in TasksAfter(a, w, s) && j.packet.userId == u ensures !IsStale(HistoryAfter(a, w, s), u, FrameOf(j.packet, j.plain)) {
      StepKeepsTasksQuiet(a, ks, past, w, s, u, now, j);
    }
    forall v | v in PeersAfter(a, w, s) ensures BufferQuiet(HistoryAfter(a, w, s), u, PeersAfter(a, w, s)[v].sources) {
      StepKeepsBuffersQuiet(a, ks, past, w, s, u, now, v);
    }
    forall p | p in PlayedAfter(w, s) && p.source == u ensures !IsStale(HistoryAfter(a, w, s), u, p.frame) {
      StepKeepsPlayedQuiet(a, ks, past, w, s, u, now, p);
    }
  }

  lemma {:induction false} RunKeepsQuiet(a: Srtp.Aead, ks: set<seq<byte>>, past: Past, capacity: nat, w: World, more: seq<Step>, u: u32, now: Srtp.Time)
    requires Srtp.Lawful(a) && Srtp.NoCollision(a, ks) && past.used <= ks && Inv(a, ks, w) && Quiet(a, ks, past, w, u, now)
    requires forall s :: s in more ==> Continues(ks, past, u, now, s)
    ensures Quiet(a, ks, past, Run(a, capacity, w, more), u, now)
    decreases |more|
  {
    if more != [] {
      StepKeepsQuiet(a, ks, past, capacity, w, more[0], u, now);
      StepKeepsInv(a, ks, capacity, w, more[0]);
      RunKeepsQuiet(a, ks, past, capacity, Next(a, capacity, w, more[0]), more[1..], u, now);
    }
  }

  // ---- No live copy: all is quiet ----

  /** What was installed was installed under keys of the run so far. */
  ghost predicate PastOf(past: Past) {
    past.inFlight.Some? ==> past.inFlight.value.masterKey in past.used
  }

  /** A stale datagram that nobody opens now is locked. */
  lemma UnopenedIsLocked(a: Srtp.Aead, past: Past, w: World, u: u32, now: Srtp.Time, d: seq<byte>)
    requires Srtp.Lawful(a) && Srtp.NoCollision(a, past.used) && PastOf(past) && Inv(a, past.used, w) && d in w.wire && IsOf(u, d)
    requires !HasLiveCopy(a, w, u, past, now)
    ensures IsCurrent(a, past.used, w.history, u, VP.Parse(d).value) || IsLocked(a, past, w, u, VP.Parse(d).value, now)
  {
    var p := VP.Parse(d).value;
    assert GenuineDatagram(a, past.used, w.history, d);
    var k: Srtp.Keys, plain :| SealedBy(a, past.used, w.history, p, k, plain);
    assert SealedUnder(a, past.used, p, k, plain);
    if IsStale(w.history, u, FrameOf(p, plain)) {
      StaleIsShut(a, past, w, u, now, d, k, plain);
    }
  }

  lemma StaleIsShut(a: Srtp.Aead, past: Past, w: World, u: u32, now: Srtp.Time, d: seq<byte>, k: Srtp.Keys, plain: seq<byte>)
    requires Srtp.Lawful(a) && Srtp.NoCollision(a, past.used) && PastOf(past) && Inv(a, past.used, w) && d in w.wire && IsOf(u, d)
    requires SealedUnder(a, past.used, VP.Parse(d).value, k, plain) && IsStale(w.history, u, FrameOf(VP.Parse(d).value, plain))
    requires !HasLiveCopy(a, w, u, past, now)
    ensures IsLocked(a, past, w, u, VP.Parse(d).value, now)
  {
    var p := VP.Parse(d).value;
    assert !IsLive(a, w, u, past, now, AtServer(d)) && !IsLive(a, w, u, past, now, AfterAnswer(d));
    if AsI32(u) in w.sessions {
      assert EntryKeysIn(past.used, w.sessions[AsI32(u)]);
      ServerNotOpening(a, past.used, w.sessions[AsI32(u)], p, k, plain, now);
    }
    if past.inFlight.Some? && Opens(a, past.inFlight.value, p) {
      Srtp.OpensOnlyTheSealed(a, past.used, k, past.inFlight.value, p.sequence, p.sequence, plain);
    }
    forall v | v in w.peers && v != u ensures ClientShut(a, w.peers[v].srtp, p, now) {
      assert GoodPeer(past.used, w.history, w.peers[v]) && !IsLive(a, w, u, past, now, AtClient(d, v));
      ClientNotOpening(a, past.used, w.peers[v].srtp, p, k, plain, now);
    }
  }

  lemma ServerNotOpening(a: Srtp.Aead, ks: set<seq<byte>>, e: Srtp.Entry, p: VP.Packet, k: Srtp.Keys, plain: seq<byte>, now: Srtp.Time)
    requires Srtp.Lawful(a) && Srtp.NoCollision(a, ks) && SealedUnder(a, ks, p, k, plain) && EntryKeysIn(ks, e)
    ensures ServerShut(a, Some(e), p, now) || Srtp.ServerDecrypt(a, Some(e), p.sequence, p.payload, now) == Some(plain)
  {
    if Opens(a, e.current, p) { Srtp.OpensOnlyTheSealed(a, ks, k, e.current, p.sequence, p.sequence, plain); }
    if e.previous.Some? && Opens(a, e.previous.value.0, p) {
      Srtp.OpensOnlyTheSealed(a, ks, k, e.previous.value.0, p.sequence, p.sequence, plain);
    }
  }

  lemma ClientNotOpening(a: Srtp.Aead, ks: set<seq<byte>>, c: Srtp.Client, p: VP.Packet, k: Srtp.Keys, plain: seq<byte>, now: Srtp.Time)
    requires Srtp.Lawful(a) && Srtp.NoCollision(a, ks) && SealedUnder(a, ks, p, k, plain) && ClientKeysIn(ks, c) && plain != []
    ensures ClientShut(a, c, p, now) || Srtp.ClientDecrypt(a, c, p.sequence, p.payload, now).1 == plain
  {
    if c.ready {
      Srtp.TooShortNeverOpens(a, c.current, p.sequence, p.payload);
      if Opens(a, c.current, p) { Srtp.OpensOnlyTheSealed(a, ks, k, c.current, p.sequence, p.sequence, plain); }
      if c.previous.Some? {
        Srtp.TooShortNeverOpens(a, c.previous.value, p.sequence, p.payload);
        if Opens(a, c.previous.value, p) {
          Srtp.OpensOnlyTheSealed(a, ks, k, c.previous.value, p.sequence, p.sequence, plain);
        }
      }
    }
  }

  lemma CurrentInMoreKeys(a: Srtp.Aead, used: set<seq<byte>>, ks: set<seq<byte>>, h: History, u: u32, p: VP.Packet)
    requires used <= ks && IsCurrent(a, used, h, u, p)
    ensures IsCurrent(a, ks, h, u, p)
  {
    var k: Srtp.Keys, plain :| SealedUnder(a, used, p, k, plain) && !IsStale(h, u, FrameOf(p, plain));
    assert SealedUnder(a, ks, p, k, plain);
  }

  lemma WireIsQuiet(a: Srtp.Aead, ks: set<seq<byte>>, past: Past, w: World, u: u32, now: Srtp.Time, d: seq<byte>)
    requires Srtp.Lawful(a) && Srtp.NoCollision(a, past.used) && past.used <= ks && PastOf(past)
    requires Inv(a, past.used, w) && !HasLiveCopy(a, w, u, past, now) && d in w.wire && IsOf(u, d)
    ensures IsCurrent(a, ks, w.history, u, VP.Parse(d).value)
         || IsLocked(a, past, w.(played := {}), u, VP.Parse(d).value, now)
  {
    var p := VP.Parse(d).value;
    UnopenedIsLocked(a, past, w, u, now, d);
    if IsCurrent(a, past.used, w.history, u, p) { CurrentInMoreKeys(a, past.used, ks, w.history, u, p); }
  }

  lemma TasksAreQuiet(a: Srtp.Aead, past: Past, w: World, u: u32, now: Srtp.Time)
    requires !HasLiveCopy(a, w, u, past, now)
    ensures TasksQuiet(w, u)
  {
    forall j | j in w.tasks && j.packet.userId == u ensures !IsStale(w.history, u, FrameOf(j.packet, j.plain)) {
      assert !IsLive(a, w, u, past, now, InTask(j));
    }
  }

  lemma BufferIsQuiet(a: Srtp.Aead, past: Past, w: World, u: u32, now: Srtp.Time, v: u32)
    requires !HasLiveCopy(a, w, u, past, now) && v in w.peers
    ensures BufferQuiet(w.history, u, w.peers[v].sources)
  {
    if u in w.peers[v].sources {
      forall k | k in w.peers[v].sources[u].buffer.frames
        ensures !IsStale(w.history, u, w.peers[v].sources[u].buffer.frames[k])
      {
        assert !IsLive(a, w, u, past, now, InBuffer(v, k));
      }
    }
  }

  lemma NoLiveCopyIsQuiet(a: Srtp.Aead, ks: set<seq<byte>>, past: Past, w: World, u: u32, now: Srtp.Time)
    requires Srtp.Lawful(a) && Srtp.NoCollision(a, past.used) && past.used <= ks && PastOf(past)
    requires Inv(a, past.used, w) && !HasLiveCopy(a, w, u, past, now)
    ensures Quiet(a, ks, past, w.(played := {}), u, now)
  {
    forall d | d in w.wire && IsOf(u, d)
      ensures IsCurrent(a, ks, w.history, u, VP.Parse(d).value)
           || IsLocked(a, past, w.(played := {}), u, VP.Parse(d).value, now)
    {
      WireIsQuiet(a, ks, past, w, u, now, d);
    }
    TasksAreQuiet(a, past, w, u, now);
    forall v | v in w.peers ensures BufferQuiet(w.history, u, w.peers[v].sources) {
      BufferIsQuiet(a, past, w, u, now, v);
    }
  }

  lemma InvInMoreKeys(a: Srtp.Aead, used: set<seq<byte>>, ks: set<seq<byte>>, w: World)
    requires used <= ks && Inv(a, used, w)
    ensures Inv(a, ks, w.(played := {}))
  {
    forall d | d in w.wire ensures GenuineDatagram(a, ks, w.history, d) {
      assert GenuineDatagram(a, used, w.history, d);
      var k: Srtp.Keys, plain :| SealedBy(a, used, w.history, VP.Parse(d).value, k, plain);
      assert SealedBy(a, ks, w.history, VP.Parse(d).value, k, plain);
    }
    forall u | u in w.peers ensures w.peers[u].userId == u && GoodPeer(ks, w.history, w.peers[u]) {
      assert GoodPeer(used, w.history, w.peers[u]);
    }
    forall id | id in w.sessions ensures EntryKeysIn(ks, w.sessions[id]) {
      assert EntryKeysIn(used, w.sessions[id]);
    }
  }

  lemma StalePlayNeedsLiveCopy(a: Srtp.Aead, ks: set<seq<byte>>, past: Past, capacity: nat, w: World, u: u32,
                               now: Srtp.Time, more: seq<Step>, p: Playback)
    requires Srtp.Lawful(a) && Srtp.NoCollision(a, ks) && past.used <= ks && PastOf(past) && Inv(a, past.used, w)
    requires PlaysStale(a, ks, past, capacity, w, u, now, more, p)
    ensures HasLiveCopy(a, w, u, past, now)
  {
    if !HasLiveCopy(a, w, u, past, now) {
      NoLiveCopyIsQuiet(a, ks, past, w, u, now);
      InvInMoreKeys(a, past.used, ks, w);
      RunKeepsQuiet(a, ks, past, capacity, w.(played := {}), more, u, now);
      assert false;
    }
  }
}
