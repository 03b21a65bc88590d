/**
 * Delivery through the whole path: when a packet that was sent ends up in a listener's jitter buffer,
 * with anything else happening in between, and when a listener hears nothing of a sender.
 */
module Deliveries {
  import opened Bits
  import opened Options
  import opened Managers
  import opened VoicePath
  import opened Runs
  import opened EndToEnd
  import VP = VoicePackets
  import Srtp
  import JB = JitterBuffers

  /** The server opens what is sealed under k: its current key, or in time its previous one. */
  predicate ServerHolds(e: Option<Srtp.Entry>, k: Srtp.Keys, now: Srtp.Time) {
    && e.Some?
    && (|| e.value.current == k
        || (&& e.value.previous.Some? && e.value.previous.value.0 == k
            && now - e.value.previous.value.1 < Srtp.DUAL_KEY_WINDOW))
  }

  predicate ClientHolds(c: Srtp.Client, k: Srtp.Keys, now: Srtp.Time) {
    c.ready && (c.current == k || (c.previous == Some(k) && now - c.rotationTime < Srtp.DUAL_KEY_WINDOW))
  }

  lemma ServerHolderOpens(a: Srtp.Aead, ks: set<seq<byte>>, e: Srtp.Entry, k: Srtp.Keys, sequence: u64, plain: seq<byte>, now: Srtp.Time)
    requires Srtp.Lawful(a) && Srtp.NoCollision(a, ks) && EntryKeysIn(ks, e) && ServerHolds(Some(e), k, now)
    ensures Srtp.ServerDecrypt(a, Some(e), sequence, Srtp.SealWith(a, k, sequence, plain), now) == Some(plain)
  {
    Srtp.OpensOwnSeal(a, k, sequence, plain);
    if Srtp.OpenWith(a, e.current, sequence, Srtp.SealWith(a, k, sequence, plain)).Some? {
      Srtp.OpensOnlyTheSealed(a, ks, k, e.current, sequence, sequence, plain);
    }
  }

  lemma ClientHolderOpens(a: Srtp.Aead, ks: set<seq<byte>>, c: Srtp.Client, k: Srtp.Keys, sequence: u64, plain: seq<byte>, now: Srtp.Time)
    requires Srtp.Lawful(a) && Srtp.NoCollision(a, ks) && ClientKeysIn(ks, c) && ClientHolds(c, k, now) && plain != []
    ensures Srtp.ClientDecrypt(a, c, sequence, Srtp.SealWith(a, k, sequence, plain), now) == (c, plain)
  {
    var cipher := Srtp.SealWith(a, k, sequence, plain);
    Srtp.OpensOwnSeal(a, k, sequence, plain);
    Srtp.TooShortNeverOpens(a, k, sequence, cipher);
    Srtp.TooShortNeverOpens(a, c.current, sequence, cipher);
    if Srtp.OpenWith(a, c.current, sequence, cipher).Some? {
      Srtp.OpensOnlyTheSealed(a, ks, k, c.current, sequence, sequence, plain);
    }
  }

  // ---- What other steps cannot undo ----

  lemma WireStays(a: Srtp.Aead, capacity: nat, w: World, s: Step)
    ensures w.wire <= Next(a, capacity, w, s).wire
  {
  }

  lemma {:induction false} WireStaysInRun(a: Srtp.Aead, capacity: nat, w: World, steps: seq<Step>)
    ensures w.wire <= Run(a, capacity, w, steps).wire
    decreases |steps|
  {
    if steps != [] {
      WireStays(a, capacity, w, steps[0]);
      WireStaysInRun(a, capacity, Next(a, capacity, w, steps[0]), steps[1..]);
    }
  }

  lemma TaskStays(a: Srtp.Aead, capacity: nat, w: World, s: Step, job: Job)
    requires job in w.tasks && s != ServerSend(job) && s != ServerSkip(job)
    ensures job in Next(a, capacity, w, s).tasks
  {
  }

  lemma {:induction false} TaskStaysInRun(a: Srtp.Aead, capacity: nat, w: World, steps: seq<Step>, job: Job)
    requires job in w.tasks && ServerSend(job) !in steps && ServerSkip(job) !in steps
    ensures job in Run(a, capacity, w, steps).tasks
    decreases |steps|
  {
    if steps != [] {
      TaskStays(a, capacity, w, steps[0], job);
      TaskStaysInRun(a, capacity, Next(a, capacity, w, steps[0]), steps[1..], job);
    }
  }

  // ---- The three moments of a delivery ----

  /** A packet on the wire whose text was sealed under k. */
  ghost predicate SealedOnWire(a: Srtp.Aead, w: World, p: VP.Packet, k: Srtp.Keys, plain: seq<byte>) {
    VP.Serialize(p) in w.wire && p.payload == Srtp.SealWith(a, k, p.sequence, plain) && plain != []
  }

  /** The server can open it and l is to have it. */
  ghost predicate ServerPasses(w: World, p: VP.Packet, k: Srtp.Keys, l: u32, now: Srtp.Time) {
    && ServerHolds(Lookup(w.sessions, AsI32(p.userId)), k, now)
    && l != p.userId && AsI32(l) in Members(w.channels, AsI32(p.channelId))
  }

  function Forwarded(a: Srtp.Aead, k: Srtp.Keys, p: VP.Packet, plain: seq<byte>): seq<byte> {
    VP.Serialize(p.(payload := Srtp.SealWith(a, k, p.sequence, plain)))
  }

  lemma TaskStarts(a: Srtp.Aead, ks: set<seq<byte>>, capacity: nat, w: World, p: VP.Packet, k: Srtp.Keys, plain: seq<byte>, l: u32, now: Srtp.Time)
    requires Srtp.Lawful(a) && Srtp.NoCollision(a, ks) && Inv(a, ks, w)
    requires SealedOnWire(a, w, p, k, plain) && ServerPasses(w, p, k, l, now)
    ensures Job(p, plain, AsI32(l)) in Next(a, capacity, w, ServerReceive(VP.Serialize(p), now)).tasks
  {
    AsI32Injective(l, p.userId);
    ServerHolderOpens(a, ks, w.sessions[AsI32(p.userId)], k, p.sequence, plain, now);
    FanOutIff(a, w.sessions, w.channels, p, now, Job(p, plain, AsI32(l)));
    VP.ParseSerialize(p);
  }

  lemma TaskSends(a: Srtp.Aead, capacity: nat, w: World, job: Job)
    requires AllEmpty(w.pool) && job in w.tasks && job.recipient in w.sessions
    ensures Forwarded(a, w.sessions[job.recipient].current, job.packet, job.plain)
            in Next(a, capacity, w, ServerSend(job)).wire
  {
    RecycledBuffersAreEmpty(w.pool, 0, []);
    HeaderIgnoresPayload(job.packet, Srtp.SealWith(a, w.sessions[job.recipient].current, job.packet.sequence, job.plain));
  }

  /** The buffer of user u at listener l; a fresh one if there is none yet. */
  function BufferAt(w: World, l: u32, u: u32): JB.Buffer
    requires l in w.peers
  {
    SourceOf(w.peers[l].sources, u).buffer
  }

  /** The frame a packet carries is in its sender's buffer at l, at its key. */
  predicate IsBuffered(w: World, l: u32, p: VP.Packet, plain: seq<byte>) {
    && l in w.peers
    && var frames := BufferAt(w, l, p.userId).frames;
       p.sequence in frames && frames[p.sequence] == JB.Frame(p.sequence, p.timestamp, plain)
  }

  lemma HolderBuffers(a: Srtp.Aead, ks: set<seq<byte>>, e: Endpoint, p: VP.Packet, k: Srtp.Keys, plain: seq<byte>, now: Srtp.Time)
    requires Srtp.Lawful(a) && Srtp.NoCollision(a, ks) && ClientKeysIn(ks, e.srtp) && plain != []
    requires e.userId != p.userId && ClientHolds(e.srtp, k, now)
    ensures Received(a, e, Forwarded(a, k, p, plain), now) == e.(sources := Buffered(e.sources, p, plain))
  {
    VP.ParseSerialize(p.(payload := Srtp.SealWith(a, k, p.sequence, plain)));
    ClientHolderOpens(a, ks, e.srtp, k, p.sequence, plain, now);
  }

  lemma BufferedIff(sources: map<u32, Source>, p: VP.Packet, plain: seq<byte>)
    requires JB.Inv(SourceOf(sources, p.userId).buffer)
    ensures
      var b, frames := SourceOf(sources, p.userId).buffer, SourceOf(Buffered(sources, p, plain), p.userId).buffer.frames;
      (p.sequence in frames && frames[p.sequence] == JB.Frame(p.sequence, p.timestamp, plain))
      <==> (b.started ==> b.next <= p.sequence)
  {
    JB.PushedIff(SourceOf(sources, p.userId).buffer, JB.Frame(p.sequence, p.timestamp, plain));
  }

  /** l has pushed the packet's frame into its buffer for the sender. */
  function AfterReceiving(w: World, l: u32, p: VP.Packet, plain: seq<byte>): World
    requires l in w.peers
  {
    w.(peers := w.peers[l := w.peers[l].(sources := Buffered(w.peers[l].sources, p, plain))])
  }

  lemma ListenerReceives(a: Srtp.Aead, ks: set<seq<byte>>, capacity: nat, w: World, p: VP.Packet, k: Srtp.Keys, plain: seq<byte>, l: u32, now: Srtp.Time)
    requires Srtp.Lawful(a) && Srtp.NoCollision(a, ks) && plain != []
    requires l in w.peers && w.peers[l].userId == l && ClientKeysIn(ks, w.peers[l].srtp)
    requires l != p.userId && ClientHolds(w.peers[l].srtp, k, now) && Forwarded(a, k, p, plain) in w.wire
    ensures Next(a, capacity, w, Receive(l, Forwarded(a, k, p, plain), now)) == AfterReceiving(w, l, p, plain)
  {
    HolderBuffers(a, ks, w.peers[l], p, k, plain, now);
  }

  lemma PeerKeys(a: Srtp.Aead, ks: set<seq<byte>>, w: World, l: u32)
    requires Inv(a, ks, w) && l in w.peers
    ensures w.peers[l].userId == l && ClientKeysIn(ks, w.peers[l].srtp)
  {
    assert GoodPeer(ks, w.history, w.peers[l]);
  }

  lemma LandsIff(a: Srtp.Aead, ks: set<seq<byte>>, w: World, p: VP.Packet, plain: seq<byte>, l: u32)
    requires Inv(a, ks, w) && l in w.peers
    ensures
      var b := BufferAt(w, l, p.userId);
      IsBuffered(AfterReceiving(w, l, p, plain), l, p, plain) <==> (b.started ==> b.next <= p.sequence)
  {
    assert GoodPeer(ks, w.history, w.peers[l]);
    assert JB.Inv(SourceOf(w.peers[l].sources, p.userId).buffer);
    BufferedIff(w.peers[l].sources, p, plain);
  }

  /** The task the server starts waits for its turn. */
  lemma TaskWaits(a: Srtp.Aead, ks: set<seq<byte>>, capacity: nat, w: World, mid: seq<Step>, p: VP.Packet,
                  k: Srtp.Keys, plain: seq<byte>, l: u32, at: Srtp.Time)
    requires Srtp.Lawful(a) && Srtp.NoCollision(a, ks) && Inv(a, ks, w)
    requires forall s :: s in mid ==> StepKeysIn(ks, s)
    requires SealedOnWire(a, w, p, k, plain) && ServerPasses(w, p, k, l, at)
    requires ServerSend(Job(p, plain, AsI32(l))) !in mid && ServerSkip(Job(p, plain, AsI32(l))) !in mid
    ensures
      var sending := Run(a, capacity, w, [ServerReceive(VP.Serialize(p), at)] + mid);
      Inv(a, ks, sending) && Job(p, plain, AsI32(l)) in sending.tasks
  {
    var read := ServerReceive(VP.Serialize(p), at);
    var w1 := Next(a, capacity, w, read);
    TaskStarts(a, ks, capacity, w, p, k, plain, l, at);
    StepKeepsInv(a, ks, capacity, w, read);
    FoldFirst(Stepper(a, capacity), w, read, mid);
    TaskStaysInRun(a, capacity, w1, mid, Job(p, plain, AsI32(l)));
    RunKeepsInv(a, ks, capacity, w1, mid);
  }

  /** What the task sends stays on the wire for the listener. */
  lemma SentWaits(a: Srtp.Aead, ks: set<seq<byte>>, capacity: nat, w: World, after: seq<Step>, job: Job)
    requires Srtp.Lawful(a) && Srtp.NoCollision(a, ks) && Inv(a, ks, w) && job in w.tasks && job.recipient in w.sessions
    requires forall s :: s in after ==> StepKeysIn(ks, s)
    ensures
      var reading := Run(a, capacity, w, [ServerSend(job)] + after);
      Inv(a, ks, reading) && Forwarded(a, w.sessions[job.recipient].current, job.packet, job.plain) in reading.wire
  {
    var send := ServerSend(job);
    var w2 := Next(a, capacity, w, send);
    TaskSends(a, capacity, w, job);
    StepKeepsInv(a, ks, capacity, w, send);
    FoldFirst(Stepper(a, capacity), w, send, after);
    WireStaysInRun(a, capacity, w2, after);
    RunKeepsInv(a, ks, capacity, w2, after);
  }

  /**
   * Delivery. Once the server reads a packet it can open, under its current or in time its previous
   * key, the packet becomes a task for each other member. Whatever happens then, the task sends it under
   * the key the listener's session has at that time; and whatever happens then, if the listener holds
   * that key, as its current or in time its previous one, reading it buffers the frame exactly when the
   * frame is not behind the listener's playout point.
   */
  lemma Delivers(a: Srtp.Aead, ks: set<seq<byte>>, capacity: nat, w: World, mid: seq<Step>, after: seq<Step>,
                 p: VP.Packet, k: Srtp.Keys, plain: seq<byte>, l: u32, at: Srtp.Time, now: Srtp.Time)
    requires Srtp.Lawful(a) && Srtp.NoCollision(a, ks) && Inv(a, ks, w)
    requires forall s :: s in mid || s in after ==> StepKeysIn(ks, s)
    requires SealedOnWire(a, w, p, k, plain) && ServerPasses(w, p, k, l, at)
    requires ServerSend(Job(p, plain, AsI32(l))) !in mid && ServerSkip(Job(p, plain, AsI32(l))) !in mid
    requires AsI32(l) in Run(a, capacity, w, [ServerReceive(VP.Serialize(p), at)] + mid).sessions
    requires
      var sending := Run(a, capacity, w, [ServerReceive(VP.Serialize(p), at)] + mid);
      var reading := Run(a, capacity, sending, [ServerSend(Job(p, plain, AsI32(l)))] + after);
      l in reading.peers && ClientHolds(reading.peers[l].srtp, sending.sessions[AsI32(l)].current, now)
    ensures
      var sending := Run(a, capacity, w, [ServerReceive(VP.Serialize(p), at)] + mid);
      var reading := Run(a, capacity, sending, [ServerSend(Job(p, plain, AsI32(l)))] + after);
      var done := Next(a, capacity, reading, Receive(l, Forwarded(a, sending.sessions[AsI32(l)].current, p, plain), now));
      && done == AfterReceiving(reading, l, p, plain)
      && var b := BufferAt(reading, l, p.userId);
         IsBuffered(done, l, p, plain) <==> (b.started ==> b.next <= p.sequence)
  {
    TaskWaits(a, ks, capacity, w, mid, p, k, plain, l, at);
    var sending := Run(a, capacity, w, [ServerReceive(VP.Serialize(p), at)] + mid);
    SentWaits(a, ks, capacity, sending, after, Job(p, plain, AsI32(l)));
    var reading := Run(a, capacity, sending, [ServerSend(Job(p, plain, AsI32(l)))] + after);
    PeerKeys(a, ks, reading, l);
    ListenerReceives(a, ks, capacity, reading, p, sending.sessions[AsI32(l)].current, plain, l, now);
    LandsIff(a, ks, reading, p, plain, l);
  }

  // ---- A restarted sender is not heard until it passes the listener's playout point ----

  /** l has played u up to n and has nothing of u left. */
  ghost predicate PlayedUpTo(w: World, l: u32, u: u32, n: u64) {
    && l in w.peers && u in w.peers[l].sources
    && var b := w.peers[l].sources[u].buffer; JB.Inv(b) && b.started && b.frames == map[] && b.next == n
  }

  /** The step neither clears l's sources nor gives l a packet of u numbered n or later. */
  predicate GivesNothingNew(s: Step, l: u32, u: u32, n: u64) {
    && s != Connect(l) && s != Restart(l) && s != ClearSources(l)
    && (s.Receive? && s.u == l && VP.Parse(s.data).Some? && VP.Parse(s.data).value.userId == u ==>
          VP.Parse(s.data).value.sequence < n)
  }

  lemma LateReceiveChangesNothing(a: Srtp.Aead, e: Endpoint, data: seq<byte>, now: Srtp.Time, u: u32)
    requires u in e.sources && VP.Parse(data).Some?
    requires VP.Parse(data).value.userId == u ==> e.sources[u].buffer.started && VP.Parse(data).value.sequence < e.sources[u].buffer.next
    ensures u in Received(a, e, data, now).sources && Received(a, e, data, now).sources[u].buffer == e.sources[u].buffer
  {
  }

  lemma ReceiveGivesNothingNew(a: Srtp.Aead, capacity: nat, w: World, v: u32, data: seq<byte>, now: Srtp.Time, l: u32, u: u32, n: u64)
    requires PlayedUpTo(w, l, u, n) && GivesNothingNew(Receive(v, data, now), l, u, n)
    ensures PlayedUpTo(Next(a, capacity, w, Receive(v, data, now)), l, u, n)
  {
    if v == l && data in w.wire && VP.Parse(data).Some? { LateReceiveChangesNothing(a, w.peers[l], data, now, u); }
  }

  lemma PlayGivesNothingNew(a: Srtp.Aead, w: World, v: u32, source: u32, l: u32, u: u32, n: u64)
    requires PlayedUpTo(w, l, u, n) && v in w.peers
    ensures
      var e := PeersAfter(a, w, Play(v, source));
      l in e && u in e[l].sources && e[l].sources[u].buffer == w.peers[l].sources[u].buffer
    ensures forall f :: Playback(l, u, f) in PlayedAfter(w, Play(v, source)) ==> Playback(l, u, f) in w.played
  {
    if v == l && source == u { JB.StartedPop(w.peers[l].sources[u].buffer); }
  }

  /** Any other step leaves l's sources alone. */
  lemma OtherStepsLeaveSources(a: Srtp.Aead, w: World, s: Step, l: u32)
    requires l in w.peers && !s.Receive? && !s.Play?
    requires s != Connect(l) && s != Restart(l) && s != ClearSources(l)
    ensures l in PeersAfter(a, w, s) && PeersAfter(a, w, s)[l].sources == w.peers[l].sources
  {
  }

  lemma NothingNewStep(a: Srtp.Aead, capacity: nat, w: World, s: Step, l: u32, u: u32, n: u64)
    requires PlayedUpTo(w, l, u, n) && GivesNothingNew(s, l, u, n)
    ensures PlayedUpTo(Next(a, capacity, w, s), l, u, n)
    ensures forall f :: Playback(l, u, f) in Next(a, capacity, w, s).played ==> Playback(l, u, f) in w.played
  {
    if s.Receive? {
      ReceiveGivesNothingNew(a, capacity, w, s.u, s.data, s.now, l, u, n);
    } else if s.Play? {
      if s.u in w.peers { PlayGivesNothingNew(a, w, s.u, s.source, l, u, n); }
    } else {
      OtherStepsLeaveSources(a, w, s, l);
    }
  }

  /**
   * A listener that has played u up to number n plays nothing of u in any continuation in which all it
   * gets from u is numbered below n. After u restarts, that is every tick before tick n.
   */
  lemma {:induction false} RestartedSenderIsUnheard(a: Srtp.Aead, capacity: nat, w: World, steps: seq<Step>, l: u32, u: u32, n: u64)
    requires PlayedUpTo(w, l, u, n) && forall s :: s in steps ==> GivesNothingNew(s, l, u, n)
    ensures PlayedUpTo(Run(a, capacity, w, steps), l, u, n)
    ensures forall f :: Playback(l, u, f) in Run(a, capacity, w, steps).played ==> Playback(l, u, f) in w.played
    decreases |steps|
  {
    if steps != [] {
      NothingNewStep(a, capacity, w, steps[0], l, u, n);
      RestartedSenderIsUnheard(a, capacity, Next(a, capacity, w, steps[0]), steps[1..], l, u, n);
    }
  }
}
