/**
 * Why sequence numbers name ticks only within one sender start, and exactly when they still do after a
 * restart: the counter begins again at 0, and copies of earlier starts' frames may still be on their way.
 */
module Restarts {
  import opened Bits
  import opened Options
  import opened Managers
  import opened VoicePath
  import opened Runs
  import opened EndToEnd
  import opened Deliveries
  import VP = VoicePackets
  import Srtp
  import JB = JitterBuffers
  import opened StaleFrames
  import opened Replays

  // ---- Every tick of every start stays on the wire ----

  ghost predicate Carries(a: Srtp.Aead, keys: iset<Srtp.Keys>, wire: set<seq<byte>>, u: u32, t: nat, frame: seq<byte>,
                          p: VP.Packet, k: Srtp.Keys) {
    && VP.Serialize(p) in wire && k in keys
    && p.userId == u && p.sequence == Wrap(t) && p.timestamp == Wrap(SAMPLES_PER_FRAME * t)
    && p.payload == Srtp.SealWith(a, k, p.sequence, frame)
  }

  ghost predicate OnWire(a: Srtp.Aead, keys: iset<Srtp.Keys>, wire: set<seq<byte>>, u: u32, t: nat, frame: seq<byte>) {
    frame != [] && exists p: VP.Packet, k: Srtp.Keys :: Carries(a, keys, wire, u, t, frame, p, k)
  }

  ghost predicate TicksOnWire(a: Srtp.Aead, keys: iset<Srtp.Keys>, wire: set<seq<byte>>, u: u32, starts: seq<seq<seq<byte>>>) {
    starts != [] && forall g: nat, t: nat :: g < |starts| && t < |starts[g]| ==> OnWire(a, keys, wire, u, t, starts[g][t])
  }

  ghost function KeysIn(ks: set<seq<byte>>): iset<Srtp.Keys> {
    iset k: Srtp.Keys | k.masterKey in ks
  }

  ghost predicate Recorded(a: Srtp.Aead, ks: set<seq<byte>>, w: World) {
    forall u :: u in w.history ==> TicksOnWire(a, KeysIn(ks), w.wire, u, w.history[u])
  }

  lemma TicksStayOnWire(a: Srtp.Aead, keys: iset<Srtp.Keys>, wire: set<seq<byte>>, wire': set<seq<byte>>, u: u32, starts: seq<seq<seq<byte>>>)
    requires wire <= wire' && TicksOnWire(a, keys, wire, u, starts)
    ensures TicksOnWire(a, keys, wire', u, starts)
  {
    forall g: nat, t: nat | g < |starts| && t < |starts[g]| ensures OnWire(a, keys, wire', u, t, starts[g][t]) {
      assert OnWire(a, keys, wire, u, t, starts[g][t]);
      var p: VP.Packet, k: Srtp.Keys :| Carries(a, keys, wire, u, t, starts[g][t], p, k);
      assert Carries(a, keys, wire', u, t, starts[g][t], p, k);
    }
  }

  lemma SentTickIsOnWire(a: Srtp.Aead, keys: iset<Srtp.Keys>, w: World, s: Step)
    requires Ticks(a, w, s) && w.peers[s.u].srtp.current in keys
    requires w.peers[s.u].userId == s.u && CountersMatch(w.history, w.peers[s.u])
    ensures OnWire(a, keys, WireAfter(a, w, s), s.u, |w.history[s.u][|w.history[s.u]| - 1]|, s.encoded)
  {
    var e, targets := w.peers[s.u], Targets(s.openMic, s.ptt);
    var c :| c in targets;
    var p := VP.Packet(VERSION, 0, e.txSequence, e.txTimestamp, c, e.userId, Sealed(a, e, s.encoded));
    assert Outgoing(a, e, s.encoded, c) in Transmitted(a, e, targets, s.encoded).1;
    assert Carries(a, keys, WireAfter(a, w, s), s.u, |w.history[s.u][|w.history[s.u]| - 1]|, s.encoded, p, e.srtp.current);
  }

  lemma LoggingKeepsTicks(a: Srtp.Aead, keys: iset<Srtp.Keys>, wire: set<seq<byte>>, h: History, u: u32, frame: seq<byte>)
    requires u in h && TicksOnWire(a, keys, wire, u, h[u])
    requires OnWire(a, keys, wire, u, |h[u][|h[u]| - 1]|, frame)
    ensures TicksOnWire(a, keys, wire, u, Logged(h, u, frame)[u])
  {
  }

  /** A step keeps u's ticks on the wire, a new one being sealed under one of the keys too. */
  lemma StepKeepsTicks(a: Srtp.Aead, keys: iset<Srtp.Keys>, w: World, s: Step, u: u32)
    requires u in w.history ==> TicksOnWire(a, keys, w.wire, u, w.history[u])
    requires Ticks(a, w, s) && s.u == u ==>
               w.peers[u].srtp.current in keys && w.peers[u].userId == u && CountersMatch(w.history, w.peers[u])
    ensures u in HistoryAfter(a, w, s) ==> TicksOnWire(a, keys, WireAfter(a, w, s), u, HistoryAfter(a, w, s)[u])
  {
    if u in w.history {
      TicksStayOnWire(a, keys, w.wire, WireAfter(a, w, s), u, w.history[u]);
      if Ticks(a, w, s) && s.u == u {
        SentTickIsOnWire(a, keys, w, s);
        LoggingKeepsTicks(a, keys, WireAfter(a, w, s), w.history, u, s.encoded);
      }
    }
  }

  lemma StepRecords(a: Srtp.Aead, ks: set<seq<byte>>, capacity: nat, w: World, s: Step)
    requires Inv(a, ks, w) && Recorded(a, ks, w)
    ensures Recorded(a, ks, Next(a, capacity, w, s))
  {
    forall u | u in HistoryAfter(a, w, s)
      ensures TicksOnWire(a, KeysIn(ks), WireAfter(a, w, s), u, HistoryAfter(a, w, s)[u])
    {
      if u in w.peers { assert GoodPeer(ks, w.history, w.peers[u]) && w.peers[u].userId == u; }
      StepKeepsTicks(a, KeysIn(ks), w, s, u);
    }
  }

  lemma {:induction false} RunRecords(a: Srtp.Aead, ks: set<seq<byte>>, capacity: nat, w: World, steps: seq<Step>)
    requires Srtp.Lawful(a) && Srtp.NoCollision(a, ks) && Inv(a, ks, w) && Recorded(a, ks, w)
    requires forall i :: 0 <= i < |steps| ==> StepKeysIn(ks, steps[i])
    ensures Inv(a, ks, Run(a, capacity, w, steps)) && Recorded(a, ks, Run(a, capacity, w, steps))
    decreases |steps|
  {
    if steps != [] {
      StepKeepsInv(a, ks, capacity, w, steps[0]);
      StepRecords(a, ks, capacity, w, steps[0]);
      RunRecords(a, ks, capacity, Next(a, capacity, w, steps[0]), steps[1..]);
    }
  }

  // ---- Exactly when a restart can be heard ----

  /** The keys a run has installed. */
  ghost function InstalledKeys(steps: seq<Step>): set<seq<byte>> {
    set s | s in steps && (s.ClientInit? || s.ServerInit?) :: s.keys.masterKey
  }

  /** A run of the code from the beginning, under keys of ks, with some key left. */
  ghost predicate IsRun(a: Srtp.Aead, ks: set<seq<byte>>, pool: seq<seq<byte>>, steps: seq<Step>) {
    && Srtp.Lawful(a) && Srtp.NoCollision(a, ks) && AllEmpty(pool)
    && (forall s :: s in steps ==> Allowed(ks, s))
    && (exists k: Srtp.Keys :: k.masterKey in ks && k.masterKey !in InstalledKeys(steps))
  }

  lemma RunIsGood(a: Srtp.Aead, ks: set<seq<byte>>, capacity: nat, pool: seq<seq<byte>>, steps: seq<Step>)
    requires IsRun(a, ks, pool, steps)
    ensures
      var w, used := Run(a, capacity, Start(pool), steps), InstalledKeys(steps);
      used <= ks && Srtp.NoCollision(a, used) && Inv(a, used, w) && Inv(a, ks, w) && Recorded(a, ks, w) && Addressed(w)
  {
    var used := InstalledKeys(steps);
    assert used <= ks;
    assert Inv(a, ks, Start(pool)) && Inv(a, used, Start(pool)) && Recorded(a, ks, Start(pool)) && Addressed(Start(pool));
    forall i | 0 <= i < |steps| ensures StepKeysIn(used, steps[i]) && StepKeysIn(ks, steps[i]) {
      assert steps[i] in steps;
    }
    RunKeepsInv(a, used, capacity, Start(pool), steps);
    RunRecords(a, ks, capacity, Start(pool), steps);
    RunKeepsAddressed(a, ks, capacity, Start(pool), steps);
  }

  /** What a live copy holds, u has encoded. */
  lemma LiveCopyIsEncoded(a: Srtp.Aead, ks: set<seq<byte>>, w: World, u: u32, past: Past, now: Srtp.Time, c: Copy)
    requires Srtp.Lawful(a) && Srtp.NoCollision(a, ks) && Inv(a, ks, w) && past.used <= ks && PastOf(past)
    requires IsLive(a, w, u, past, now, c)
    ensures GenuineFrame(w.history, u, Held(a, w, u, past, now, c).value)
  {
    match c
    case AtServer(d) =>
      assert AsI32(u) in w.sessions && EntryKeysIn(ks, w.sessions[AsI32(u)]) && GenuineDatagram(a, ks, w.history, d);
      ServerOpens(a, ks, w.history, d, Lookup(w.sessions, AsI32(u)), now);
    case AfterAnswer(d) =>
      assert GenuineDatagram(a, ks, w.history, d);
      OpensToEncoded(a, ks, w.history, d, past.inFlight.value);
    case AtClient(d, v) =>
      assert GoodPeer(ks, w.history, w.peers[v]) && GenuineDatagram(a, ks, w.history, d);
      ClientOpens(a, ks, w.history, d, w.peers[v].srtp, now);
    case InTask(j) => assert GenuineJob(w.history, j);
    case InBuffer(v, key) =>
      assert GoodPeer(ks, w.history, w.peers[v]) && GenuineBuffer(w.history, u, w.peers[v].sources[u].buffer);
  }

  /**
   * In every reachable world: from now on, without a new start of u and with keys installed in the order the
   * code installs them, a frame of u that is not in its current start can be played, if and only if a copy
   * of such a frame is now in a datagram that the server opens with its keys for u, or will open with the
   * key of u's answer in flight; in one that another client opens; in a task of the server; or in a
   * listener's buffer.
   */
  lemma StaleFrameIsPlayedIff(a: Srtp.Aead, ks: set<seq<byte>>, capacity: nat, pool: seq<seq<byte>>, steps: seq<Step>,
                              inFlight: Option<Srtp.Keys>, u: u32, now: Srtp.Time)
    requires IsRun(a, ks, pool, steps) && PastOf(Past(InstalledKeys(steps), inFlight))
    ensures
      var w, past := Run(a, capacity, Start(pool), steps), Past(InstalledKeys(steps), inFlight);
      (exists more, p :: PlaysStale(a, ks, past, capacity, w, u, now, more, p)) <==> HasLiveCopy(a, w, u, past, now)
  {
    var w, past := Run(a, capacity, Start(pool), steps), Past(InstalledKeys(steps), inFlight);
    RunIsGood(a, ks, capacity, pool, steps);
    if more, p :| PlaysStale(a, ks, past, capacity, w, u, now, more, p) {
      StalePlayNeedsLiveCopy(a, ks, past, capacity, w, u, now, more, p);
    }
    if c :| IsLive(a, w, u, past, now, c) {
      LiveCopyIsEncoded(a, ks, w, u, past, now, c);
      var k: Srtp.Keys :| k.masterKey in ks && k.masterKey !in past.used;
      var more, p := OldStartIsPlayed(a, ks, past, capacity, w, u, now, k, c);
    }
  }

  // ---- A run in which a restart is heard ----

  /** User 7 logs in, sends a frame to channel 5, and starts again. */
  function TalkAndRestart(k: Srtp.Keys, frame: seq<byte>): seq<Step> {
    LogIn(7, k, 0.0) + [Transmit(7, {5}, None, frame), Restart(7)]
  }

  function Sent(a: Srtp.Aead, k: Srtp.Keys, frame: seq<byte>): VP.Packet {
    VP.Packet(VERSION, 0, 0, 0, 5, 7, Srtp.SealWith(a, k, 0, frame))
  }

  lemma FirstLogIn(a: Srtp.Aead, ks: set<seq<byte>>, capacity: nat, k: Srtp.Keys)
    requires Srtp.Lawful(a) && Srtp.NoCollision(a, ks) && k.masterKey in ks
    ensures
      var w := Run(a, capacity, Start([]), LogIn(7, k, 0.0));
      && Inv(a, ks, w) && LoggedIn(w, 7, k) && w.channels == map[]
      && w.peers[7].txSequence == 0 && w.peers[7].txTimestamp == 0 && 7 in w.history && w.history[7] == [[]]
  {
    assert Inv(a, ks, Start([]));
    RunKeepsInv(a, ks, capacity, Start([]), LogIn(7, k, 0.0));
    LoggingIn(a, capacity, Start([]), 7, k, 0.0);
    FoldThree(Stepper(a, capacity), Start([]), Connect(7), ClientInit(7, k, 0.0), ServerInit(AsI32(7), k, 0.0));
    var none: seq<seq<seq<byte>>> := [];
    assert NewStart(map[], 7)[7] == none + [[]] == [[]];
  }

  lemma TalkingAndRestarting(a: Srtp.Aead, ks: set<seq<byte>>, capacity: nat, k: Srtp.Keys, frame: seq<byte>)
    requires Srtp.Lawful(a) && Srtp.NoCollision(a, ks) && k.masterKey in ks && frame != []
    ensures
      var w := Run(a, capacity, Start([]), TalkAndRestart(k, frame));
      && Inv(a, ks, w) && Uses(w, 7, k) && w.channels == map[]
      && VP.Serialize(Sent(a, k, frame)) in w.wire
      && 7 in w.history && w.history[7] == [[frame], []]
  {
    var talk, restart := Transmit(7, {5}, None, frame), Restart(7);
    var w1 := Run(a, capacity, Start([]), LogIn(7, k, 0.0));
    FirstLogIn(a, ks, capacity, k);
    FoldAppend(Stepper(a, capacity), Start([]), LogIn(7, k, 0.0), [talk, restart]);
    assert [talk, restart] == [talk] + [restart] && [restart][1..] == [];
    FoldFirst(Stepper(a, capacity), w1, talk, [restart]);
    StepKeepsInv(a, ks, capacity, w1, talk);
    StepKeepsInv(a, ks, capacity, Next(a, capacity, w1, talk), restart);
    TalkThenRestart(a, capacity, w1, k, frame);
  }

  lemma TalkThenRestart(a: Srtp.Aead, capacity: nat, w: World, k: Srtp.Keys, frame: seq<byte>)
    requires Srtp.Lawful(a) && LoggedIn(w, 7, k) && w.peers[7].txSequence == 0 && w.peers[7].txTimestamp == 0 && frame != []
    requires 7 in w.history && w.history[7] == [[]]
    ensures
      var w' := Next(a, capacity, Next(a, capacity, w, Transmit(7, {5}, None, frame)), Restart(7));
      && Uses(w', 7, k) && w'.channels == w.channels
      && VP.Serialize(Sent(a, k, frame)) in w'.wire && 7 in w'.history && w'.history[7] == [[frame], []]
  {
    TalkingIsSent(a, w, k, frame);
    var silent: seq<seq<byte>> := [];
    var h := Logged(w.history, 7, frame);
    assert silent + [frame] == [frame] && w.history[7][..0] == [];
    assert h[7] == [] + [[frame]];
    assert NewStart(h, 7)[7] == [[frame], []];
  }

  lemma TalkingIsSent(a: Srtp.Aead, w: World, k: Srtp.Keys, frame: seq<byte>)
    requires Srtp.Lawful(a) && LoggedIn(w, 7, k) && w.peers[7].txSequence == 0 && w.peers[7].txTimestamp == 0 && frame != []
    ensures Ticks(a, w, Transmit(7, {5}, None, frame))
    ensures VP.Serialize(Sent(a, k, frame)) in WireAfter(a, w, Transmit(7, {5}, None, frame))
  {
    var e := w.peers[7];
    assert |Sealed(a, e, frame)| == |frame| + Srtp.GCM_TAG_SIZE;
    assert 5 in Targets({5}, None);
    assert Outgoing(a, e, frame, 5) == VP.Serialize(Sent(a, k, frame));
  }

  /** User 1 logs in afterwards, joins, and plays user 7's old frame as tick 0 of a start that has sent nothing. */
  lemma RestartIsHeard(a: Srtp.Aead, capacity: nat, k: Srtp.Keys, k1: Srtp.Keys, frame: seq<byte>)
    requires Srtp.Lawful(a) && Srtp.NoCollision(a, {k.masterKey, k1.masterKey}) && frame != []
    ensures
      var p := Sent(a, k, frame);
      var w := Run(a, capacity, Start([]), TalkAndRestart(k, frame) + JoinAndHear(a, map[], p, VP.Serialize(p), k1, frame, 0.0));
      Playback(1, 7, JB.Frame(0, 0, frame)) in w.played && 7 in w.history && w.history[7] == [[frame], []]
  {
    var p, ks := Sent(a, k, frame), {k.masterKey, k1.masterKey};
    var d, w := VP.Serialize(p), Run(a, capacity, Start([]), TalkAndRestart(k, frame));
    var rest := JoinAndHear(a, map[], p, d, k1, frame, 0.0);
    TalkingAndRestarting(a, ks, capacity, k, frame);
    VP.ParseSerialize(p);
    Srtp.OpensOwnSeal(a, k, 0, frame);
    JoiningIsHeard(a, ks, capacity, w, 7, 0.0, d, k1, frame);
    JoiningIsReplay(a, ks, Past({}, None), map[], p, d, k1, frame, 0.0);
    QuietRunKeepsHistory(a, capacity, w, rest, 7);
    FoldAppend(Stepper(a, capacity), Start([]), TalkAndRestart(k, frame), rest);
  }

  // ---- On the frames alone, while u's key stays ----

  /** u's starts have sent nothing yet, and client and server use k for u. */
  ghost predicate StartsUnder(w: World, u: u32, k: Srtp.Keys) {
    Uses(w, u, k) && u in w.history && forall g :: 0 <= g < |w.history[u]| ==> w.history[u][g] == []
  }

  /** No exchange of u, nor its end. */
  predicate KeepsKey(u: u32, s: Step) {
    && s != Connect(u)
    && (s.ClientInit? ==> s.u != u)
    && (s.ServerInit? ==> s.id != AsI32(u))
    && s != ServerRemove(AsI32(u))
  }

  predicate Uses(w: World, u: u32, k: Srtp.Keys) {
    && u in w.peers && w.peers[u].srtp.ready && w.peers[u].srtp.current == k
    && AsI32(u) in w.sessions && w.sessions[AsI32(u)].current == k
  }

  ghost predicate AllUnder(a: Srtp.Aead, w: World, u: u32, k: Srtp.Keys) {
    Uses(w, u, k) && u in w.history && TicksOnWire(a, iset{k}, w.wire, u, w.history[u])
  }

  lemma StepKeepsKey(a: Srtp.Aead, w: World, s: Step, u: u32, k: Srtp.Keys)
    requires Uses(w, u, k) && KeepsKey(u, s)
    ensures u in PeersAfter(a, w, s) && PeersAfter(a, w, s)[u].srtp.ready && PeersAfter(a, w, s)[u].srtp.current == k
    ensures AsI32(u) in SessionsAfter(w.sessions, s) && SessionsAfter(w.sessions, s)[AsI32(u)].current == k
  {
  }

  lemma StepKeepsAllUnder(a: Srtp.Aead, ks: set<seq<byte>>, capacity: nat, w: World, s: Step, u: u32, k: Srtp.Keys)
    requires Inv(a, ks, w) && AllUnder(a, w, u, k) && KeepsKey(u, s)
    ensures AllUnder(a, Next(a, capacity, w, s), u, k)
  {
    assert GoodPeer(ks, w.history, w.peers[u]) && w.peers[u].userId == u;
    StepKeepsKey(a, w, s, u, k);
    StepKeepsTicks(a, iset{k}, w, s, u);
  }

  lemma {:induction false} RunKeepsAllUnder(a: Srtp.Aead, ks: set<seq<byte>>, capacity: nat, w: World, steps: seq<Step>, u: u32, k: Srtp.Keys)
    requires Srtp.Lawful(a) && Srtp.NoCollision(a, ks) && Inv(a, ks, w) && AllUnder(a, w, u, k)
    requires forall s :: s in steps ==> StepKeysIn(ks, s) && KeepsKey(u, s)
    ensures AllUnder(a, Run(a, capacity, w, steps), u, k)
    decreases |steps|
  {
    if steps != [] {
      StepKeepsAllUnder(a, ks, capacity, w, steps[0], u, k);
      StepKeepsInv(a, ks, capacity, w, steps[0]);
      RunKeepsAllUnder(a, ks, capacity, Next(a, capacity, w, steps[0]), steps[1..], u, k);
    }
  }

  function TickFrame(t: nat, frame: seq<byte>): JB.Frame {
    JB.Frame(Wrap(t), Wrap(SAMPLES_PER_FRAME * t), frame)
  }

  /** The server opens any tick sealed under the key it has for u. */
  lemma TickIsOpened(a: Srtp.Aead, w: World, u: u32, past: Past, k: Srtp.Keys, g: nat, t: nat, now: Srtp.Time)
    requires Srtp.Lawful(a) && AllUnder(a, w, u, k) && g < |w.history[u]| && t < |w.history[u][g]|
    requires IsStale(w.history, u, TickFrame(t, w.history[u][g][t]))
    ensures HasLiveCopy(a, w, u, past, now)
  {
    var frame := w.history[u][g][t];
    assert OnWire(a, iset{k}, w.wire, u, t, frame);
    var p: VP.Packet, k0: Srtp.Keys :| Carries(a, iset{k}, w.wire, u, t, frame, p, k0);
    VP.ParseSerialize(p);
    Srtp.OpensOwnSeal(a, k, p.sequence, frame);
    assert IsLive(a, w, u, past, now, AtServer(VP.Serialize(p)));
  }

  lemma PrefixTicksAreCurrent(h: History, u: u32, g: nat, t: nat)
    requires u in h && g < |h[u]| && t < |h[u][g]| && h[u][g] <= h[u][|h[u]| - 1]
    ensures !IsStale(h, u, TickFrame(t, h[u][g][t]))
  {
    assert TickOf(h, u, |h[u]| - 1, t, Wrap(t), Wrap(SAMPLES_PER_FRAME * t), h[u][g][t]);
  }

  lemma FirstDifference<T>(xs: seq<T>, ys: seq<T>) returns (t: nat)
    requires !(xs <= ys)
    ensures t < |xs| && (t >= |ys| || xs[t] != ys[t])
  {
    if |xs| > |ys| { return |ys|; }
    t :| 0 <= t < |xs| && xs[t] != ys[t];
  }

  lemma DifferenceIsStale(h: History, u: u32, g: nat) returns (t: nat)
    requires u in h && g < |h[u]| - 1 && !(h[u][g] <= h[u][|h[u]| - 1])
    requires |h[u][g]| <= TWO64 && |h[u][|h[u]| - 1]| <= TWO64
    requires forall i :: 0 <= i < |h[u][g]| ==> h[u][g][i] != []
    ensures t < |h[u][g]| && IsStale(h, u, TickFrame(t, h[u][g][t]))
  {
    t := FirstDifference(h[u][g], h[u][|h[u]| - 1]);
  }

  /** An encoded frame that is not in the current start is a tick of an earlier one that differs from it. */
  lemma StaleMeansDifferent(h: History, u: u32, f: JB.Frame)
    requires Encoded(h, u, f.sequence, f.timestamp, f.payload) && IsStale(h, u, f)
    ensures !StartsAgree(h, u)
  {
    var g: nat, t: nat :| TickOf(h, u, g, t, f.sequence, f.timestamp, f.payload);
    assert f == TickFrame(t, h[u][g][t]);
    if h[u][g] <= h[u][|h[u]| - 1] { PrefixTicksAreCurrent(h, u, g, t); }
  }

  lemma DifferenceIsOpened(a: Srtp.Aead, w: World, u: u32, past: Past, k: Srtp.Keys, now: Srtp.Time)
    requires Srtp.Lawful(a) && AllUnder(a, w, u, k) && !StartsAgree(w.history, u)
    requires forall g :: 0 <= g < |w.history[u]| ==> |w.history[u][g]| <= TWO64
    ensures HasLiveCopy(a, w, u, past, now)
  {
    var h := w.history;
    var g :| 0 <= g < |h[u]| - 1 && !(h[u][g] <= h[u][|h[u]| - 1]);
    forall i | 0 <= i < |h[u][g]| ensures h[u][g][i] != [] { assert OnWire(a, iset{k}, w.wire, u, i, h[u][g][i]); }
    var t := DifferenceIsStale(h, u, g);
    TickIsOpened(a, w, u, past, k, g, t, now);
  }

  /**
   * On the frames alone: while u's key is the one it had before it sent anything, and no start has passed
   * 2^64 ticks, a stale frame can be played if and only if some earlier start is not a prefix of the
   * current one. This is about the voice session's start and stop as they are; the application's window
   * starts it only after an exchange, which makes it a matter of the live copies again.
   */
  lemma StaleFrameIsPlayedIffStartsDiffer(a: Srtp.Aead, ks: set<seq<byte>>, capacity: nat, pool: seq<seq<byte>>,
                                          before: seq<Step>, mid: seq<Step>, inFlight: Option<Srtp.Keys>,
                                          u: u32, k: Srtp.Keys, now: Srtp.Time)
    requires IsRun(a, ks, pool, before + mid) && forall s :: s in mid ==> KeepsKey(u, s)
    requires PastOf(Past(InstalledKeys(before + mid), inFlight))
    requires StartsUnder(Run(a, capacity, Start(pool), before), u, k)
    requires
      var h := Run(a, capacity, Start(pool), before + mid).history;
      u in h ==> forall g :: 0 <= g < |h[u]| ==> |h[u][g]| <= TWO64
    ensures
      var w, past := Run(a, capacity, Start(pool), before + mid), Past(InstalledKeys(before + mid), inFlight);
      (exists more, p :: PlaysStale(a, ks, past, capacity, w, u, now, more, p)) <==> !StartsAgree(w.history, u)
  {
    var w, past := Run(a, capacity, Start(pool), before + mid), Past(InstalledKeys(before + mid), inFlight);
    RunIsGood(a, ks, capacity, pool, before + mid);
    StaleFrameIsPlayedIff(a, ks, capacity, pool, before + mid, inFlight, u, now);
    if c :| IsLive(a, w, u, past, now, c) {
      LiveCopyIsEncoded(a, ks, w, u, past, now, c);
      StaleMeansDifferent(w.history, u, Held(a, w, u, past, now, c).value);
    }
    TicksUnderOneKey(a, ks, capacity, pool, before, mid, u, k);
    if !StartsAgree(w.history, u) { DifferenceIsOpened(a, w, u, past, k, now); }
  }

  lemma TicksUnderOneKey(a: Srtp.Aead, ks: set<seq<byte>>, capacity: nat, pool: seq<seq<byte>>, before: seq<Step>, mid: seq<Step>, u: u32, k: Srtp.Keys)
    requires IsRun(a, ks, pool, before + mid) && forall s :: s in mid ==> KeepsKey(u, s)
    requires StartsUnder(Run(a, capacity, Start(pool), before), u, k)
    ensures AllUnder(a, Run(a, capacity, Start(pool), before + mid), u, k)
  {
    var s := Run(a, capacity, Start(pool), before);
    assert Inv(a, ks, Start(pool));
    forall x | x in before || x in mid ensures StepKeysIn(ks, x) { assert x in before + mid; }
    RunKeepsInv(a, ks, capacity, Start(pool), before);
    assert GoodPeer(ks, s.history, s.peers[u]) && s.peers[u].userId == u;
    assert AllUnder(a, s, u, k);
    RunKeepsAllUnder(a, ks, capacity, s, mid, u, k);
    FoldAppend(Stepper(a, capacity), Start(pool), before, mid);
  }
}
