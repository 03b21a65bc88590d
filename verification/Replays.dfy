/** How a live copy of a stale frame is played: one short run for each place it can be in. */
module Replays {
  import opened Bits
  import opened Options
  import opened Managers
  import opened VoicePath
  import opened Runs
  import opened EndToEnd
  import opened Deliveries
  import VP = VoicePackets
  import Srtp
  import JB = JitterBuffers
  import opened StaleFrames

  // ---- A live copy can be played ----

  /** Channels hold user ids, and each task is for another user than its sender. */
  ghost predicate Addressed(w: World) {
    && (forall c, r :: c in w.channels && r in w.channels[c] ==> IsI32(r))
    && (forall j :: j in w.tasks ==> IsI32(j.recipient) && j.recipient != AsI32(j.packet.userId))
  }

  lemma StepKeepsAddressed(a: Srtp.Aead, ks: set<seq<byte>>, capacity: nat, w: World, s: Step)
    requires Addressed(w) && Allowed(ks, s)
    ensures Addressed(Next(a, capacity, w, s))
  {
    forall j | j in TasksAfter(a, w, s) ensures IsI32(j.recipient) && j.recipient != AsI32(j.packet.userId) {
      if j !in w.tasks { assert j.recipient in Members(w.channels, AsI32(j.packet.channelId)); }
    }
  }

  lemma {:induction false} RunKeepsAddressed(a: Srtp.Aead, ks: set<seq<byte>>, capacity: nat, w: World, steps: seq<Step>)
    requires Addressed(w) && forall s :: s in steps ==> Allowed(ks, s)
    ensures Addressed(Run(a, capacity, w, steps))
    decreases |steps|
  {
    if steps != [] {
      StepKeepsAddressed(a, ks, capacity, w, steps[0]);
      RunKeepsAddressed(a, ks, capacity, Next(a, capacity, w, steps[0]), steps[1..]);
    }
  }

  /**
   * A step of a replay: nobody talks and u does nothing; the new key k goes to listener l alone, on both
   * sides, and at u's entry the server at most reads the answer in flight.
   */
  ghost predicate OnlyListens(past: Past, u: u32, l: u32, k: Srtp.Keys, s: Step) {
    && !s.Transmit? && !ByClient(s, u) && !s.ServerRemove?
    && (s.ClientInit? ==> s.u == l && s.keys == k)
    && (s.ServerInit? ==> (s.id == AsI32(l) && s.keys == k) || (s.id == AsI32(u) && past.inFlight == Some(s.keys)))
  }

  ghost predicate IsReplay(ks: set<seq<byte>>, past: Past, u: u32, now: Srtp.Time, l: u32, k: Srtp.Keys, more: seq<Step>) {
    l != u && forall s :: s in more ==> Continues(ks, past, u, now, s) && OnlyListens(past, u, l, k, s)
  }

  /** The frame is heard at the end of the replay. */
  ghost predicate Reaches(a: Srtp.Aead, ks: set<seq<byte>>, past: Past, capacity: nat, w: World, u: u32,
                          now: Srtp.Time, k: Srtp.Keys, more: seq<Step>, l: u32, f: JB.Frame) {
    IsReplay(ks, past, u, now, l, k, more) && Playback(l, u, f) in Run(a, capacity, w, more).played
  }

  predicate IsNew(ks: set<seq<byte>>, past: Past, k: Srtp.Keys) {
    k.masterKey in ks && k.masterKey !in past.used
  }

  // ... from a jitter buffer: the listener plays on

  function Plays(v: u32, u: u32, n: nat): seq<Step> {
    seq(n, i => Play(v, u))
  }

  /** One pop on the way to the frame at key k. */
  lemma PopTowards(b: JB.Buffer, k: u64)
    requires JB.Inv(b) && b.initial == 1 && k in b.frames
    ensures
      var next, (b', r) := JB.Started(b).next, JB.Popped(b);
      && next <= k && r.Some?
      && (next == k ==> r.value == b.frames[k])
      && (next < k ==> JB.Inv(b') && b'.initial == 1 && k in b'.frames && b'.frames[k] == b.frames[k] && JB.Started(b').next == next + 1)
  {
    var s := JB.Started(b);
    assert s.started && k in s.frames;
    JB.StartedKeepsInv(b);
    JB.PoppedWhenStarted(b);
    JB.StartedPop(s);
    JB.PopKeepsInv(b);
  }

  lemma PlayFromBuffer(a: Srtp.Aead, capacity: nat, w: World, v: u32, u: u32)
    requires v in w.peers && u in w.peers[v].sources
    ensures
      var (b', r), w' := JB.Popped(w.peers[v].sources[u].buffer), Next(a, capacity, w, Play(v, u));
      && v in w'.peers && u in w'.peers[v].sources && w'.peers[v].sources[u].buffer == b'
      && (r.Some? ==> Playback(v, u, r.value) in w'.played)
  {
  }

  lemma {:induction false} BufferedIsPlayed(a: Srtp.Aead, capacity: nat, w: World, v: u32, u: u32, k: u64) returns (n: nat)
    requires v in w.peers && u in w.peers[v].sources && k in w.peers[v].sources[u].buffer.frames
    requires JB.Inv(w.peers[v].sources[u].buffer) && w.peers[v].sources[u].buffer.initial == 1
    ensures Playback(v, u, w.peers[v].sources[u].buffer.frames[k]) in Run(a, capacity, w, Plays(v, u, n)).played
    decreases k - JB.Started(w.peers[v].sources[u].buffer).next
  {
    PopTowards(w.peers[v].sources[u].buffer, k);
    PlayFromBuffer(a, capacity, w, v, u);
    var w' := Next(a, capacity, w, Play(v, u));
    var rest := 0;
    if JB.Started(w.peers[v].sources[u].buffer).next < k {
      rest := BufferedIsPlayed(a, capacity, w', v, u, k);
    } else {
      assert Plays(v, u, 0) == [];
    }
    n := rest + 1;
    assert Plays(v, u, n) == [Play(v, u)] + Plays(v, u, rest);
    FoldFirst(Stepper(a, capacity), w, Play(v, u), Plays(v, u, rest));
  }

  // ... from a datagram another client can open: it reads and plays it

  /** A source's first frame is played by the next tick. */
  lemma FirstFramePlays(f: JB.Frame)
    ensures JB.Popped(JB.Pushed(NEW_SOURCE.buffer, f)).1 == Some(f)
  {
    var b := JB.Pushed(NEW_SOURCE.buffer, f);
    assert b.frames == map[f.sequence := f] && b.initial == 1;
    assert JB.IsMin(b.frames, JB.FirstKey(b.frames));
  }

  lemma PlaysReceived(a: Srtp.Aead, capacity: nat, w: World, l: u32, p: VP.Packet, plain: seq<byte>)
    requires l in w.peers && p.userId in w.peers[l].sources
    requires w.peers[l].sources[p.userId].buffer == JB.Pushed(NEW_SOURCE.buffer, FrameOf(p, plain))
    ensures Playback(l, p.userId, FrameOf(p, plain)) in Next(a, capacity, w, Play(l, p.userId)).played
  {
    FirstFramePlays(FrameOf(p, plain));
  }

  /** A client without sources that opens the datagram plays its frame. */
  lemma OpenedIsPlayed(a: Srtp.Aead, capacity: nat, w: World, v: u32, d: seq<byte>, now: Srtp.Time)
    requires v in w.peers && w.peers[v].userId == v && w.peers[v].sources == map[] && d in w.wire && VP.Parse(d).Some?
    requires VP.Parse(d).value.userId != v
    requires
      var p := VP.Parse(d).value;
      w.peers[v].srtp.ready && Srtp.ClientDecrypt(a, w.peers[v].srtp, p.sequence, p.payload, now).1 != []
    ensures
      var p := VP.Parse(d).value;
      var plain := Srtp.ClientDecrypt(a, w.peers[v].srtp, p.sequence, p.payload, now).1;
      Playback(v, p.userId, FrameOf(p, plain))
      in Next(a, capacity, Next(a, capacity, w, Receive(v, d, now)), Play(v, p.userId)).played
  {
    var p := VP.Parse(d).value;
    PlaysReceived(a, capacity, Next(a, capacity, w, Receive(v, d, now)), v, p,
                  Srtp.ClientDecrypt(a, w.peers[v].srtp, p.sequence, p.payload, now).1);
  }

  function Reread(v: u32, d: seq<byte>, u: u32, now: Srtp.Time): seq<Step> {
    [ClearSources(v), Receive(v, d, now), Play(v, u)]
  }

  lemma RereadIsHeard(a: Srtp.Aead, capacity: nat, w: World, u: u32, past: Past, now: Srtp.Time, d: seq<byte>, v: u32)
    requires v in w.peers && w.peers[v].userId == v && IsLive(a, w, u, past, now, AtClient(d, v))
    ensures Playback(v, u, Held(a, w, u, past, now, AtClient(d, v)).value) in Run(a, capacity, w, Reread(v, d, u, now)).played
  {
    FoldThree(Stepper(a, capacity), w, ClearSources(v), Receive(v, d, now), Play(v, u));
    OpenedIsPlayed(a, capacity, Next(a, capacity, w, ClearSources(v)), v, d, now);
  }

  lemma RereadIsReplay(ks: set<seq<byte>>, past: Past, u: u32, now: Srtp.Time, d: seq<byte>, v: u32, k: Srtp.Keys)
    requires v != u
    ensures IsReplay(ks, past, u, now, v, k, Reread(v, d, u, now))
  {
  }

  // ... from a task: its recipient logs in with a new key, and hears it

  /** Client l connects, and client and server agree on k. */
  function LogIn(l: u32, k: Srtp.Keys, now: Srtp.Time): seq<Step> {
    [Connect(l), ClientInit(l, k, now), ServerInit(AsI32(l), k, now)]
  }

  /** The task is sent, read and played. */
  function Hear(a: Srtp.Aead, job: Job, l: u32, k: Srtp.Keys, now: Srtp.Time): seq<Step> {
    [ServerSend(job), Receive(l, Forwarded(a, k, job.packet, job.plain), now), Play(l, job.packet.userId)]
  }

  ghost predicate LoggedIn(w: World, l: u32, k: Srtp.Keys) {
    && l in w.peers && w.peers[l].userId == l && w.peers[l].sources == map[]
    && w.peers[l].srtp.ready && w.peers[l].srtp.current == k
    && AsI32(l) in w.sessions && w.sessions[AsI32(l)].current == k
  }

  lemma LoggingIn(a: Srtp.Aead, capacity: nat, w: World, l: u32, k: Srtp.Keys, now: Srtp.Time)
    ensures
      var w' := Run(a, capacity, w, LogIn(l, k, now));
      && LoggedIn(w', l, k)
      && w'.tasks == w.tasks && w'.wire == w.wire && w'.channels == w.channels
      && forall id :: id != AsI32(l) ==> Lookup(w'.sessions, id) == Lookup(w.sessions, id)
  {
    FoldThree(Stepper(a, capacity), w, Connect(l), ClientInit(l, k, now), ServerInit(AsI32(l), k, now));
  }

  lemma Hearing(a: Srtp.Aead, ks: set<seq<byte>>, capacity: nat, w: World, job: Job, l: u32, k: Srtp.Keys, now: Srtp.Time)
    requires Srtp.Lawful(a) && AllEmpty(w.pool) && LoggedIn(w, l, k) && job in w.tasks
    requires job.recipient == AsI32(l) && l != job.packet.userId && job.plain != []
    ensures Playback(l, job.packet.userId, FrameOf(job.packet, job.plain))
            in Run(a, capacity, w, Hear(a, job, l, k, now)).played
  {
    var d := Forwarded(a, k, job.packet, job.plain);
    var p := job.packet.(payload := Srtp.SealWith(a, k, job.packet.sequence, job.plain));
    FoldThree(Stepper(a, capacity), w, ServerSend(job), Receive(l, d, now), Play(l, job.packet.userId));
    TaskSends(a, capacity, w, job);
    VP.ParseSerialize(p);
    Srtp.OpensOwnSeal(a, k, p.sequence, job.plain);
    Srtp.TooShortNeverOpens(a, k, p.sequence, p.payload);
    OpenedIsPlayed(a, capacity, Next(a, capacity, w, ServerSend(job)), l, d, now);
  }

  lemma LogInIsReplay(ks: set<seq<byte>>, past: Past, u: u32, now: Srtp.Time, l: u32, k: Srtp.Keys)
    requires l != u && IsNew(ks, past, k)
    ensures IsReplay(ks, past, u, now, l, k, LogIn(l, k, now))
  {
    AsI32Injective(l, u);
  }

  lemma HearIsReplay(a: Srtp.Aead, ks: set<seq<byte>>, past: Past, u: u32, now: Srtp.Time, l: u32, k: Srtp.Keys, job: Job)
    requires l != u
    ensures IsReplay(ks, past, u, now, l, k, Hear(a, job, l, k, now))
  {
  }

  lemma ReplaysJoin(ks: set<seq<byte>>, past: Past, u: u32, now: Srtp.Time, l: u32, k: Srtp.Keys, xs: seq<Step>, ys: seq<Step>)
    requires IsReplay(ks, past, u, now, l, k, xs) && IsReplay(ks, past, u, now, l, k, ys)
    ensures IsReplay(ks, past, u, now, l, k, xs + ys)
  {
  }

  lemma TaskIsHeard(a: Srtp.Aead, ks: set<seq<byte>>, capacity: nat, w: World, job: Job, l: u32, k: Srtp.Keys, now: Srtp.Time)
    requires Srtp.Lawful(a) && Srtp.NoCollision(a, ks) && Inv(a, ks, w) && k.masterKey in ks && job in w.tasks
    requires job.recipient == AsI32(l) && l != job.packet.userId && job.plain != []
    ensures Playback(l, job.packet.userId, FrameOf(job.packet, job.plain))
            in Run(a, capacity, w, LogIn(l, k, now) + Hear(a, job, l, k, now)).played
  {
    LoggingIn(a, capacity, w, l, k, now);
    RunKeepsInv(a, ks, capacity, w, LogIn(l, k, now));
    Hearing(a, ks, capacity, Run(a, capacity, w, LogIn(l, k, now)), job, l, k, now);
    FoldAppend(Stepper(a, capacity), w, LogIn(l, k, now), Hear(a, job, l, k, now));
  }

  // ... from a datagram the server can open: somebody else joins the channel and hears it

  /** Another user; ids are positive. */
  function Listener(u: u32): (l: u32)
    ensures l != u && l > 0
  {
    if u == 1 then 2 else 1
  }

  /** l joins channel c, and the server reads the datagram. */
  function Join(channels: Channels, d: seq<byte>, l: u32, c: u32, now: Srtp.Time): seq<Step> {
    [Regroup(channels[AsI32(c) := Members(channels, AsI32(c)) + {AsI32(l)}]), ServerReceive(d, now)]
  }

  lemma JoinIsReplay(ks: set<seq<byte>>, past: Past, u: u32, now: Srtp.Time, l: u32, k: Srtp.Keys, channels: Channels, d: seq<byte>, c: u32)
    requires l != u && forall i, r :: i in channels && r in channels[i] ==> IsI32(r)
    ensures IsReplay(ks, past, u, now, l, k, Join(channels, d, l, c, now))
  {
  }

  lemma Joining(a: Srtp.Aead, capacity: nat, w: World, u: u32, now: Srtp.Time, d: seq<byte>, k: Srtp.Keys, plain: seq<byte>)
    requires LoggedIn(w, Listener(u), k) && d in w.wire && IsOf(u, d)
    requires
      var p := VP.Parse(d).value;
      Srtp.ServerDecrypt(a, Lookup(w.sessions, AsI32(u)), p.sequence, p.payload, now) == Some(plain)
    ensures
      var p, l := VP.Parse(d).value, Listener(u);
      var w' := Run(a, capacity, w, Join(w.channels, d, l, p.channelId, now));
      LoggedIn(w', l, k) && Job(p, plain, AsI32(l)) in w'.tasks
  {
    var p, l := VP.Parse(d).value, Listener(u);
    var channels: Channels := w.channels[AsI32(p.channelId) := Members(w.channels, AsI32(p.channelId)) + {AsI32(l)}];
    assert Join(w.channels, d, l, p.channelId, now) == [Regroup(channels)] + [ServerReceive(d, now)];
    FoldFirst(Stepper(a, capacity), w, Regroup(channels), [ServerReceive(d, now)]);
    assert [ServerReceive(d, now)][1..] == [];
    AsI32Injective(l, u);
    assert Job(p, plain, AsI32(l)) in Jobs(a, w.sessions, channels, d, now);
  }

  function JoinAndHear(a: Srtp.Aead, channels: Channels, p: VP.Packet, d: seq<byte>, k: Srtp.Keys, plain: seq<byte>, now: Srtp.Time): seq<Step> {
    var l := Listener(p.userId);
    LogIn(l, k, now) + Join(channels, d, l, p.channelId, now) + Hear(a, Job(p, plain, AsI32(l)), l, k, now)
  }

  lemma JoiningIsReplay(a: Srtp.Aead, ks: set<seq<byte>>, past: Past, channels: Channels, p: VP.Packet, d: seq<byte>, k: Srtp.Keys, plain: seq<byte>, now: Srtp.Time)
    requires IsNew(ks, past, k) && forall i, r :: i in channels && r in channels[i] ==> IsI32(r)
    ensures IsReplay(ks, past, p.userId, now, Listener(p.userId), k, JoinAndHear(a, channels, p, d, k, plain, now))
  {
    var l := Listener(p.userId);
    LogInIsReplay(ks, past, p.userId, now, l, k);
    JoinIsReplay(ks, past, p.userId, now, l, k, channels, d, p.channelId);
    HearIsReplay(a, ks, past, p.userId, now, l, k, Job(p, plain, AsI32(l)));
    ReplaysJoin(ks, past, p.userId, now, l, k, LogIn(l, k, now), Join(channels, d, l, p.channelId, now));
    ReplaysJoin(ks, past, p.userId, now, l, k, LogIn(l, k, now) + Join(channels, d, l, p.channelId, now),
                Hear(a, Job(p, plain, AsI32(l)), l, k, now));
  }

  lemma JoiningIsHeard(a: Srtp.Aead, ks: set<seq<byte>>, capacity: nat, w: World, u: u32, now: Srtp.Time, d: seq<byte>, k: Srtp.Keys, plain: seq<byte>)
    requires Srtp.Lawful(a) && Srtp.NoCollision(a, ks) && Inv(a, ks, w)
    requires k.masterKey in ks && d in w.wire && IsOf(u, d) && plain != []
    requires
      var p := VP.Parse(d).value;
      Srtp.ServerDecrypt(a, Lookup(w.sessions, AsI32(u)), p.sequence, p.payload, now) == Some(plain)
    ensures
      var p := VP.Parse(d).value;
      Playback(Listener(u), u, FrameOf(p, plain)) in Run(a, capacity, w, JoinAndHear(a, w.channels, p, d, k, plain, now)).played
  {
    var p, l := VP.Parse(d).value, Listener(u);
    var job, start, join := Job(p, plain, AsI32(l)), LogIn(l, k, now), Join(w.channels, d, l, p.channelId, now);
    AsI32Injective(l, u);
    LoggingIn(a, capacity, w, l, k, now);
    RunKeepsInv(a, ks, capacity, w, start);
    JoinedIsHeard(a, ks, capacity, Run(a, capacity, w, start), u, now, d, k, plain);
    FoldAppend(Stepper(a, capacity), w, start, join);
    FoldAppend(Stepper(a, capacity), w, start + join, Hear(a, job, l, k, now));
  }

  lemma JoinedIsHeard(a: Srtp.Aead, ks: set<seq<byte>>, capacity: nat, w: World, u: u32, now: Srtp.Time, d: seq<byte>, k: Srtp.Keys, plain: seq<byte>)
    requires Srtp.Lawful(a) && Srtp.NoCollision(a, ks) && Inv(a, ks, w) && plain != []
    requires LoggedIn(w, Listener(u), k) && d in w.wire && IsOf(u, d)
    requires
      var p := VP.Parse(d).value;
      Srtp.ServerDecrypt(a, Lookup(w.sessions, AsI32(u)), p.sequence, p.payload, now) == Some(plain)
    ensures
      var p, l := VP.Parse(d).value, Listener(u);
      Playback(l, u, FrameOf(p, plain))
      in Run(a, capacity, Run(a, capacity, w, Join(w.channels, d, l, p.channelId, now)), Hear(a, Job(p, plain, AsI32(l)), l, k, now)).played
  {
    var p, l := VP.Parse(d).value, Listener(u);
    Joining(a, capacity, w, u, now, d, k, plain);
    RunKeepsInv(a, ks, capacity, w, Join(w.channels, d, l, p.channelId, now));
    Hearing(a, ks, capacity, Run(a, capacity, w, Join(w.channels, d, l, p.channelId, now)), Job(p, plain, AsI32(l)), l, k, now);
  }

  // Each kind of live copy has a replay

  lemma ServerCopyReaches(a: Srtp.Aead, ks: set<seq<byte>>, past: Past, capacity: nat, w: World, u: u32, now: Srtp.Time, k: Srtp.Keys, d: seq<byte>)
    returns (more: seq<Step>, l: u32)
    requires Srtp.Lawful(a) && Srtp.NoCollision(a, ks) && Inv(a, ks, w) && Addressed(w) && IsNew(ks, past, k)
    requires IsLive(a, w, u, past, now, AtServer(d))
    ensures Reaches(a, ks, past, capacity, w, u, now, k, more, l, Held(a, w, u, past, now, AtServer(d)).value)
  {
    var p := VP.Parse(d).value;
    var plain := Srtp.ServerDecrypt(a, Lookup(w.sessions, AsI32(u)), p.sequence, p.payload, now).value;
    more, l := JoinAndHear(a, w.channels, p, d, k, plain, now), Listener(u);
    JoiningIsHeard(a, ks, capacity, w, u, now, d, k, plain);
    JoiningIsReplay(a, ks, past, w.channels, p, d, k, plain, now);
  }

  /** The server reads the answer in flight first. */
  lemma AnswerMakesServerCopy(a: Srtp.Aead, capacity: nat, w: World, u: u32, past: Past, now: Srtp.Time, d: seq<byte>)
    requires IsLive(a, w, u, past, now, AfterAnswer(d))
    ensures
      var w' := Next(a, capacity, w, ServerInit(AsI32(u), past.inFlight.value, now));
      && w'.history == w.history && IsLive(a, w', u, past, now, AtServer(d))
      && Held(a, w', u, past, now, AtServer(d)) == Held(a, w, u, past, now, AfterAnswer(d))
  {
  }

  /** The server reads u's answer in flight, and a replay goes on from there. */
  lemma ReadThenReaches(a: Srtp.Aead, ks: set<seq<byte>>, past: Past, capacity: nat, w: World, u: u32, now: Srtp.Time, k: Srtp.Keys,
                        rest: seq<Step>, l: u32, f: JB.Frame)
    requires past.inFlight.Some? && past.inFlight.value.masterKey in ks
    requires Reaches(a, ks, past, capacity, Next(a, capacity, w, ServerInit(AsI32(u), past.inFlight.value, now)), u, now, k, rest, l, f)
    ensures Reaches(a, ks, past, capacity, w, u, now, k, [ServerInit(AsI32(u), past.inFlight.value, now)] + rest, l, f)
  {
    var read := ServerInit(AsI32(u), past.inFlight.value, now);
    assert IsReplay(ks, past, u, now, l, k, [read]);
    ReplaysJoin(ks, past, u, now, l, k, [read], rest);
    FoldFirst(Stepper(a, capacity), w, read, rest);
  }

  lemma AnswerCopyReaches(a: Srtp.Aead, ks: set<seq<byte>>, past: Past, capacity: nat, w: World, u: u32, now: Srtp.Time, k: Srtp.Keys, d: seq<byte>)
    returns (more: seq<Step>, l: u32)
    requires Srtp.Lawful(a) && Srtp.NoCollision(a, ks) && Inv(a, ks, w) && Addressed(w) && IsNew(ks, past, k)
    requires past.used <= ks && PastOf(past) && IsLive(a, w, u, past, now, AfterAnswer(d))
    ensures Reaches(a, ks, past, capacity, w, u, now, k, more, l, Held(a, w, u, past, now, AfterAnswer(d)).value)
  {
    var read := ServerInit(AsI32(u), past.inFlight.value, now);
    var w' := Next(a, capacity, w, read);
    AnswerMakesServerCopy(a, capacity, w, u, past, now, d);
    StepKeepsInv(a, ks, capacity, w, read);
    StepKeepsAddressed(a, ks, capacity, w, read);
    var rest;
    rest, l := ServerCopyReaches(a, ks, past, capacity, w', u, now, k, d);
    more := [read] + rest;
    ReadThenReaches(a, ks, past, capacity, w, u, now, k, rest, l, Held(a, w, u, past, now, AfterAnswer(d)).value);
  }

  lemma ClientCopyReaches(a: Srtp.Aead, ks: set<seq<byte>>, past: Past, capacity: nat, w: World, u: u32, now: Srtp.Time, k: Srtp.Keys, d: seq<byte>, v: u32)
    requires Inv(a, ks, w) && IsLive(a, w, u, past, now, AtClient(d, v))
    ensures Reaches(a, ks, past, capacity, w, u, now, k, Reread(v, d, u, now), v, Held(a, w, u, past, now, AtClient(d, v)).value)
  {
    PeerKeys(a, ks, w, v);
    RereadIsHeard(a, capacity, w, u, past, now, d, v);
    RereadIsReplay(ks, past, u, now, d, v, k);
  }

  lemma TaskCopyReaches(a: Srtp.Aead, ks: set<seq<byte>>, past: Past, capacity: nat, w: World, u: u32, now: Srtp.Time, k: Srtp.Keys, j: Job)
    returns (more: seq<Step>, l: u32)
    requires Srtp.Lawful(a) && Srtp.NoCollision(a, ks) && Inv(a, ks, w) && Addressed(w) && IsNew(ks, past, k)
    requires IsLive(a, w, u, past, now, InTask(j))
    ensures Reaches(a, ks, past, capacity, w, u, now, k, more, l, Held(a, w, u, past, now, InTask(j)).value)
  {
    l := FromI32(j.recipient);
    more := LogIn(l, k, now) + Hear(a, j, l, k, now);
    TaskIsHeard(a, ks, capacity, w, j, l, k, now);
    LogInIsReplay(ks, past, u, now, l, k);
    HearIsReplay(a, ks, past, u, now, l, k, j);
    ReplaysJoin(ks, past, u, now, l, k, LogIn(l, k, now), Hear(a, j, l, k, now));
  }

  lemma BufferCanPlay(a: Srtp.Aead, ks: set<seq<byte>>, w: World, u: u32, v: u32)
    requires Inv(a, ks, w) && v in w.peers && u in w.peers[v].sources
    ensures JB.Inv(w.peers[v].sources[u].buffer) && w.peers[v].sources[u].buffer.initial == 1 && v != u
  {
    assert GoodPeer(ks, w.history, w.peers[v]) && GenuineBuffer(w.history, u, w.peers[v].sources[u].buffer) && w.peers[v].userId == v;
  }

  lemma PlaysAreReplay(ks: set<seq<byte>>, past: Past, u: u32, now: Srtp.Time, v: u32, k: Srtp.Keys, n: nat)
    requires v != u
    ensures IsReplay(ks, past, u, now, v, k, Plays(v, u, n))
  {
  }

  lemma BufferCopyReaches(a: Srtp.Aead, ks: set<seq<byte>>, past: Past, capacity: nat, w: World, u: u32, now: Srtp.Time, k: Srtp.Keys, v: u32, key: u64)
    returns (more: seq<Step>)
    requires Inv(a, ks, w) && IsLive(a, w, u, past, now, InBuffer(v, key))
    ensures Reaches(a, ks, past, capacity, w, u, now, k, more, v, Held(a, w, u, past, now, InBuffer(v, key)).value)
  {
    BufferCanPlay(a, ks, w, u, v);
    var n := BufferedIsPlayed(a, capacity, w, v, u, key);
    more := Plays(v, u, n);
    PlaysAreReplay(ks, past, u, now, v, k, n);
  }

  lemma LiveCopyReaches(a: Srtp.Aead, ks: set<seq<byte>>, past: Past, capacity: nat, w: World, u: u32, now: Srtp.Time, k: Srtp.Keys, c: Copy)
    returns (more: seq<Step>, l: u32)
    requires Srtp.Lawful(a) && Srtp.NoCollision(a, ks) && Inv(a, ks, w) && Addressed(w) && IsNew(ks, past, k)
    requires past.used <= ks && PastOf(past) && IsLive(a, w, u, past, now, c)
    ensures Reaches(a, ks, past, capacity, w, u, now, k, more, l, Held(a, w, u, past, now, c).value)
  {
    match c
    case AtServer(d) => more, l := ServerCopyReaches(a, ks, past, capacity, w, u, now, k, d);
    case AfterAnswer(d) => more, l := AnswerCopyReaches(a, ks, past, capacity, w, u, now, k, d);
    case AtClient(d, v) =>
      more, l := Reread(v, d, u, now), v;
      ClientCopyReaches(a, ks, past, capacity, w, u, now, k, d, v);
    case InTask(j) => more, l := TaskCopyReaches(a, ks, past, capacity, w, u, now, k, j);
    case InBuffer(v, key) =>
      l := v;
      more := BufferCopyReaches(a, ks, past, capacity, w, u, now, k, v, key);
  }

  /**
   * Each live copy of a frame of an earlier start can still be played, that very frame, by a replay: u does
   * nothing, the one new key is the listener's alone, and the server reads at most the answer in flight.
   */
  lemma OldStartIsPlayed(a: Srtp.Aead, ks: set<seq<byte>>, past: Past, capacity: nat, w: World, u: u32, now: Srtp.Time, k: Srtp.Keys, c: Copy)
    returns (more: seq<Step>, p: Playback)
    requires Srtp.Lawful(a) && Srtp.NoCollision(a, ks) && Inv(a, ks, w) && Addressed(w) && u in w.history
    requires past.used <= ks && PastOf(past) && IsNew(ks, past, k) && IsLive(a, w, u, past, now, c)
    ensures PlaysStale(a, ks, past, capacity, w, u, now, more, p)
    ensures p.frame == Held(a, w, u, past, now, c).value && IsReplay(ks, past, u, now, p.listener, k, more)
  {
    var w0 := w.(played := {});
    ForgetPlayed(a, ks, w, u, past, now, c);
    var l;
    more, l := LiveCopyReaches(a, ks, past, capacity, w0, u, now, k, c);
    p := Playback(l, u, Held(a, w, u, past, now, c).value);
    QuietRunKeepsHistory(a, capacity, w0, more, u);
    SameTicksSameStale(w.history, Run(a, capacity, w0, more).history, u, p.frame);
  }

  lemma ForgetPlayed(a: Srtp.Aead, ks: set<seq<byte>>, w: World, u: u32, past: Past, now: Srtp.Time, c: Copy)
    requires Inv(a, ks, w) && Addressed(w)
    ensures Inv(a, ks, w.(played := {})) && Addressed(w.(played := {}))
    ensures Held(a, w.(played := {}), u, past, now, c) == Held(a, w, u, past, now, c)
    ensures IsLive(a, w.(played := {}), u, past, now, c) <==> IsLive(a, w, u, past, now, c)
  {
  }
}
