/**
 * The voice path and the key exchanges as one system: clients and the server get their keys from the
 * exchanges of `KeyAgreement`, and every packet a client reads is one that may make it forget a key.
 */
module VoiceKeys {
  import opened Bits
  import opened Options
  import opened Managers
  import opened VoicePath
  import opened Runs
  import opened Deliveries
  import E = EndToEnd
  import K = KeyAgreement
  import VP = VoicePackets
  import Srtp
  import JB = JitterBuffers

  /** The voice path, and the exchange of each user that is logged in. */
  datatype Joined = Joined(world: E.World, exchanges: map<u32, K.State>)

  datatype Step =
    | Login(u: u32)                        // after the cleanup of an earlier connection
    | Logout(u: u32)                       // that cleanup; the client may talk on, with what keys it has
    | Exchange(u: u32, turn: K.Step)
    | Voice(step: E.Step)

  /** What a step of an exchange installs. */
  function Install(g: K.Crypto, u: u32, s: K.State, step: K.Step): Option<E.Step> {
    if K.SwitchesClient(s, step) then
      Some(E.ClientInit(u, g.kdf(g.dh(step.b, s.toClient[0].public.key)), step.at))
    else if K.SwitchesServer(s, step) then
      Some(E.ServerInit(AsI32(u), g.kdf(g.dh(K.Pending(s).value, s.toServer[0].key)), step.at))
    else None
  }

  /** What reading a datagram means to the reader's exchange: its session tries its keys. */
  function Arrival(w: E.World, step: E.Step): Option<K.Step> {
    if step.Receive? && step.data in w.wire && VP.Parse(step.data).Some? && VP.Parse(step.data).value.userId != step.u
    then Some(K.VoiceArrives(VP.Parse(step.data).value.payload, VP.Parse(step.data).value.sequence, step.now))
    else None
  }

  /** A step of the voice path by itself: keys come from exchanges, clients from logins. */
  predicate KeyFree(step: E.Step) {
    !step.Connect? && !step.ClientInit? && !step.ServerInit? && !step.ServerRemove?
  }

  function Next(x: Srtp.Aead, g: K.Crypto, capacity: nat, j: Joined, s: Step): Joined {
    match s
    case Login(u) =>
      Joined(E.Next(x, capacity, E.Next(x, capacity, j.world, E.ServerRemove(AsI32(u))), E.Connect(u)),
             j.exchanges[u := K.INITIAL])
    case Logout(u) => Joined(E.Next(x, capacity, j.world, E.ServerRemove(AsI32(u))), j.exchanges - {u})
    case Exchange(u, step) =>
      if u !in j.exchanges || step.VoiceArrives? then j
      else
        var install := Install(g, u, j.exchanges[u], step);
        Joined(if install.Some? then E.Next(x, capacity, j.world, install.value) else j.world,
               j.exchanges[u := K.Next(x, g, j.exchanges[u], step)])
    case Voice(step) =>
      if !KeyFree(step) then j
      else
        var arrival := Arrival(j.world, step);
        Joined(E.Next(x, capacity, j.world, step),
               if arrival.Some? && step.u in j.exchanges
               then j.exchanges[step.u := K.Next(x, g, j.exchanges[step.u], arrival.value)] else j.exchanges)
  }

  /** The step of u's exchange that a joined step takes, if any. */
  function StepOf(j: Joined, s: Step, u: u32): Option<K.Step> {
    if u !in j.exchanges then None
    else match s
      case Login(_) => None
      case Logout(_) => None
      case Exchange(v, step) => if v == u && !step.VoiceArrives? then Some(step) else None
      case Voice(step) => if KeyFree(step) && step.Receive? && step.u == u then Arrival(j.world, step) else None
  }

  /** u's connection neither ends nor begins. */
  predicate Stays(u: u32, s: Step) {
    s != Login(u) && s != Logout(u)
  }

  /** Secrets are fresh, clocks do not run backwards, and keys are among ks. */
  ghost predicate Proper(g: K.Crypto, ks: set<seq<byte>>, j: Joined, s: Step) {
    && (forall u :: u in j.exchanges && StepOf(j, s, u).Some? ==>
          K.Possible(j.exchanges[u], StepOf(j, s, u).value))
    && (s.Exchange? && s.u in j.exchanges && Install(g, s.u, j.exchanges[s.u], s.turn).Some? ==>
          E.StepKeysIn(ks, Install(g, s.u, j.exchanges[s.u], s.turn).value))
  }

  ghost predicate IsRun(x: Srtp.Aead, g: K.Crypto, ks: set<seq<byte>>, capacity: nat, j: Joined, steps: seq<Step>)
    decreases |steps|
  {
    steps == [] || (Proper(g, ks, j, steps[0]) && IsRun(x, g, ks, capacity, Next(x, g, capacity, j, steps[0]), steps[1..]))
  }

  function Stepper(x: Srtp.Aead, g: K.Crypto, capacity: nat): (Joined, Step) -> Joined {
    (j, s) => Next(x, g, capacity, j, s)
  }

  function Run(x: Srtp.Aead, g: K.Crypto, capacity: nat, j: Joined, steps: seq<Step>): Joined {
    Fold(Stepper(x, g, capacity), j, steps)
  }

  function Start(pool: seq<seq<byte>>): Joined {
    Joined(E.Start(pool), map[])
  }

  // ---- Both systems keep step ----

  /** u's client and the server's entry for u are those of u's exchange. */
  predicate Matches(j: Joined, u: u32) {
    && u in j.exchanges && u in j.world.peers
    && j.world.peers[u].srtp == j.exchanges[u].client
    && Lookup(j.world.sessions, AsI32(u)) == j.exchanges[u].entry
  }

  ghost predicate UserInv(g: K.Crypto, j: Joined, u: u32) {
    u in j.exchanges ==> Matches(j, u) && K.Inv(g, j.exchanges[u])
  }

  ghost predicate UsersInv(g: K.Crypto, j: Joined) {
    forall u :: UserInv(g, j, u)
  }

  ghost predicate Inv(x: Srtp.Aead, g: K.Crypto, ks: set<seq<byte>>, j: Joined) {
    E.Inv(x, ks, j.world) && UsersInv(g, j)
  }

  /** A joined step takes one step of u's exchange, or none, or begins it anew. */
  lemma ExchangeAfter(x: Srtp.Aead, g: K.Crypto, capacity: nat, j: Joined, s: Step, u: u32)
    requires u in j.exchanges && Stays(u, s)
    ensures u in Next(x, g, capacity, j, s).exchanges
    ensures Next(x, g, capacity, j, s).exchanges[u]
         == match StepOf(j, s, u) case Some(step) => K.Next(x, g, j.exchanges[u], step) case None => j.exchanges[u]
  {
  }

  lemma LoginMatches(x: Srtp.Aead, g: K.Crypto, capacity: nat, j: Joined, u: u32, v: u32)
    requires u == v || Matches(j, v)
    ensures Matches(Next(x, g, capacity, j, Login(u)), v)
  {
    AsI32Injective(u, v);
  }

  /** An exchange's step changes the keys as the install does, and not otherwise. */
  lemma InstallIsTheChange(x: Srtp.Aead, g: K.Crypto, u: u32, s: K.State, step: K.Step)
    requires !step.VoiceArrives?
    ensures
      var t, i := K.Next(x, g, s, step), Install(g, u, s, step);
      && t.client == (if K.SwitchesClient(s, step) then Srtp.ClientInstall(s.client, i.value.keys, i.value.now) else s.client)
      && t.entry == (if K.SwitchesServer(s, step) then Some(Srtp.ServerInstall(s.entry, i.value.keys, i.value.now)) else s.entry)
  {
  }

  lemma InstallMatches(x: Srtp.Aead, w: E.World, install: E.Step, u: u32, v: u32)
    requires v in w.peers && ((install.ClientInit? && install.u == u) || (install.ServerInit? && install.id == AsI32(u)))
    ensures v in E.PeersAfter(x, w, install)
    ensures E.PeersAfter(x, w, install)[v].srtp
         == if install.ClientInit? && u == v then Srtp.ClientInstall(w.peers[v].srtp, install.keys, install.now) else w.peers[v].srtp
    ensures Lookup(E.SessionsAfter(w.sessions, install), AsI32(v))
         == if install.ServerInit? && u == v then Some(Srtp.ServerInstall(Lookup(w.sessions, AsI32(v)), install.keys, install.now))
            else Lookup(w.sessions, AsI32(v))
  {
    AsI32Injective(u, v);
  }

  lemma LogoutMatches(x: Srtp.Aead, g: K.Crypto, capacity: nat, j: Joined, u: u32, v: u32)
    requires u != v && Matches(j, v)
    ensures Matches(Next(x, g, capacity, j, Logout(u)), v)
  {
    AsI32Injective(u, v);
  }

  lemma ExchangeMatches(x: Srtp.Aead, g: K.Crypto, capacity: nat, j: Joined, u: u32, step: K.Step, v: u32)
    requires Matches(j, v) && (u in j.exchanges ==> Matches(j, u))
    ensures Matches(Next(x, g, capacity, j, Exchange(u, step)), v)
  {
    if u in j.exchanges && !step.VoiceArrives? {
      InstallIsTheChange(x, g, u, j.exchanges[u], step);
      var install := Install(g, u, j.exchanges[u], step);
      if install.Some? { InstallMatches(x, j.world, install.value, u, v); }
    }
  }

  /** The session after reading a datagram is the exchange's after the packet has arrived. */
  lemma ArrivalMatches(x: Srtp.Aead, g: K.Crypto, w: E.World, step: E.Step, s: K.State)
    requires step.Receive? && step.u in w.peers && w.peers[step.u].userId == step.u && w.peers[step.u].srtp == s.client
    ensures E.PeersAfter(x, w, step)[step.u].srtp
         == match Arrival(w, step) case Some(a) => K.Next(x, g, s, a).client case None => s.client
  {
  }

  lemma VoiceLeavesKeys(x: Srtp.Aead, w: E.World, step: E.Step, v: u32)
    requires KeyFree(step) && v in w.peers && !(step.Receive? && step.u == v)
    ensures v in E.PeersAfter(x, w, step) && E.PeersAfter(x, w, step)[v].srtp == w.peers[v].srtp
  {
  }

  /** v's session and exchange after a step of the voice path. */
  lemma VoiceKeepsClient(x: Srtp.Aead, g: K.Crypto, j: Joined, step: E.Step, v: u32)
    requires Matches(j, v) && j.world.peers[v].userId == v && KeyFree(step)
    ensures v in E.PeersAfter(x, j.world, step)
    ensures E.PeersAfter(x, j.world, step)[v].srtp
         == match StepOf(j, Voice(step), v) case Some(a) => K.Next(x, g, j.exchanges[v], a).client case None => j.exchanges[v].client
    ensures
      match StepOf(j, Voice(step), v)
      case Some(a) => K.Next(x, g, j.exchanges[v], a).entry == j.exchanges[v].entry
      case None => true
  {
    if step.Receive? && step.u == v {
      ArrivalMatches(x, g, j.world, step, j.exchanges[v]);
    } else {
      VoiceLeavesKeys(x, j.world, step, v);
    }
  }

  lemma VoiceMatches(x: Srtp.Aead, g: K.Crypto, capacity: nat, j: Joined, step: E.Step, v: u32)
    requires Matches(j, v) && j.world.peers[v].userId == v
    ensures Matches(Next(x, g, capacity, j, Voice(step)), v)
  {
    if KeyFree(step) {
      ExchangeAfter(x, g, capacity, j, Voice(step), v);
      VoiceKeepsClient(x, g, j, step, v);
    }
  }

  lemma StepMatches(x: Srtp.Aead, g: K.Crypto, ks: set<seq<byte>>, capacity: nat, j: Joined, s: Step, v: u32)
    requires Inv(x, g, ks, j) && s != Logout(v) && (v in j.exchanges || s == Login(v))
    ensures Matches(Next(x, g, capacity, j, s), v)
  {
    assert UserInv(g, j, v);
    match s
    case Login(u) => LoginMatches(x, g, capacity, j, u, v);
    case Logout(u) => LogoutMatches(x, g, capacity, j, u, v);
    case Exchange(u, step) =>
      assert UserInv(g, j, u);
      ExchangeMatches(x, g, capacity, j, u, step, v);
    case Voice(step) =>
      assert j.world.peers[v].userId == v by { PeerKeys(x, ks, j.world, v); }
      VoiceMatches(x, g, capacity, j, step, v);
  }

  lemma StepKeepsWorld(x: Srtp.Aead, g: K.Crypto, ks: set<seq<byte>>, capacity: nat, j: Joined, s: Step)
    requires Srtp.Lawful(x) && Srtp.NoCollision(x, ks) && E.Inv(x, ks, j.world) && Proper(g, ks, j, s)
    ensures E.Inv(x, ks, Next(x, g, capacity, j, s).world)
  {
    match s
    case Login(u) =>
      E.StepKeepsInv(x, ks, capacity, j.world, E.ServerRemove(AsI32(u)));
      E.StepKeepsInv(x, ks, capacity, E.Next(x, capacity, j.world, E.ServerRemove(AsI32(u))), E.Connect(u));
    case Logout(u) => E.StepKeepsInv(x, ks, capacity, j.world, E.ServerRemove(AsI32(u)));
    case Exchange(u, step) =>
      if u in j.exchanges && Install(g, u, j.exchanges[u], step).Some? {
        E.StepKeepsInv(x, ks, capacity, j.world, Install(g, u, j.exchanges[u], step).value);
      }
    case Voice(step) => if KeyFree(step) { E.StepKeepsInv(x, ks, capacity, j.world, step); }
  }

  lemma NoExchangeYet(g: K.Crypto)
    ensures K.Inv(g, K.INITIAL)
  {
  }

  lemma StepKeepsExchange(x: Srtp.Aead, g: K.Crypto, ks: set<seq<byte>>, capacity: nat, j: Joined, s: Step, u: u32)
    requires K.Commutes(g) && Proper(g, ks, j, s) && s != Logout(u) && (u in j.exchanges || s == Login(u))
    requires u in j.exchanges ==> K.Inv(g, j.exchanges[u])
    ensures
      var t := Next(x, g, capacity, j, s).exchanges;
      u in t && K.Inv(g, t[u])
  {
    if s == Login(u) {
      NoExchangeYet(g);
    } else {
      ExchangeAfter(x, g, capacity, j, s, u);
      if StepOf(j, s, u).Some? { K.StepKeepsInv(x, g, j.exchanges[u], StepOf(j, s, u).value); }
    }
  }

  lemma UsersAfter(x: Srtp.Aead, g: K.Crypto, capacity: nat, j: Joined, s: Step, v: u32)
    ensures v in Next(x, g, capacity, j, s).exchanges <==> s == Login(v) || (v in j.exchanges && s != Logout(v))
  {
  }

  lemma StepKeepsUser(x: Srtp.Aead, g: K.Crypto, ks: set<seq<byte>>, capacity: nat, j: Joined, s: Step, u: u32)
    requires K.Commutes(g) && Inv(x, g, ks, j) && Proper(g, ks, j, s)
    ensures UserInv(g, Next(x, g, capacity, j, s), u)
  {
    assert UserInv(g, j, u);
    UsersAfter(x, g, capacity, j, s, u);
    if s == Login(u) || (u in j.exchanges && s != Logout(u)) {
      StepMatches(x, g, ks, capacity, j, s, u);
      StepKeepsExchange(x, g, ks, capacity, j, s, u);
    }
  }

  lemma StepKeepsAllUsers(x: Srtp.Aead, g: K.Crypto, ks: set<seq<byte>>, capacity: nat, j: Joined, s: Step)
    requires K.Commutes(g) && Inv(x, g, ks, j) && Proper(g, ks, j, s)
    ensures UsersInv(g, Next(x, g, capacity, j, s))
  {
    forall u ensures UserInv(g, Next(x, g, capacity, j, s), u) {
      StepKeepsUser(x, g, ks, capacity, j, s, u);
    }
  }

  lemma StepKeepsInv(x: Srtp.Aead, g: K.Crypto, ks: set<seq<byte>>, capacity: nat, j: Joined, s: Step)
    requires Srtp.Lawful(x) && Srtp.NoCollision(x, ks) && K.Commutes(g) && Inv(x, g, ks, j) && Proper(g, ks, j, s)
    ensures Inv(x, g, ks, Next(x, g, capacity, j, s))
  {
    StepKeepsWorld(x, g, ks, capacity, j, s);
    StepKeepsAllUsers(x, g, ks, capacity, j, s);
  }

  lemma {:induction false} RunKeepsInv(x: Srtp.Aead, g: K.Crypto, ks: set<seq<byte>>, capacity: nat, j: Joined, steps: seq<Step>)
    requires Srtp.Lawful(x) && Srtp.NoCollision(x, ks) && K.Commutes(g) && Inv(x, g, ks, j) && IsRun(x, g, ks, capacity, j, steps)
    ensures Inv(x, g, ks, Run(x, g, capacity, j, steps))
    decreases |steps|
  {
    if steps != [] {
      StepKeepsInv(x, g, ks, capacity, j, steps[0]);
      RunKeepsInv(x, g, ks, capacity, Next(x, g, capacity, j, steps[0]), steps[1..]);
    }
  }

  // ---- How far each side has moved on ----

  function Switches(x: Srtp.Aead, g: K.Crypto, capacity: nat, j: Joined, steps: seq<Step>, u: u32, client: bool): nat
    decreases |steps|
  {
    if steps == [] then 0
    else
      var step := StepOf(j, steps[0], u);
      Switches(x, g, capacity, Next(x, g, capacity, j, steps[0]), steps[1..], u, client)
      + if step.Some? && u in j.exchanges
           && (if client then K.SwitchesClient(j.exchanges[u], step.value) else K.SwitchesServer(j.exchanges[u], step.value))
        then 1 else 0
  }

  lemma {:induction false} ClientAheadRun(x: Srtp.Aead, g: K.Crypto, ks: set<seq<byte>>, capacity: nat, j: Joined, steps: seq<Step>,
                                          u: u32, pair: (nat, nat), n: nat)
    requires Srtp.Lawful(x) && Srtp.NoCollision(x, ks) && K.Commutes(g) && Inv(x, g, ks, j) && IsRun(x, g, ks, capacity, j, steps)
    requires u in j.exchanges && K.ClientAhead(g, j.exchanges[u], pair, n) && (forall s :: s in steps ==> Stays(u, s))
    ensures u in Run(x, g, capacity, j, steps).exchanges
    ensures K.ClientAhead(g, Run(x, g, capacity, j, steps).exchanges[u], pair, n + Switches(x, g, capacity, j, steps, u, true))
    decreases |steps|
  {
    if steps != [] {
      var j', step := Next(x, g, capacity, j, steps[0]), StepOf(j, steps[0], u);
      assert steps[0] in steps && UserInv(g, j, u);
      ExchangeAfter(x, g, capacity, j, steps[0], u);
      StepKeepsInv(x, g, ks, capacity, j, steps[0]);
      if step.Some? { K.ClientAheadStep(x, g, j.exchanges[u], step.value, pair, n); }
      ClientAheadRun(x, g, ks, capacity, j', steps[1..], u, pair,
                     n + if step.Some? && K.SwitchesClient(j.exchanges[u], step.value) then 1 else 0);
    }
  }

  /** An exchange of u starts before the server reads u's next answer. */
  predicate Overwrites(x: Srtp.Aead, g: K.Crypto, capacity: nat, j: Joined, steps: seq<Step>, u: u32)
    decreases |steps|
  {
    && steps != [] && u in j.exchanges
    && var step := StepOf(j, steps[0], u);
       && !(step.Some? && step.value.ServerReads?)
       && ((step.Some? && K.StartsExchange(j.exchanges[u], step.value))
           || Overwrites(x, g, capacity, Next(x, g, capacity, j, steps[0]), steps[1..], u))
  }

  lemma {:induction false} ServerAheadRun(x: Srtp.Aead, g: K.Crypto, ks: set<seq<byte>>, capacity: nat, j: Joined, steps: seq<Step>,
                                          u: u32, pair: (nat, nat), n: int)
    requires Srtp.Lawful(x) && Srtp.NoCollision(x, ks) && K.Commutes(g) && Inv(x, g, ks, j) && IsRun(x, g, ks, capacity, j, steps)
    requires u in j.exchanges && K.ServerAhead(g, j.exchanges[u], pair, n) && (forall s :: s in steps ==> Stays(u, s))
    requires n == -1 ==> !Overwrites(x, g, capacity, j, steps, u)
    ensures u in Run(x, g, capacity, j, steps).exchanges
    ensures K.ServerAhead(g, Run(x, g, capacity, j, steps).exchanges[u], pair, n + Switches(x, g, capacity, j, steps, u, false))
    decreases |steps|
  {
    if steps != [] {
      var j', step := Next(x, g, capacity, j, steps[0]), StepOf(j, steps[0], u);
      assert steps[0] in steps && UserInv(g, j, u);
      ExchangeAfter(x, g, capacity, j, steps[0], u);
      StepKeepsInv(x, g, ks, capacity, j, steps[0]);
      if step.Some? { K.ServerAheadStep(x, g, j.exchanges[u], step.value, pair, n); }
      ServerAheadRun(x, g, ks, capacity, j', steps[1..], u, pair,
                     n + if step.Some? && K.SwitchesServer(j.exchanges[u], step.value) then 1 else 0);
    }
  }

  lemma {:induction false} ServerNeverRun(x: Srtp.Aead, g: K.Crypto, ks: set<seq<byte>>, capacity: nat, j: Joined, steps: seq<Step>,
                                          u: u32, pair: (nat, nat))
    requires Srtp.Lawful(x) && Srtp.NoCollision(x, ks) && K.Commutes(g) && Inv(x, g, ks, j) && IsRun(x, g, ks, capacity, j, steps)
    requires u in j.exchanges && K.ServerNever(j.exchanges[u], pair) && (forall s :: s in steps ==> Stays(u, s))
    ensures u in Run(x, g, capacity, j, steps).exchanges && K.ServerNever(Run(x, g, capacity, j, steps).exchanges[u], pair)
    decreases |steps|
  {
    if steps != [] {
      var step := StepOf(j, steps[0], u);
      assert steps[0] in steps && UserInv(g, j, u);
      ExchangeAfter(x, g, capacity, j, steps[0], u);
      StepKeepsInv(x, g, ks, capacity, j, steps[0]);
      if step.Some? { K.ServerNeverStep(x, g, j.exchanges[u], step.value, pair); }
      ServerNeverRun(x, g, ks, capacity, Next(x, g, capacity, j, steps[0]), steps[1..], u, pair);
    }
  }

  lemma {:induction false} OverwrittenRun(x: Srtp.Aead, g: K.Crypto, ks: set<seq<byte>>, capacity: nat, j: Joined, steps: seq<Step>,
                                          u: u32, pair: (nat, nat))
    requires Srtp.Lawful(x) && Srtp.NoCollision(x, ks) && K.Commutes(g) && Inv(x, g, ks, j) && IsRun(x, g, ks, capacity, j, steps)
    requires u in j.exchanges && K.ServerAhead(g, j.exchanges[u], pair, -1) && (forall s :: s in steps ==> Stays(u, s))
    requires Overwrites(x, g, capacity, j, steps, u)
    ensures u in Run(x, g, capacity, j, steps).exchanges && K.ServerNever(Run(x, g, capacity, j, steps).exchanges[u], pair)
    decreases |steps|
  {
    var j', step := Next(x, g, capacity, j, steps[0]), StepOf(j, steps[0], u);
    assert steps[0] in steps && UserInv(g, j, u);
    ExchangeAfter(x, g, capacity, j, steps[0], u);
    StepKeepsInv(x, g, ks, capacity, j, steps[0]);
    if step.Some? && K.StartsExchange(j.exchanges[u], step.value) {
      K.OverwritingLosesTheKey(x, g, j.exchanges[u], step.value, pair);
      ServerNeverRun(x, g, ks, capacity, j', steps[1..], u, pair);
    } else {
      if step.Some? { K.ServerAheadStep(x, g, j.exchanges[u], step.value, pair, -1); }
      OverwrittenRun(x, g, ks, capacity, j', steps[1..], u, pair);
    }
  }

  // ---- Which packets pass ----

  ghost predicate Ideal(x: Srtp.Aead, g: K.Crypto, ks: set<seq<byte>>, j: Joined, u: u32) {
    && Srtp.Lawful(x) && Srtp.NoCollision(x, ks) && K.Commutes(g)
    && u in j.exchanges && K.KeysAreIdeal(x, g, j.exchanges[u])
  }

  lemma UserIsGood(x: Srtp.Aead, g: K.Crypto, ks: set<seq<byte>>, j: Joined, u: u32)
    requires Inv(x, g, ks, j) && u in j.exchanges
    ensures Matches(j, u) && K.Inv(g, j.exchanges[u]) && j.world.peers[u].userId == u
  {
    assert UserInv(g, j, u);
    PeerKeys(x, ks, j.world, u);
  }

  /** An answer whose secret another exchange has overwritten brings the server another key. */
  lemma LostIsUnopened(x: Srtp.Aead, g: K.Crypto, ks: set<seq<byte>>, capacity: nat, j: Joined, steps: seq<Step>,
                      u: u32, sequence: u64, plain: seq<byte>, at: Srtp.Time)
    requires Inv(x, g, ks, j) && u in j.exchanges && j.exchanges[u].client.ready && j.exchanges[u].h.allClean
    requires IsRun(x, g, ks, capacity, j, steps) && (forall s :: s in steps ==> Stays(u, s)) && u in Run(x, g, capacity, j, steps).exchanges
    requires Ideal(x, g, ks, Run(x, g, capacity, j, steps), u)
    requires j.exchanges[u].toServer != [] && Overwrites(x, g, capacity, j, steps, u)
    ensures u in j.world.peers
    ensures
      var t := Run(x, g, capacity, j, steps);
      Srtp.ServerDecrypt(x, Lookup(t.world.sessions, AsI32(u)), sequence,
                         Srtp.SealWith(x, j.world.peers[u].srtp.current, sequence, plain), at).None?
  {
    var s, t := j.exchanges[u], Run(x, g, capacity, j, steps);
    UserIsGood(x, g, ks, j, u);
    K.BehindByTheAnswer(g, s);
    RunKeepsInv(x, g, ks, capacity, j, steps);
    UserIsGood(x, g, ks, t, u);
    OverwrittenRun(x, g, ks, capacity, j, steps, u, s.h.clientUsed.value);
    K.ServerNeverOpens(x, g, t.exchanges[u], s.h.clientUsed.value, sequence, plain, at);
  }

  /** Otherwise its switches decide. */
  lemma KeptIsOpenedIff(x: Srtp.Aead, g: K.Crypto, ks: set<seq<byte>>, capacity: nat, j: Joined, steps: seq<Step>,
                       u: u32, sequence: u64, plain: seq<byte>, at: Srtp.Time)
    requires Inv(x, g, ks, j) && u in j.exchanges && j.exchanges[u].client.ready && j.exchanges[u].h.allClean
    requires IsRun(x, g, ks, capacity, j, steps) && (forall s :: s in steps ==> Stays(u, s)) && u in Run(x, g, capacity, j, steps).exchanges
    requires Ideal(x, g, ks, Run(x, g, capacity, j, steps), u)
    requires !(j.exchanges[u].toServer != [] && Overwrites(x, g, capacity, j, steps, u))
    ensures u in j.world.peers
    ensures
      var t := Run(x, g, capacity, j, steps);
      Srtp.ServerDecrypt(x, Lookup(t.world.sessions, AsI32(u)), sequence,
                         Srtp.SealWith(x, j.world.peers[u].srtp.current, sequence, plain), at)
      == if ServerUses(x, g, capacity, j, steps, u, at) then Some(plain) else None
  {
    var s, t := j.exchanges[u], Run(x, g, capacity, j, steps);
    UserIsGood(x, g, ks, j, u);
    K.BehindByTheAnswer(g, s);
    RunKeepsInv(x, g, ks, capacity, j, steps);
    UserIsGood(x, g, ks, t, u);
    ServerAheadRun(x, g, ks, capacity, j, steps, u, s.h.clientUsed.value, -|s.toServer|);
    K.ServerOpensIff(x, g, t.exchanges[u], s.h.clientUsed.value,
                     Switches(x, g, capacity, j, steps, u, false) - |s.toServer|, sequence, plain, at);
  }

  /** What u seals now, the server opens at the end of a run, or not. */
  lemma ServerOpens(x: Srtp.Aead, g: K.Crypto, ks: set<seq<byte>>, capacity: nat, j: Joined, steps: seq<Step>,
                    u: u32, sequence: u64, plain: seq<byte>, at: Srtp.Time)
    requires Inv(x, g, ks, j) && u in j.exchanges && j.exchanges[u].client.ready && j.exchanges[u].h.allClean
    requires IsRun(x, g, ks, capacity, j, steps) && (forall s :: s in steps ==> Stays(u, s)) && u in Run(x, g, capacity, j, steps).exchanges
    requires Ideal(x, g, ks, Run(x, g, capacity, j, steps), u)
    ensures u in j.world.peers
    ensures
      var t := Run(x, g, capacity, j, steps);
      Srtp.ServerDecrypt(x, Lookup(t.world.sessions, AsI32(u)), sequence,
                         Srtp.SealWith(x, j.world.peers[u].srtp.current, sequence, plain), at)
      == if ServerUses(x, g, capacity, j, steps, u, at) then Some(plain) else None
  {
    if j.exchanges[u].toServer != [] && Overwrites(x, g, capacity, j, steps, u) {
      LostIsUnopened(x, g, ks, capacity, j, steps, u, sequence, plain, at);
    } else {
      KeptIsOpenedIff(x, g, ks, capacity, j, steps, u, sequence, plain, at);
    }
  }

  /**
   * After the run the server uses the key that u's client has now: it has read u's answer in flight, if
   * any, with no exchange started before that, and has replaced the key at most once, in time.
   */
  predicate ServerUses(x: Srtp.Aead, g: K.Crypto, capacity: nat, j: Joined, steps: seq<Step>, u: u32, at: Srtp.Time) {
    && u in j.exchanges && u in Run(x, g, capacity, j, steps).exchanges
    && !(j.exchanges[u].toServer != [] && Overwrites(x, g, capacity, j, steps, u))
    && var n := Switches(x, g, capacity, j, steps, u, false) - |j.exchanges[u].toServer|;
       n == 0 || (n == 1 && at - K.LastServerSwitch(Run(x, g, capacity, j, steps).exchanges[u].entry) < Srtp.DUAL_KEY_WINDOW)
  }

  /** What the server seals for l now, l opens at the end of a run, or not. */
  lemma ClientOpens(x: Srtp.Aead, g: K.Crypto, ks: set<seq<byte>>, capacity: nat, j: Joined, steps: seq<Step>,
                    l: u32, sequence: u64, plain: seq<byte>, now: Srtp.Time)
    requires Inv(x, g, ks, j) && l in j.exchanges && j.exchanges[l].entry.Some? && j.exchanges[l].h.allClean && plain != []
    requires IsRun(x, g, ks, capacity, j, steps) && (forall s :: s in steps ==> Stays(l, s)) && l in Run(x, g, capacity, j, steps).exchanges
    requires Ideal(x, g, ks, Run(x, g, capacity, j, steps), l) && Run(x, g, capacity, j, steps).exchanges[l].now <= now
    ensures AsI32(l) in j.world.sessions && l in Run(x, g, capacity, j, steps).world.peers
    ensures
      var t := Run(x, g, capacity, j, steps);
      var n := |j.exchanges[l].toServer| + Switches(x, g, capacity, j, steps, l, true);
      Srtp.ClientDecrypt(x, t.world.peers[l].srtp, sequence,
                         Srtp.SealWith(x, j.world.sessions[AsI32(l)].current, sequence, plain), now).1
      == if n == 0 || (n == 1 && now - t.exchanges[l].client.rotationTime < Srtp.DUAL_KEY_WINDOW) then plain else []
  {
    var s, t := j.exchanges[l], Run(x, g, capacity, j, steps);
    UserIsGood(x, g, ks, j, l);
    K.AheadByTheAnswer(g, s);
    ClientAheadRun(x, g, ks, capacity, j, steps, l, s.h.serverUsed.value, |s.toServer|);
    RunKeepsInv(x, g, ks, capacity, j, steps);
    UserIsGood(x, g, ks, t, l);
    K.ClientOpensIff(x, g, t.exchanges[l], s.h.serverUsed.value,
                     |s.toServer| + Switches(x, g, capacity, j, steps, l, true), sequence, plain, now);
  }

  /**
   * From the sender to the server: what u seals now, read by the server at the end of any run of u's
   * connection, starts a task for l exactly when l is another member then, and the server uses the key by
   * then: no exchange of u overlapped its answer in flight, that answer has been read, and the key has been
   * replaced at most once since, less than two seconds ago.
   */
  lemma ServerPassesIff(x: Srtp.Aead, g: K.Crypto, ks: set<seq<byte>>, capacity: nat, j: Joined, steps: seq<Step>,
                        p: VP.Packet, plain: seq<byte>, l: u32, at: Srtp.Time)
    requires Inv(x, g, ks, j) && p.userId in j.exchanges && p.userId in j.world.peers
    requires j.exchanges[p.userId].client.ready && j.exchanges[p.userId].h.allClean
    requires p.payload == Srtp.SealWith(x, j.world.peers[p.userId].srtp.current, p.sequence, plain)
    requires IsRun(x, g, ks, capacity, j, steps) && (forall s :: s in steps ==> Stays(p.userId, s))
    requires p.userId in Run(x, g, capacity, j, steps).exchanges && Ideal(x, g, ks, Run(x, g, capacity, j, steps), p.userId)
    ensures
      var t := Run(x, g, capacity, j, steps);
      Job(p, plain, AsI32(l)) in Jobs(x, t.world.sessions, t.world.channels, VP.Serialize(p), at) <==>
        && l != p.userId && AsI32(l) in Members(t.world.channels, AsI32(p.channelId))
        && ServerUses(x, g, capacity, j, steps, p.userId, at)
  {
    ServerOpens(x, g, ks, capacity, j, steps, p.userId, p.sequence, plain, at);
    VP.ParseSerialize(p);
    AsI32Injective(l, p.userId);
  }

  /**
   * From the server to the listener: what a task seals for l now, read by l at the end of any run, is
   * pushed into l's buffer for its sender exactly when l has changed its key at most once since the
   * server's, and, if once, less than two seconds ago; an answer in flight counts. Otherwise nothing of
   * l's buffers changes.
   */
  lemma ListenerReadsIff(x: Srtp.Aead, g: K.Crypto, ks: set<seq<byte>>, capacity: nat, j: Joined, steps: seq<Step>,
                         p: VP.Packet, plain: seq<byte>, l: u32, now: Srtp.Time)
    requires Inv(x, g, ks, j) && l in j.exchanges && j.exchanges[l].entry.Some? && j.exchanges[l].h.allClean
    requires l != p.userId && plain != []
    requires IsRun(x, g, ks, capacity, j, steps) && (forall s :: s in steps ==> Stays(l, s)) && l in Run(x, g, capacity, j, steps).exchanges
    requires Ideal(x, g, ks, Run(x, g, capacity, j, steps), l) && Run(x, g, capacity, j, steps).exchanges[l].now <= now
    ensures AsI32(l) in j.world.sessions && l in Run(x, g, capacity, j, steps).world.peers
    ensures
      var t := Run(x, g, capacity, j, steps);
      var d := Forwarded(x, j.world.sessions[AsI32(l)].current, p, plain);
      var n := |j.exchanges[l].toServer| + Switches(x, g, capacity, j, steps, l, true);
      Received(x, t.world.peers[l], d, now).sources
      == if n == 0 || (n == 1 && now - t.exchanges[l].client.rotationTime < Srtp.DUAL_KEY_WINDOW)
         then Buffered(t.world.peers[l].sources, p, plain) else t.world.peers[l].sources
  {
    var t := Run(x, g, capacity, j, steps);
    ClientOpens(x, g, ks, capacity, j, steps, l, p.sequence, plain, now);
    RunKeepsInv(x, g, ks, capacity, j, steps);
    UserIsGood(x, g, ks, t, l);
    ReadingForwarded(x, t.world.peers[l], p, j.world.sessions[AsI32(l)].current, plain, now);
  }

  /** What reading a forwarded packet does to the reader's sources. */
  lemma ReadingForwarded(x: Srtp.Aead, e: Endpoint, p: VP.Packet, k: Srtp.Keys, plain: seq<byte>, now: Srtp.Time)
    requires e.userId != p.userId
    ensures
      var r := Srtp.ClientDecrypt(x, e.srtp, p.sequence, Srtp.SealWith(x, k, p.sequence, plain), now).1;
      Received(x, e, Forwarded(x, k, p, plain), now).sources == if r == [] then e.sources else Buffered(e.sources, p, r)
  {
    var q := p.(payload := Srtp.SealWith(x, k, p.sequence, plain));
    VP.ParseSerialize(q);
    if e.srtp.ready { SamePush(e.sources, p, q, Srtp.ClientDecrypt(x, e.srtp, p.sequence, q.payload, now).1); }
  }

  lemma SamePush(sources: map<u32, Source>, p: VP.Packet, q: VP.Packet, plain: seq<byte>)
    requires q == p.(payload := q.payload)
    ensures Buffered(sources, p, plain) == Buffered(sources, q, plain)
  {
  }

  /** In every run from the beginning, clients and server have exactly the keys of the exchanges. */
  lemma KeysComeFromExchanges(x: Srtp.Aead, g: K.Crypto, ks: set<seq<byte>>, capacity: nat, pool: seq<seq<byte>>, steps: seq<Step>, u: u32)
    requires Srtp.Lawful(x) && Srtp.NoCollision(x, ks) && K.Commutes(g) && AllEmpty(pool)
    requires IsRun(x, g, ks, capacity, Start(pool), steps) && u in Run(x, g, capacity, Start(pool), steps).exchanges
    ensures Inv(x, g, ks, Run(x, g, capacity, Start(pool), steps)) && Matches(Run(x, g, capacity, Start(pool), steps), u)
  {
    assert Inv(x, g, ks, Start(pool));
    RunKeepsInv(x, g, ks, capacity, Start(pool), steps);
    UserIsGood(x, g, ks, Run(x, g, capacity, Start(pool), steps), u);
  }
}
