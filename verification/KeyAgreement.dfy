/**
 * The key exchange of one WebSocket connection: the first channel join and the rotation task start
 * exchanges, the client answers and switches at once, the server switches when the answer arrives.
 * Messages travel in two first-in first-out channels; voice packets may arrive at any time.
 */
module KeyAgreement {
  import opened Bits
  import opened Options
  import opened Runs
  import opened Srtp

  /** X25519 (public key of a secret, shared value) and HKDF, as functions. */
  datatype Crypto = Crypto(pub: nat -> nat, dh: (nat, nat) -> nat, kdf: nat -> Keys)

  ghost predicate Commutes(g: Crypto) {
    forall a, b :: g.dh(a, g.pub(b)) == g.dh(b, g.pub(a))
  }

  /** The key both sides derive from server secret a and client secret b. */
  function KeyOf(g: Crypto, a: nat, b: nat): Keys {
    g.kdf(g.dh(a, g.pub(b)))
  }

  /** Distinct pairs of the secrets in use derive distinct keys. */
  ghost predicate Separates(g: Crypto, servers: set<nat>, clients: set<nat>) {
    forall a, b, a', b' :: a in servers && a' in servers && b in clients && b' in clients && (a, b) != (a', b') ==>
                             KeyOf(g, a, b).masterKey != KeyOf(g, a', b').masterKey
  }

  ghost function MasterKeysOf(g: Crypto, servers: set<nat>, clients: set<nat>): set<seq<byte>> {
    set a, b | a in servers && b in clients :: KeyOf(g, a, b).masterKey
  }

  /** A public key in a message. `owner` records whose it is; no step reads it. */
  datatype Public = Public(key: nat, owner: nat)

  datatype ToClient = Init(public: Public) | Complete

  datatype State = State(
    // the server: ConnState.ke_secret, ROTATION_SECRETS[user], sessions[user], srtp_initialized
    connSecret: Option<nat>, rotationSecret: Option<nat>, entry: Option<Entry>, initialized: bool,
    client: Client, toClient: seq<ToClient>, toServer: seq<Public>, now: Time,
    h: History)

  /** What happened so far; no step reads it. */
  datatype History = History(
    serverSecrets: set<nat>, clientSecrets: set<nat>,
    started: bool, last: nat,   // the secret of the exchange started last
    clean: bool,                // it was started with no exchange outstanding
    allClean: bool,             // and so were all before it
    serverUsed: Option<(nat, nat)>, serverPrevious: Option<(nat, nat)>, clientUsed: Option<(nat, nat)>)

  datatype Step =
    | Join(a: nat)                 // join_channel, with the secret it would generate
    | Rotate(a: nat)               // one user's turn in the rotation task
    | ClientReads(b: nat, at: Time)
    | ServerReads(at: Time)
    | VoiceArrives(cipher: seq<byte>, sequence: u64, at: Time)

  const INITIAL := State(None, None, None, false, NEW_CLIENT, [], [], 0.0,
                         History({}, {}, false, 0, true, true, None, None, None))

  /** The init messages still on their way to the client. */
  function Inits(q: seq<ToClient>): seq<Public> {
    if q == [] then []
    else if q[0].Init? then [q[0].public] + Inits(q[1..]) else Inits(q[1..])
  }

  /** Exchanges started but not yet answered to the server. */
  function Outstanding(s: State): nat {
    |Inits(s.toClient)| + |s.toServer|
  }

  function Pending(s: State): Option<nat> {
    if s.connSecret.Some? then s.connSecret else s.rotationSecret
  }

  function Started(s: State, a: nat): History {
    s.h.(serverSecrets := s.h.serverSecrets + {a}, started := true, last := a,
         clean := Outstanding(s) == 0, allClean := s.h.allClean && Outstanding(s) == 0)
  }

  function Next(x: Aead, g: Crypto, s: State, step: Step): State {
    match step
    case Join(a) =>
      if s.initialized then s
      else s.(connSecret := Some(a), toClient := s.toClient + [Init(Public(g.pub(a), a))], h := Started(s, a))
    case Rotate(a) =>
      if s.entry.None? then s
      else s.(rotationSecret := Some(a), toClient := s.toClient + [Init(Public(g.pub(a), a))], h := Started(s, a))
    case ClientReads(b, at) =>
      if s.toClient == [] then s
      else
        var m, rest := s.toClient[0], s.toClient[1..];
        if m.Complete? then s.(toClient := rest, now := at)
        else s.(client := ClientInstall(s.client, g.kdf(g.dh(b, m.public.key)), at),
                toClient := rest, toServer := s.toServer + [Public(g.pub(b), b)], now := at,
                h := s.h.(clientSecrets := s.h.clientSecrets + {b}, clientUsed := Some((m.public.owner, b))))
    case ServerReads(at) =>
      if s.toServer == [] then s
      else
        var r, rest := s.toServer[0], s.toServer[1..];
        if Pending(s).None? then s.(toServer := rest, now := at)
        else
          var a := Pending(s).value;
          s.(connSecret := None, rotationSecret := if s.connSecret.Some? then s.rotationSecret else None,
             entry := Some(ServerInstall(s.entry, g.kdf(g.dh(a, r.key)), at)), initialized := true,
             toClient := s.toClient + [Complete], toServer := rest, now := at,
             h := s.h.(serverUsed := Some((a, r.owner)), serverPrevious := s.h.serverUsed))
    case VoiceArrives(cipher, sequence, at) =>
      s.(client := ClientDecrypt(x, s.client, sequence, cipher, at).0, now := at)
  }

  /** Secrets are never generated twice, and time does not run backwards. */
  predicate Possible(s: State, step: Step) {
    match step
    case Join(a) => a !in s.h.serverSecrets && a !in s.h.clientSecrets
    case Rotate(a) => a !in s.h.serverSecrets && a !in s.h.clientSecrets
    case ClientReads(b, at) => b !in s.h.serverSecrets && b !in s.h.clientSecrets && s.now <= at
    case ServerReads(at) => s.now <= at
    case VoiceArrives(_, _, at) => s.now <= at
  }

  ghost predicate IsRun(x: Aead, g: Crypto, s: State, steps: seq<Step>)
    decreases |steps|
  {
    steps == [] || (Possible(s, steps[0]) && IsRun(x, g, Next(x, g, s, steps[0]), steps[1..]))
  }

  function Stepper(x: Aead, g: Crypto): (State, Step) -> State {
    (s, step) => Next(x, g, s, step)
  }

  function Run(x: Aead, g: Crypto, s: State, steps: seq<Step>): State {
    Fold(Stepper(x, g), s, steps)
  }

  // ---- Invariant ----

  ghost predicate Inv(g: Crypto, s: State) {
    && Secrets(g, s)
    && KeysMatchHistory(g, s)
    && (if !s.h.started then NothingStarted(s)
        else if s.h.clean then CleanExchange(s)
        else OverlappedExchange(s))
    && (s.h.allClean ==> s.h.clean && Follows(s))
  }

  ghost predicate Secrets(g: Crypto, s: State) {
    && s.h.serverSecrets !! s.h.clientSecrets
    && (forall m :: m in Inits(s.toClient) ==> m.key == g.pub(m.owner) && m.owner in s.h.serverSecrets)
    && (forall r :: r in s.toServer ==> r.key == g.pub(r.owner) && r.owner in s.h.clientSecrets)
    && (forall i, j :: 0 <= i < j < |s.toServer| ==> s.toServer[i].owner != s.toServer[j].owner)
    && (Pending(s).Some? ==> Pending(s).value in s.h.serverSecrets)
    && (s.connSecret.Some? ==> !s.initialized) && (s.rotationSecret.Some? ==> s.initialized)
    && (s.initialized <==> s.entry.Some?)
  }

  ghost predicate UsedPair(s: State, p: (nat, nat)) {
    p.0 in s.h.serverSecrets && p.1 in s.h.clientSecrets
  }

  ghost predicate KeysMatchHistory(g: Crypto, s: State) {
    && (s.entry.Some? <==> s.h.serverUsed.Some?)
    && (s.h.serverUsed.Some? ==>
          var u := s.h.serverUsed.value;
          UsedPair(s, u) && s.entry.value.current == KeyOf(g, u.0, u.1))
    && (s.entry.Some? ==> (s.entry.value.previous.Some? <==> s.h.serverPrevious.Some?))
    && (s.h.serverPrevious.Some? ==>
          var u := s.h.serverPrevious.value;
          && UsedPair(s, u) && s.entry.Some? && s.entry.value.previous.Some?
          && s.entry.value.previous.value.0 == KeyOf(g, u.0, u.1))
    && (s.client.ready <==> s.h.clientUsed.Some?)
    && (s.h.clientUsed.Some? ==>
          var u := s.h.clientUsed.value;
          UsedPair(s, u) && s.client.current == KeyOf(g, u.0, u.1))
    && (!s.client.ready ==> s.client.previous == None)
  }

  ghost predicate NothingStarted(s: State) {
    && s.toClient == [] && s.toServer == [] && Pending(s).None?
    && s.entry.None? && !s.client.ready && s.h.clean && s.h.allClean
  }

  /** The exchange started last had the connection to itself. */
  ghost predicate CleanExchange(s: State) {
    var m, r := Inits(s.toClient), s.toServer;
    if Pending(s).Some? then
      && Pending(s).value == s.h.last && |m| + |r| == 1
      && (|m| == 1 ==> m[0].owner == s.h.last)
      && (|r| == 1 ==> s.h.clientUsed == Some((s.h.last, r[0].owner)))
    else
      && |m| + |r| == 0 && s.h.serverUsed.Some? && s.h.serverUsed == s.h.clientUsed
  }

  /** The exchange started last overlapped an earlier one, whose answer consumes its secret. */
  ghost predicate OverlappedExchange(s: State) {
    var m, r := Inits(s.toClient), s.toServer;
    && (m != [] ==> m[|m| - 1].owner == s.h.last)
    && (if Pending(s).Some? then
          && Pending(s).value == s.h.last && |m| + |r| >= 2
          && (m == [] ==> s.h.clientUsed == Some((s.h.last, r[|r| - 1].owner)))
        else
          && s.h.serverUsed.Some? && s.h.serverUsed.value.0 == s.h.last
          && (m == [] ==>
                && s.h.clientUsed.Some? && s.h.clientUsed.value.0 == s.h.last
                && s.h.clientUsed.value.1 != s.h.serverUsed.value.1))
  }

  /** With no overlap so far, the server's key is the client's, or the one the client just left. */
  ghost predicate Follows(s: State) {
    && (s.entry.Some? ==> s.client.ready)
    && (s.toServer == [] ==> s.entry.Some? == s.client.ready && s.h.serverUsed == s.h.clientUsed)
    && (s.toServer != [] ==> s.client.ready)
    && (s.toServer != [] && s.entry.Some? ==>
          || s.client.previous == Some(s.entry.value.current)
          || (s.client.previous == None && s.now - s.client.rotationTime >= DUAL_KEY_WINDOW))
    && (Pending(s).Some? ==>
          && (s.h.serverUsed.Some? ==> s.h.serverUsed.value.0 != s.h.last)
          && (s.h.serverPrevious.Some? ==> s.h.serverPrevious.value.0 != s.h.last))
  }

  // ---- Every step keeps it ----

  lemma {:induction false} InitsAppend(q: seq<ToClient>, m: ToClient)
    ensures Inits(q + [m]) == if m.Init? then Inits(q) + [m.public] else Inits(q)
  {
    if q == [] {
      assert q + [m] == [m];
      assert [m][1..] == [];
    } else {
      assert (q + [m])[1..] == q[1..] + [m];
      InitsAppend(q[1..], m);
    }
  }

  lemma StartKeepsInv(x: Aead, g: Crypto, s: State, step: Step)
    requires Inv(g, s) && Possible(s, step) && (step.Join? || step.Rotate?)
    ensures Inv(g, Next(x, g, s, step))
  {
    InitsAppend(s.toClient, Init(Public(g.pub(step.a), step.a)));
  }

  lemma ClientReadsKeepsSecrets(x: Aead, g: Crypto, s: State, b: nat, at: Time)
    requires Inv(g, s) && Possible(s, ClientReads(b, at))
    ensures Secrets(g, Next(x, g, s, ClientReads(b, at)))
  {
  }

  lemma ClientReadsKeepsHistory(x: Aead, g: Crypto, s: State, b: nat, at: Time)
    requires Commutes(g) && Inv(g, s) && Possible(s, ClientReads(b, at))
    ensures KeysMatchHistory(g, Next(x, g, s, ClientReads(b, at)))
  {
    if s.toClient != [] && s.toClient[0].Init? {
      assert Inits(s.toClient)[0] == s.toClient[0].public;
    }
  }

  lemma ClientReadsKeepsExchange(x: Aead, g: Crypto, s: State, b: nat, at: Time)
    requires Inv(g, s) && Possible(s, ClientReads(b, at)) && s.h.started
    ensures s.h.clean ==> CleanExchange(Next(x, g, s, ClientReads(b, at)))
    ensures !s.h.clean ==> OverlappedExchange(Next(x, g, s, ClientReads(b, at)))
  {
  }

  lemma ClientReadsKeepsFollows(x: Aead, g: Crypto, s: State, b: nat, at: Time)
    requires Inv(g, s) && Possible(s, ClientReads(b, at)) && s.h.allClean
    ensures Follows(Next(x, g, s, ClientReads(b, at)))
  {
  }

  lemma ClientReadsKeepsInv(x: Aead, g: Crypto, s: State, b: nat, at: Time)
    requires Commutes(g) && Inv(g, s) && Possible(s, ClientReads(b, at))
    ensures Inv(g, Next(x, g, s, ClientReads(b, at)))
  {
    ClientReadsKeepsSecrets(x, g, s, b, at);
    ClientReadsKeepsHistory(x, g, s, b, at);
    if s.h.started { ClientReadsKeepsExchange(x, g, s, b, at); }
    if s.h.allClean { ClientReadsKeepsFollows(x, g, s, b, at); }
  }

  lemma ServerReadsKeepsSecrets(x: Aead, g: Crypto, s: State, at: Time)
    requires Inv(g, s) && Possible(s, ServerReads(at))
    ensures Secrets(g, Next(x, g, s, ServerReads(at)))
  {
    InitsAppend(s.toClient, Complete);
  }

  lemma ServerReadsKeepsHistory(x: Aead, g: Crypto, s: State, at: Time)
    requires Inv(g, s) && Possible(s, ServerReads(at))
    ensures KeysMatchHistory(g, Next(x, g, s, ServerReads(at)))
  {
  }

  lemma ServerReadsKeepsExchange(x: Aead, g: Crypto, s: State, at: Time)
    requires Inv(g, s) && Possible(s, ServerReads(at)) && s.h.started
    ensures s.h.clean ==> CleanExchange(Next(x, g, s, ServerReads(at)))
    ensures !s.h.clean ==> OverlappedExchange(Next(x, g, s, ServerReads(at)))
  {
    InitsAppend(s.toClient, Complete);
  }

  lemma ServerReadsKeepsFollows(x: Aead, g: Crypto, s: State, at: Time)
    requires Inv(g, s) && Possible(s, ServerReads(at)) && s.h.allClean
    ensures Follows(Next(x, g, s, ServerReads(at)))
  {
  }

  lemma ServerReadsKeepsInv(x: Aead, g: Crypto, s: State, at: Time)
    requires Inv(g, s) && Possible(s, ServerReads(at))
    ensures Inv(g, Next(x, g, s, ServerReads(at)))
  {
    ServerReadsKeepsSecrets(x, g, s, at);
    ServerReadsKeepsHistory(x, g, s, at);
    if s.h.started { ServerReadsKeepsExchange(x, g, s, at); }
    if s.h.allClean { ServerReadsKeepsFollows(x, g, s, at); }
  }

  lemma StepKeepsInv(x: Aead, g: Crypto, s: State, step: Step)
    requires Commutes(g) && Inv(g, s) && Possible(s, step)
    ensures Inv(g, Next(x, g, s, step))
  {
    match step
    case Join(_) => StartKeepsInv(x, g, s, step);
    case Rotate(_) => StartKeepsInv(x, g, s, step);
    case ClientReads(b, at) => ClientReadsKeepsInv(x, g, s, b, at);
    case ServerReads(at) => ServerReadsKeepsInv(x, g, s, at);
    case VoiceArrives(_, _, _) =>
  }

  lemma {:induction false} RunKeepsInv(x: Aead, g: Crypto, s: State, steps: seq<Step>)
    requires Commutes(g) && Inv(g, s) && IsRun(x, g, s, steps)
    ensures Inv(g, Run(x, g, s, steps))
    decreases |steps|
  {
    if steps != [] {
      StepKeepsInv(x, g, s, steps[0]);
      RunKeepsInv(x, g, Next(x, g, s, steps[0]), steps[1..]);
    }
  }

  // ---- Agreement ----

  ghost predicate SameKey(s: State) {
    s.entry.Some? && s.client.ready && s.entry.value.current == s.client.current
  }

  /**
   * Whenever no exchange is outstanding, client and server hold the same key if and only if the
   * last exchange was started while none was outstanding.
   */
  lemma AgreementIff(x: Aead, g: Crypto, steps: seq<Step>)
    requires Commutes(g) && IsRun(x, g, INITIAL, steps)
    requires Separates(g, Run(x, g, INITIAL, steps).h.serverSecrets, Run(x, g, INITIAL, steps).h.clientSecrets)
    ensures
      var s := Run(x, g, INITIAL, steps);
      s.h.started && Outstanding(s) == 0 ==> (SameKey(s) <==> s.h.clean)
  {
    RunKeepsInv(x, g, INITIAL, steps);
  }

  predicate StartsExchange(s: State, step: Step) {
    (step.Join? && !s.initialized) || (step.Rotate? && s.entry.Some?)
  }

  /** Every exchange of the run is started with none outstanding. */
  ghost predicate OneAtATime(x: Aead, g: Crypto, s: State, steps: seq<Step>)
    decreases |steps|
  {
    steps != [] ==>
      && (StartsExchange(s, steps[0]) ==> Outstanding(s) == 0)
      && OneAtATime(x, g, Next(x, g, s, steps[0]), steps[1..])
  }

  lemma {:induction false} OneAtATimeStaysClean(x: Aead, g: Crypto, s: State, steps: seq<Step>)
    requires OneAtATime(x, g, s, steps) && s.h.allClean
    ensures Run(x, g, s, steps).h.allClean
    decreases |steps|
  {
    if steps != [] { OneAtATimeStaysClean(x, g, Next(x, g, s, steps[0]), steps[1..]); }
  }

  /**
   * One exchange at a time: the keys agree whenever none is outstanding, and whenever the server has
   * a key it is the client's, or the one the client has just replaced (or forgotten two seconds later).
   */
  lemma OneAtATimeAgrees(x: Aead, g: Crypto, steps: seq<Step>)
    requires Commutes(g) && IsRun(x, g, INITIAL, steps) && OneAtATime(x, g, INITIAL, steps)
    ensures
      var s := Run(x, g, INITIAL, steps);
      && Inv(g, s) && s.h.allClean
      && (s.h.started && Outstanding(s) == 0 ==> SameKey(s))
      && (s.entry.Some? ==>
            || SameKey(s)
            || s.client.previous == Some(s.entry.value.current)
            || (s.client.previous == None && s.now - s.client.rotationTime >= DUAL_KEY_WINDOW))
  {
    RunKeepsInv(x, g, INITIAL, steps);
    OneAtATimeStaysClean(x, g, INITIAL, steps);
  }

  lemma KeyInUse(g: Crypto, s: State, u: (nat, nat))
    requires UsedPair(s, u)
    ensures KeyOf(g, u.0, u.1).masterKey in MasterKeysOf(g, s.h.serverSecrets, s.h.clientSecrets)
  {
  }

  // ---- Packets in flight while keys change ----

  predicate SwitchesClient(s: State, step: Step) {
    step.ClientReads? && s.toClient != [] && s.toClient[0].Init?
  }

  predicate SwitchesServer(s: State, step: Step) {
    step.ServerReads? && s.toServer != [] && Pending(s).Some?
  }

  /** How often the client changes its key during a run. */
  function ClientSwitches(x: Aead, g: Crypto, s: State, steps: seq<Step>): nat
    decreases |steps|
  {
    if steps == [] then 0
    else ClientSwitches(x, g, Next(x, g, s, steps[0]), steps[1..]) + if SwitchesClient(s, steps[0]) then 1 else 0
  }

  function ServerSwitches(x: Aead, g: Crypto, s: State, steps: seq<Step>): nat
    decreases |steps|
  {
    if steps == [] then 0
    else ServerSwitches(x, g, Next(x, g, s, steps[0]), steps[1..]) + if SwitchesServer(s, steps[0]) then 1 else 0
  }

  /** k comes from some exchange other than u. */
  ghost predicate Other(g: Crypto, s: State, k: Keys, u: (nat, nat)) {
    exists p :: UsedPair(s, p) && p != u && k == KeyOf(g, p.0, p.1)
  }

  /** The client has changed its key n times since it used the key of exchange u. */
  ghost predicate ClientAhead(g: Crypto, s: State, u: (nat, nat), n: nat) {
    && UsedPair(s, u) && s.h.clientUsed.Some?
    && (s.h.clientUsed.value == u <==> n == 0)
    && (n == 1 ==>
          || s.client.previous == Some(KeyOf(g, u.0, u.1))
          || (s.client.previous == None && s.now - s.client.rotationTime >= DUAL_KEY_WINDOW))
    && (n >= 2 && s.client.previous.Some? ==> Other(g, s, s.client.previous.value, u))
  }

  lemma ClientAheadStep(x: Aead, g: Crypto, s: State, step: Step, u: (nat, nat), n: nat)
    requires Commutes(g) && Inv(g, s) && Possible(s, step) && ClientAhead(g, s, u, n)
    ensures ClientAhead(g, Next(x, g, s, step), u, n + if SwitchesClient(s, step) then 1 else 0)
  {
    var t := Next(x, g, s, step);
    if n >= 2 && s.client.previous.Some? {
      var p :| UsedPair(s, p) && p != u && s.client.previous.value == KeyOf(g, p.0, p.1);
      assert UsedPair(t, p);
    }
    if SwitchesClient(s, step) {
      var m := Inits(s.toClient)[0];
      assert m == s.toClient[0].public;
      assert UsedPair(t, s.h.clientUsed.value);
    }
  }

  lemma {:induction false} ClientAheadRun(x: Aead, g: Crypto, s: State, mid: seq<Step>, u: (nat, nat), n: nat)
    requires Commutes(g) && Inv(g, s) && IsRun(x, g, s, mid) && ClientAhead(g, s, u, n)
    ensures Inv(g, Run(x, g, s, mid))
    ensures ClientAhead(g, Run(x, g, s, mid), u, n + ClientSwitches(x, g, s, mid))
    decreases |mid|
  {
    if mid != [] {
      StepKeepsInv(x, g, s, mid[0]);
      ClientAheadStep(x, g, s, mid[0], u, n);
      ClientAheadRun(x, g, Next(x, g, s, mid[0]), mid[1..], u, n + if SwitchesClient(s, mid[0]) then 1 else 0);
    }
  }

  ghost predicate KeysAreIdeal(x: Aead, g: Crypto, s: State) {
    && Lawful(x) && Commutes(g)
    && Separates(g, s.h.serverSecrets, s.h.clientSecrets)
    && NoCollision(x, MasterKeysOf(g, s.h.serverSecrets, s.h.clientSecrets))
  }

  /** Another exchange's key does not open what was sealed under u's. */
  lemma OtherKeyRefuses(x: Aead, g: Crypto, s: State, u: (nat, nat), p: (nat, nat), sequence: u64, plain: seq<byte>)
    requires KeysAreIdeal(x, g, s) && UsedPair(s, u) && UsedPair(s, p) && p != u
    ensures OpenWith(x, KeyOf(g, p.0, p.1), sequence, SealWith(x, KeyOf(g, u.0, u.1), sequence, plain)).None?
  {
    var k, c := KeyOf(g, u.0, u.1), KeyOf(g, p.0, p.1);
    KeyInUse(g, s, u);
    KeyInUse(g, s, p);
    assert c.masterKey != k.masterKey;
    if OpenWith(x, c, sequence, SealWith(x, k, sequence, plain)).Some? {
      OpensOnlyTheSealed(x, MasterKeysOf(g, s.h.serverSecrets, s.h.clientSecrets), k, c, sequence, sequence, plain);
    }
  }

  lemma ClientOpensIff(x: Aead, g: Crypto, t: State, u: (nat, nat), n: nat, sequence: u64, plain: seq<byte>, now: Time)
    requires KeysAreIdeal(x, g, t) && Inv(g, t) && ClientAhead(g, t, u, n) && t.now <= now && plain != []
    ensures
      ClientDecrypt(x, t.client, sequence, SealWith(x, KeyOf(g, u.0, u.1), sequence, plain), now).1
      == if n == 0 || (n == 1 && now - t.client.rotationTime < DUAL_KEY_WINDOW) then plain else []
  {
    var k := KeyOf(g, u.0, u.1);
    var cipher := SealWith(x, k, sequence, plain);
    OpensOwnSeal(x, k, sequence, plain);
    TooShortNeverOpens(x, t.client.current, sequence, cipher);
    TooShortNeverOpens(x, k, sequence, cipher);
    if n > 0 { OtherKeyRefuses(x, g, t, u, t.h.clientUsed.value, sequence, plain); }
    if n >= 2 && t.client.previous.Some? {
      var p :| UsedPair(t, p) && p != u && t.client.previous.value == KeyOf(g, p.0, p.1);
      OtherKeyRefuses(x, g, t, u, p, sequence, plain);
      TooShortNeverOpens(x, t.client.previous.value, sequence, cipher);
    }
  }

  /** With no overlap so far, the client is ahead of the server's key by the answer in flight, if any. */
  lemma AheadByTheAnswer(g: Crypto, s: State)
    requires Inv(g, s) && s.h.allClean && s.entry.Some?
    ensures |s.toServer| <= 1 && ClientAhead(g, s, s.h.serverUsed.value, |s.toServer|)
  {
  }

  /**
   * Server to client, with any delay and any further rotations: a packet sealed in one state and read
   * in a later one is opened exactly when the client has switched at most once away from its key,
   * and, if once, less than two seconds before the read. An answer in flight when the packet was
   * sealed counts as a switch already made.
   */
  lemma ServerPacketsAreOpenedIff(x: Aead, g: Crypto, before: seq<Step>, mid: seq<Step>, sequence: u64, plain: seq<byte>, now: Time)
    requires Commutes(g) && IsRun(x, g, INITIAL, before) && OneAtATime(x, g, INITIAL, before) && plain != []
    requires IsRun(x, g, Run(x, g, INITIAL, before), mid) && Run(x, g, INITIAL, before).entry.Some?
    requires KeysAreIdeal(x, g, Run(x, g, Run(x, g, INITIAL, before), mid))
    requires Run(x, g, Run(x, g, INITIAL, before), mid).now <= now
    ensures
      var s := Run(x, g, INITIAL, before);
      var t := Run(x, g, s, mid);
      var switches := |s.toServer| + ClientSwitches(x, g, s, mid);
      ClientDecrypt(x, t.client, sequence, SealWith(x, s.entry.value.current, sequence, plain), now).1
      == if switches == 0 || (switches == 1 && now - t.client.rotationTime < DUAL_KEY_WINDOW) then plain else []
  {
    var s := Run(x, g, INITIAL, before);
    OneAtATimeAgrees(x, g, before);
    AheadByTheAnswer(g, s);
    var u := s.h.serverUsed.value;
    ClientAheadRun(x, g, s, mid, u, |s.toServer|);
    ClientOpensIff(x, g, Run(x, g, s, mid), u, |s.toServer| + ClientSwitches(x, g, s, mid), sequence, plain, now);
  }

  /** The server has changed its key n times since it took the key of exchange u; -1 if it has not taken it yet. */
  ghost predicate ServerAhead(g: Crypto, s: State, u: (nat, nat), n: int) {
    && UsedPair(s, u) && n >= -1
    && (s.h.serverUsed == Some(u) <==> n == 0)
    && (n != 0 ==> (s.h.serverPrevious == Some(u) <==> n == 1))
    && (n >= 0 ==> s.h.serverUsed.Some? && forall r :: r in s.toServer ==> r.owner != u.1)
    && (n == -1 ==>
          && |s.toServer| == 1 && s.toServer[0].owner == u.1
          && Pending(s) == Some(u.0) && Inits(s.toClient) == [])
  }

  lemma ServerAheadStep(x: Aead, g: Crypto, s: State, step: Step, u: (nat, nat), n: int)
    requires Commutes(g) && Inv(g, s) && Possible(s, step) && ServerAhead(g, s, u, n)
    requires n == -1 ==> !StartsExchange(s, step)
    ensures ServerAhead(g, Next(x, g, s, step), u, n + if SwitchesServer(s, step) then 1 else 0)
  {
    InitsAppend(s.toClient, Complete);
    if SwitchesServer(s, step) {
      assert s.toServer[0] in s.toServer;
    }
  }

  /** An exchange starts before the server's next read: its secret replaces the one that read would need. */
  predicate Overwrites(x: Aead, g: Crypto, s: State, steps: seq<Step>)
    decreases |steps|
  {
    steps != [] && !steps[0].ServerReads? && (StartsExchange(s, steps[0]) || Overwrites(x, g, Next(x, g, s, steps[0]), steps[1..]))
  }

  /** The server does not have the key of exchange u and can never take it. */
  ghost predicate ServerNever(s: State, u: (nat, nat)) {
    && UsedPair(s, u) && s.h.serverUsed != Some(u) && s.h.serverPrevious != Some(u)
    && forall i :: 0 <= i < |s.toServer| && s.toServer[i].owner == u.1 ==> i == 0 && Pending(s) != Some(u.0)
  }

  lemma ServerNeverStep(x: Aead, g: Crypto, s: State, step: Step, u: (nat, nat))
    requires Commutes(g) && Inv(g, s) && Possible(s, step) && ServerNever(s, u)
    ensures ServerNever(Next(x, g, s, step), u)
  {
  }

  lemma OverwritingLosesTheKey(x: Aead, g: Crypto, s: State, step: Step, u: (nat, nat))
    requires Inv(g, s) && Possible(s, step) && ServerAhead(g, s, u, -1) && StartsExchange(s, step)
    ensures ServerNever(Next(x, g, s, step), u)
  {
  }

  lemma {:induction false} ServerNeverRun(x: Aead, g: Crypto, s: State, mid: seq<Step>, u: (nat, nat))
    requires Commutes(g) && Inv(g, s) && IsRun(x, g, s, mid) && ServerNever(s, u)
    ensures Inv(g, Run(x, g, s, mid)) && ServerNever(Run(x, g, s, mid), u)
    decreases |mid|
  {
    if mid != [] {
      StepKeepsInv(x, g, s, mid[0]);
      ServerNeverStep(x, g, s, mid[0], u);
      ServerNeverRun(x, g, Next(x, g, s, mid[0]), mid[1..], u);
    }
  }

  lemma {:induction false} ServerAheadRun(x: Aead, g: Crypto, s: State, mid: seq<Step>, u: (nat, nat), n: int)
    requires Commutes(g) && Inv(g, s) && IsRun(x, g, s, mid) && ServerAhead(g, s, u, n)
    requires n == -1 ==> !Overwrites(x, g, s, mid)
    ensures Inv(g, Run(x, g, s, mid))
    ensures ServerAhead(g, Run(x, g, s, mid), u, n + ServerSwitches(x, g, s, mid))
    decreases |mid|
  {
    if mid != [] {
      StepKeepsInv(x, g, s, mid[0]);
      ServerAheadStep(x, g, s, mid[0], u, n);
      ServerAheadRun(x, g, Next(x, g, s, mid[0]), mid[1..], u, n + if SwitchesServer(s, mid[0]) then 1 else 0);
    }
  }

  lemma {:induction false} OverwrittenRun(x: Aead, g: Crypto, s: State, mid: seq<Step>, u: (nat, nat))
    requires Commutes(g) && Inv(g, s) && IsRun(x, g, s, mid) && ServerAhead(g, s, u, -1) && Overwrites(x, g, s, mid)
    ensures Inv(g, Run(x, g, s, mid)) && ServerNever(Run(x, g, s, mid), u)
    decreases |mid|
  {
    StepKeepsInv(x, g, s, mid[0]);
    if StartsExchange(s, mid[0]) {
      OverwritingLosesTheKey(x, g, s, mid[0], u);
      ServerNeverRun(x, g, Next(x, g, s, mid[0]), mid[1..], u);
    } else {
      ServerAheadStep(x, g, s, mid[0], u, -1);
      OverwrittenRun(x, g, Next(x, g, s, mid[0]), mid[1..], u);
    }
  }

  /** When the server last replaced a key. */
  function LastServerSwitch(e: Option<Entry>): Time {
    if e.Some? && e.value.previous.Some? then e.value.previous.value.1 else 0.0
  }

  lemma ServerOpensIff(x: Aead, g: Crypto, t: State, u: (nat, nat), n: int, sequence: u64, plain: seq<byte>, now: Time)
    requires KeysAreIdeal(x, g, t) && Inv(g, t) && ServerAhead(g, t, u, n)
    ensures
      ServerDecrypt(x, t.entry, sequence, SealWith(x, KeyOf(g, u.0, u.1), sequence, plain), now)
      == if n == 0 || (n == 1 && now - LastServerSwitch(t.entry) < DUAL_KEY_WINDOW) then Some(plain) else None
  {
    OpensOwnSeal(x, KeyOf(g, u.0, u.1), sequence, plain);
    if n != 0 && t.h.serverUsed.Some? { OtherKeyRefuses(x, g, t, u, t.h.serverUsed.value, sequence, plain); }
    if n != 0 && n != 1 && t.h.serverPrevious.Some? { OtherKeyRefuses(x, g, t, u, t.h.serverPrevious.value, sequence, plain); }
  }

  lemma ServerNeverOpens(x: Aead, g: Crypto, t: State, u: (nat, nat), sequence: u64, plain: seq<byte>, now: Time)
    requires KeysAreIdeal(x, g, t) && Inv(g, t) && ServerNever(t, u)
    ensures ServerDecrypt(x, t.entry, sequence, SealWith(x, KeyOf(g, u.0, u.1), sequence, plain), now) == None
  {
    if t.h.serverUsed.Some? { OtherKeyRefuses(x, g, t, u, t.h.serverUsed.value, sequence, plain); }
    if t.h.serverPrevious.Some? { OtherKeyRefuses(x, g, t, u, t.h.serverPrevious.value, sequence, plain); }
  }

  /** With no overlap so far, the server has taken the client's key unless the answer is still in flight. */
  lemma BehindByTheAnswer(g: Crypto, s: State)
    requires Inv(g, s) && s.h.allClean && s.client.ready
    ensures |s.toServer| <= 1 && ServerAhead(g, s, s.h.clientUsed.value, -|s.toServer|)
  {
  }

  /**
   * Client to server, with any delay and any further exchanges: the client switches before the server
   * can, so a packet is refused until the server has read the answer that announces its key; then it is
   * opened, until two seconds after the server's next switch. If an exchange starts while that answer is
   * still in flight, its secret replaces the one needed and the packet is refused for ever.
   */
  lemma ClientPacketsAreOpenedIff(x: Aead, g: Crypto, before: seq<Step>, mid: seq<Step>, sequence: u64, plain: seq<byte>, now: Time)
    requires Commutes(g) && IsRun(x, g, INITIAL, before) && OneAtATime(x, g, INITIAL, before)
    requires IsRun(x, g, Run(x, g, INITIAL, before), mid) && Run(x, g, INITIAL, before).client.ready
    requires KeysAreIdeal(x, g, Run(x, g, Run(x, g, INITIAL, before), mid))
    ensures
      var s := Run(x, g, INITIAL, before);
      var t := Run(x, g, s, mid);
      var switches := ServerSwitches(x, g, s, mid) - |s.toServer|;
      var lost := s.toServer != [] && Overwrites(x, g, s, mid);
      ServerDecrypt(x, t.entry, sequence, SealWith(x, s.client.current, sequence, plain), now)
      == if !lost && (switches == 0 || (switches == 1 && now - LastServerSwitch(t.entry) < DUAL_KEY_WINDOW))
         then Some(plain) else None
  {
    var s := Run(x, g, INITIAL, before);
    var t := Run(x, g, s, mid);
    OneAtATimeAgrees(x, g, before);
    BehindByTheAnswer(g, s);
    var u := s.h.clientUsed.value;
    if s.toServer != [] && Overwrites(x, g, s, mid) {
      OverwrittenRun(x, g, s, mid, u);
      ServerNeverOpens(x, g, t, u, sequence, plain, now);
    } else {
      ServerAheadRun(x, g, s, mid, u, -|s.toServer|);
      ServerOpensIff(x, g, t, u, ServerSwitches(x, g, s, mid) - |s.toServer|, sequence, plain, now);
    }
  }

  // ---- Every message is answered once ----

  function Completes(q: seq<ToClient>): nat {
    if q == [] then 0 else (if q[0].Complete? then 1 else 0) + Completes(q[1..])
  }

  lemma {:induction false} CompletesAppend(q: seq<ToClient>, m: ToClient)
    ensures Completes(q + [m]) == Completes(q) + if m.Complete? then 1 else 0
  {
    if q == [] {
      assert q + [m] == [m];
      assert [m][1..] == [];
    } else {
      assert (q + [m])[1..] == q[1..] + [m];
      CompletesAppend(q[1..], m);
    }
  }

  predicate ReadsAnswer(s: State, step: Step) {
    step.ServerReads? && s.toServer != []
  }

  predicate ReadsComplete(s: State, step: Step) {
    step.ClientReads? && s.toClient != [] && s.toClient[0] == Complete
  }

  function Once(happens: bool): nat {
    if happens then 1 else 0
  }

  /** In how many steps of a run something happens. */
  function Times(x: Aead, g: Crypto, s: State, steps: seq<Step>, happens: (State, Step) -> bool): nat
    decreases |steps|
  {
    if steps == [] then 0
    else Times(x, g, Next(x, g, s, steps[0]), steps[1..], happens) + Once(happens(s, steps[0]))
  }

  lemma MessagesStep(x: Aead, g: Crypto, s: State, step: Step)
    ensures
      var t := Next(x, g, s, step);
      && |Inits(t.toClient)| + Once(SwitchesClient(s, step)) == |Inits(s.toClient)| + Once(StartsExchange(s, step))
      && |t.toServer| + Once(ReadsAnswer(s, step)) == |s.toServer| + Once(SwitchesClient(s, step))
      && Completes(t.toClient) + Once(ReadsComplete(s, step)) == Completes(s.toClient) + Once(SwitchesServer(s, step))
  {
    InitsAppend(s.toClient, Complete);
    CompletesAppend(s.toClient, Complete);
    if step.Join? || step.Rotate? {
      InitsAppend(s.toClient, Init(Public(g.pub(step.a), step.a)));
      CompletesAppend(s.toClient, Init(Public(g.pub(step.a), step.a)));
    }
  }

  /**
   * Over any run each exchange started is an init message that has been read or is on its way, each init
   * read is an answer that has been read or is on its way, and each key the server has installed is a
   * confirmation that has been read or is on its way.
   */
  lemma {:induction false} MessagesAreConserved(x: Aead, g: Crypto, s: State, steps: seq<Step>)
    ensures
      var t := Run(x, g, s, steps);
      && |Inits(t.toClient)| + ClientSwitches(x, g, s, steps) == |Inits(s.toClient)| + Times(x, g, s, steps, StartsExchange)
      && |t.toServer| + Times(x, g, s, steps, ReadsAnswer) == |s.toServer| + ClientSwitches(x, g, s, steps)
      && Completes(t.toClient) + Times(x, g, s, steps, ReadsComplete) == Completes(s.toClient) + ServerSwitches(x, g, s, steps)
    decreases |steps|
  {
    if steps != [] {
      MessagesStep(x, g, s, steps[0]);
      MessagesAreConserved(x, g, Next(x, g, s, steps[0]), steps[1..]);
    }
  }

  /**
   * When all messages of a connection have been read, each exchange has led to one switch of the client and
   * one answer, and the client has been told exactly once of each key the server has installed.
   */
  lemma EachKeyIsConfirmedOnce(x: Aead, g: Crypto, steps: seq<Step>)
    requires Run(x, g, INITIAL, steps).toClient == [] && Run(x, g, INITIAL, steps).toServer == []
    ensures Times(x, g, INITIAL, steps, ReadsComplete) == ServerSwitches(x, g, INITIAL, steps)
    ensures Times(x, g, INITIAL, steps, StartsExchange) == ClientSwitches(x, g, INITIAL, steps)
         == Times(x, g, INITIAL, steps, ReadsAnswer)
  {
    MessagesAreConserved(x, g, INITIAL, steps);
  }

  // ---- In which order keys are installed ----

  /** The exchange whose key the server takes when it reads its next answer. */
  function NextPair(s: State): Option<(nat, nat)> {
    if s.toServer != [] && Pending(s).Some? then Some((Pending(s).value, s.toServer[0].owner)) else None
  }

  /** What is left at t of the secret and the answers at s: all of it, or the secret is gone. */
  ghost predicate Since(s: State, t: State) {
    && s.h.serverSecrets <= t.h.serverSecrets && s.h.clientSecrets <= t.h.clientSecrets
    && (Pending(t).Some? && Pending(t).value in s.h.serverSecrets ==>
          && Pending(t) == Pending(s) && s.toServer <= t.toServer
          && forall i :: |s.toServer| <= i < |t.toServer| ==> t.toServer[i].owner !in s.h.clientSecrets)
  }

  lemma SinceStep(x: Aead, g: Crypto, s: State, t: State, step: Step)
    requires Since(s, t) && Inv(g, t) && Possible(t, step)
    ensures Since(s, Next(x, g, t, step))
  {
  }

  lemma {:induction false} SinceRun(x: Aead, g: Crypto, s: State, t: State, mid: seq<Step>)
    requires Commutes(g) && Since(s, t) && Inv(g, t) && IsRun(x, g, t, mid)
    ensures Inv(g, Run(x, g, t, mid)) && Since(s, Run(x, g, t, mid))
    decreases |mid|
  {
    if mid != [] {
      SinceStep(x, g, s, t, mid[0]);
      StepKeepsInv(x, g, t, mid[0]);
      SinceRun(x, g, s, Next(x, g, t, mid[0]), mid[1..]);
    }
  }

  /**
   * Whatever happens after s: a client install is for an exchange of which s knows nothing, and a server
   * install is for such an exchange, or for the one whose answer was next to be read at s.
   */
  lemma InstallsAreNewOrInFlight(x: Aead, g: Crypto, s: State, mid: seq<Step>, step: Step)
    requires Commutes(g) && Inv(g, s) && IsRun(x, g, s, mid) && Possible(Run(x, g, s, mid), step)
    ensures
      var t := Run(x, g, s, mid);
      && (SwitchesClient(t, step) ==> step.b !in s.h.clientSecrets)
      && (SwitchesServer(t, step) ==> NextPair(t).Some? && (NextPair(t) == NextPair(s) || !UsedPair(s, NextPair(t).value)))
      && (SwitchesServer(t, step) ==>
            Next(x, g, t, step).entry.value.current == KeyOf(g, NextPair(t).value.0, NextPair(t).value.1))
  {
    var t := Run(x, g, s, mid);
    SinceRun(x, g, s, s, mid);
    if SwitchesServer(t, step) { assert t.toServer[0] in t.toServer; }
  }

  lemma RunCons(x: Aead, g: Crypto, s: State, a: Step, rest: seq<Step>)
    ensures Run(x, g, s, [a] + rest) == Run(x, g, Next(x, g, s, a), rest)
    ensures IsRun(x, g, s, [a] + rest) == (Possible(s, a) && IsRun(x, g, Next(x, g, s, a), rest))
  {
    assert ([a] + rest)[1..] == rest;
  }

  /** Two joins, both answered by the client, and nothing read by the server yet. */
  function AnsweredTwice(g: Crypto): State {
    INITIAL.(connSecret := Some(2), toServer := [Public(g.pub(3), 3), Public(g.pub(4), 4)],
             client := ClientInstall(ClientInstall(NEW_CLIENT, g.kdf(g.dh(3, g.pub(1))), 0.0), g.kdf(g.dh(4, g.pub(2))), 0.0),
             h := History({1, 2}, {3, 4}, true, 2, false, false, None, None, Some((2, 4))))
  }

  const TWO_JOINS: seq<Step> := [Join(1), Join(2), ClientReads(3, 0.0), ClientReads(4, 0.0)]
  const TWO_READS: seq<Step> := [ServerReads(0.0), ServerReads(0.0)]

  lemma TwoJoinsReach(x: Aead, g: Crypto)
    ensures IsRun(x, g, INITIAL, TWO_JOINS) && Run(x, g, INITIAL, TWO_JOINS) == AnsweredTwice(g)
  {
    var i1, i2 := Init(Public(g.pub(1), 1)), Init(Public(g.pub(2), 2));
    var s1 := Next(x, g, INITIAL, Join(1));
    assert s1.toClient == [i1] && Inits([i1]) == [i1.public];
    var s2 := Next(x, g, s1, Join(2));
    assert s2.toClient == [i1, i2];
    var s3 := Next(x, g, s2, ClientReads(3, 0.0));
    assert s3.toClient == [i2];
    var s4 := Next(x, g, s3, ClientReads(4, 0.0));
    assert s4 == AnsweredTwice(g);
    assert TWO_JOINS == [Join(1)] + ([Join(2)] + ([ClientReads(3, 0.0)] + ([ClientReads(4, 0.0)] + [])));
    RunCons(x, g, s3, ClientReads(4, 0.0), []);
    RunCons(x, g, s2, ClientReads(3, 0.0), [ClientReads(4, 0.0)] + []);
    RunCons(x, g, s1, Join(2), [ClientReads(3, 0.0)] + ([ClientReads(4, 0.0)] + []));
    RunCons(x, g, INITIAL, Join(1), [Join(2)] + ([ClientReads(3, 0.0)] + ([ClientReads(4, 0.0)] + [])));
  }

  /**
   * Two joins before the first answer: when all is quiet again the server holds the key of secrets 2
   * and 3, the client the key of secrets 2 and 4.
   */
  lemma OverlapBreaksAgreement(x: Aead, g: Crypto)
    requires Commutes(g) && Separates(g, {1, 2}, {3, 4})
    ensures IsRun(x, g, INITIAL, TWO_JOINS) && IsRun(x, g, Run(x, g, INITIAL, TWO_JOINS), TWO_READS)
    ensures
      var s := Run(x, g, Run(x, g, INITIAL, TWO_JOINS), TWO_READS);
      Outstanding(s) == 0 && s.entry.Some? && s.client.ready && !SameKey(s)
  {
    TwoJoinsReach(x, g);
    var s4 := AnsweredTwice(g);
    var s5 := Next(x, g, s4, ServerReads(0.0));
    assert s5.toServer == [Public(g.pub(4), 4)] && s5.toClient == [Complete];
    var s6 := Next(x, g, s5, ServerReads(0.0));
    InitsAppend([], Complete);
    assert s6.toServer == [] && s6.toClient == [] + [Complete];
    assert s6.entry.value.current == KeyOf(g, 2, 3) && s6.client.current == KeyOf(g, 2, 4);
    assert TWO_READS == [ServerReads(0.0)] + ([ServerReads(0.0)] + []);
    RunCons(x, g, s5, ServerReads(0.0), []);
    RunCons(x, g, s4, ServerReads(0.0), [ServerReads(0.0)] + []);
  }
}
