/**
 * The handlers of the key exchange as the sources run them, in place, each proved to take its side of
 * the step that KeyAgreement reasons about.
 */
module KeyHandlers {
  import opened Options
  import opened Srtp
  import opened KeyAgreement
  import opened Managers

  /** The server's side of one connection in a KeyAgreement state. */
  datatype ServerSide = ServerSide(
    connSecret: Option<nat>, rotationSecret: Option<nat>, entry: Option<Entry>, initialized: bool, toClient: seq<ToClient>)

  function ServerSideOf(s: State): ServerSide {
    ServerSide(s.connSecret, s.rotationSecret, s.entry, s.initialized, s.toClient)
  }

  function Outbox(outboxes: map<int, seq<ToClient>>, u: int): seq<ToClient> {
    if u in outboxes then outboxes[u] else []
  }

  class ConnState {
    var userId: int
    var keSecret: Option<nat>
    var srtpInitialized: bool

    constructor (userId: int)
      ensures this.userId == userId && keSecret.None? && !srtpInitialized
    {
      this.userId, keSecret, srtpInitialized := userId, None, false;
    }
  }

  class KeyServer {
    const srtpManager: SrtpSessionManager
    var rotationSecrets: map<int, nat>
    var outboxes: map<int, seq<ToClient>>

    constructor (srtpManager: SrtpSessionManager)
      ensures this.srtpManager == srtpManager && rotationSecrets == map[] && outboxes == map[]
    {
      this.srtpManager := srtpManager;
      rotationSecrets, outboxes := map[], map[];
    }

    function Side(conn: ConnState): ServerSide
      reads this, srtpManager, conn
    {
      ServerSide(conn.keSecret, Lookup(rotationSecrets, conn.userId), Lookup(srtpManager.sessions, conn.userId),
                 conn.srtpInitialized, Outbox(outboxes, conn.userId))
    }

    method Send(u: int, m: ToClient)
      modifies this`outboxes
      ensures outboxes == old(outboxes)[u := Outbox(old(outboxes), u) + [m]]
    {
      outboxes := outboxes[u := Outbox(outboxes, u) + [m]];
    }

    /** The end of handle_join_channel: the first join of a connection starts an exchange. */
    method InitiateOnJoin(g: Crypto, conn: ConnState, a: nat, ghost x: Aead, ghost s: State)
      requires Side(conn) == ServerSideOf(s)
      modifies this`outboxes, conn
      ensures conn.userId == old(conn.userId) && Side(conn) == ServerSideOf(Next(x, g, s, Join(a)))
      ensures forall u :: u != conn.userId ==> Outbox(outboxes, u) == Outbox(old(outboxes), u)
      ensures conn.srtpInitialized == old(conn.srtpInitialized)
      ensures conn.keSecret == if old(conn.srtpInitialized) then old(conn.keSecret) else Some(a)
      ensures Outbox(outboxes, conn.userId) ==
              Outbox(old(outboxes), conn.userId) + if old(conn.srtpInitialized) then [] else [Init(Public(g.pub(a), a))]
    {
      if !conn.srtpInitialized {
        conn.keSecret := Some(a);
        Send(conn.userId, Init(Public(g.pub(a), a)));
      }
    }

    method TakeRotationSecret(u: int) returns (r: Option<nat>)
      modifies this`rotationSecrets
      ensures r == Lookup(old(rotationSecrets), u) && rotationSecrets == old(rotationSecrets) - {u}
    {
      r := Lookup(rotationSecrets, u);
      rotationSecrets := rotationSecrets - {u};
    }

    /**
     * handle_key_exchange_response: the connection's own secret first, then the rotation store. A public
     * key that does not decode to 32 bytes (None) still costs the secret. The key is installed and the
     * client told so exactly when there is a secret and a key to combine it with.
     */
    method HandleKeyExchangeResponse(g: Crypto, conn: ConnState, decoded: Option<Public>, now: Time, ghost x: Aead, ghost s: State)
      requires Side(conn) == ServerSideOf(s)
      requires decoded.Some? ==> s.toServer != [] && s.toServer[0] == decoded.value
      modifies this, srtpManager, conn
      ensures conn.userId == old(conn.userId)
      ensures decoded.Some? ==> Side(conn) == ServerSideOf(Next(x, g, s, ServerReads(now)))
      ensures decoded.None? ==>
                Side(conn) == ServerSideOf(s).(connSecret := None,
                                               rotationSecret := if s.connSecret.Some? then s.rotationSecret else None)
      ensures forall u :: u != conn.userId ==>
                && Outbox(outboxes, u) == Outbox(old(outboxes), u)
                && Lookup(rotationSecrets, u) == Lookup(old(rotationSecrets), u)
                && Lookup(srtpManager.sessions, u) == Lookup(old(srtpManager.sessions), u)
      ensures conn.keSecret.None?
      ensures rotationSecrets == if old(conn.keSecret).Some? then old(rotationSecrets) else old(rotationSecrets) - {conn.userId}
      ensures
        var u, sessions := conn.userId, old(srtpManager.sessions);
        var secret := if old(conn.keSecret).Some? then old(conn.keSecret) else Lookup(old(rotationSecrets), u);
        if decoded.Some? && secret.Some? then
          && Outbox(outboxes, u) == Outbox(old(outboxes), u) + [Complete]
          && conn.srtpInitialized
          && srtpManager.sessions ==
             sessions[u := Entry(g.kdf(g.dh(secret.value, decoded.value.key)),
                                 if u in sessions then Some((sessions[u].current, now)) else None)]
        else
          && Outbox(outboxes, u) == Outbox(old(outboxes), u)
          && conn.srtpInitialized == old(conn.srtpInitialized) && srtpManager.sessions == sessions
    {
      var secret := conn.keSecret;
      conn.keSecret := None;
      if secret.None? {
        secret := TakeRotationSecret(conn.userId);
        if secret.None? { return; }
      }
      if decoded.None? { return; }
      srtpManager.SetSession(conn.userId, g.kdf(g.dh(secret.value, decoded.value.key)), now);
      conn.srtpInitialized := true;
      Send(conn.userId, Complete);
    }

    /** One user's turn in the rotation loop. */
    method RotateOne(g: Crypto, u: int, a: nat, connected: bool)
      modifies this
      ensures Rotated(g, u in srtpManager.sessions, connected, TurnOf(old(rotationSecrets), old(outboxes), u),
                      TurnOf(rotationSecrets, outboxes, u), a)
      ensures forall v :: v != u ==> TurnOf(rotationSecrets, outboxes, v) == TurnOf(old(rotationSecrets), old(outboxes), v)
    {
      if u in srtpManager.sessions {
        rotationSecrets := rotationSecrets[u := a];
        if connected { Send(u, Init(Public(g.pub(a), a))); }
      }
    }

    /**
     * One tick of the rotation task over the users that were connected when it began: each that has a
     * session gets a fresh secret, and an init message if it is still connected; the others nothing.
     */
    method RotateAll(g: Crypto, userIds: seq<int>, newSecrets: seq<nat>, connected: set<int>)
      requires NoDuplicates(userIds) && |newSecrets| == |userIds|
      modifies this
      ensures forall i :: 0 <= i < |userIds| ==>
                Rotated(g, userIds[i] in srtpManager.sessions, userIds[i] in connected,
                        TurnOf(old(rotationSecrets), old(outboxes), userIds[i]),
                        TurnOf(rotationSecrets, outboxes, userIds[i]), newSecrets[i])
      ensures forall u :: u !in userIds ==> TurnOf(rotationSecrets, outboxes, u) == TurnOf(old(rotationSecrets), old(outboxes), u)
    {
      for k := 0 to |userIds|
        invariant forall i :: 0 <= i < k ==>
                    Rotated(g, userIds[i] in srtpManager.sessions, userIds[i] in connected,
                            TurnOf(old(rotationSecrets), old(outboxes), userIds[i]),
                            TurnOf(rotationSecrets, outboxes, userIds[i]), newSecrets[i])
        invariant forall u :: u !in userIds[..k] ==>
                    TurnOf(rotationSecrets, outboxes, u) == TurnOf(old(rotationSecrets), old(outboxes), u)
      {
        RotateOne(g, userIds[k], newSecrets[k], userIds[k] in connected);
        assert userIds[..k + 1] == userIds[..k] + [userIds[k]];
      }
      assert userIds[..|userIds|] == userIds;
    }
  }

  /** What a rotation can change for one user: the stored secret and the messages sent. */
  function TurnOf(secrets: map<int, nat>, boxes: map<int, seq<ToClient>>, u: int): (Option<nat>, seq<ToClient>) {
    (Lookup(secrets, u), Outbox(boxes, u))
  }

  predicate Rotated(g: Crypto, hasSession: bool, connected: bool,
                    before: (Option<nat>, seq<ToClient>), after: (Option<nat>, seq<ToClient>), a: nat) {
    if hasSession then after == (Some(a), if connected then before.1 + [Init(Public(g.pub(a), a))] else before.1)
    else after == before
  }

  /** A connected user's turn in the rotation task is the step Rotate of that user's connection. */
  lemma RotatedIsTheStep(x: Aead, g: Crypto, s: State, after: (Option<nat>, seq<ToClient>), a: nat)
    requires Rotated(g, s.entry.Some?, true, (s.rotationSecret, s.toClient), after, a)
    ensures ServerSideOf(Next(x, g, s, Rotate(a))) == ServerSideOf(s).(rotationSecret := after.0, toClient := after.1)
  {
  }

  class MainWindow {
    var privateKey: Option<nat>
    const srtpSession: SrtpSession
    var toServer: seq<Public>

    constructor (srtpSession: SrtpSession)
      ensures this.srtpSession == srtpSession && toServer == []
    {
      privateKey, toServer := None, [];
      this.srtpSession := srtpSession;
    }

    /**
     * Answers with a fresh key and switches to the derived keys at once. Without a key pair (None)
     * nothing is sent; when the derivation fails the answer has been sent but the keys stay.
     */
    method OnKeyExchangeInit(g: Crypto, public: Public, generated: Option<nat>, derives: bool, now: Time,
                             ghost x: Aead, ghost s: State)
      requires s.client == srtpSession.State() && s.toServer == toServer
      requires s.toClient != [] && s.toClient[0] == Init(public)
      modifies this, srtpSession
      ensures generated.Some? && derives ==>
                var s' := Next(x, g, s, ClientReads(generated.value, now));
                s'.client == srtpSession.State() && s'.toServer == toServer
      ensures generated.Some? && derives ==>
                && toServer == old(toServer) + [Public(g.pub(generated.value), generated.value)]
                && srtpSession.ready && srtpSession.current == g.kdf(g.dh(generated.value, public.key))
                && (old(srtpSession.ready) ==>
                      srtpSession.previous == Some(old(srtpSession.current)) && srtpSession.rotationTime == now)
      ensures !derives || generated.None? ==> srtpSession.State() == old(srtpSession.State())
      ensures !derives && generated.Some? ==>
                toServer == old(toServer) + [Public(g.pub(generated.value), generated.value)]
      ensures generated.None? ==> toServer == old(toServer)
    {
      privateKey := generated;
      if privateKey.None? { return; }
      toServer := toServer + [Public(g.pub(privateKey.value), privateKey.value)];
      if !derives { return; }
      var shared := g.dh(privateKey.value, public.key);
      var ok := srtpSession.Init(g.kdf(shared), now);
    }
  }
}
