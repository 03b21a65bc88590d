/**
 * The handlers that keep ChannelManager and ConnectionManager in step, and what every run of them
 * preserves. Each handler is one atomic step; database lookups have already succeeded.
 */
module Membership {
  import opened Options
  import opened Runs
  import opened Managers

  /** The in-memory state: who has a presence entry and who an SRTP session is kept as sets. */
  datatype Index = Index(
    channels: Channels, limits: map<int, int>, connections: Connections, presence: set<int>, srtp: set<int>)

  function Registered(i: Index, u: int, orgId: int): Index {
    i.(connections := i.connections[u := Handle(orgId, {}, None)])
  }

  function JoinedBy(i: Index, u: int, c: int): Index {
    i.(channels := Joined(i.channels, i.limits, c, u),
       connections := if IsFull(i.channels, i.limits, c) then i.connections else WithChannel(i.connections, u, c))
  }

  function LeftBy(i: Index, u: int, c: int): Index {
    i.(channels := Left(i.channels, c, u), connections := WithoutChannel(i.connections, u, c))
  }

  /** Deleting a channel takes it from every member's connection, and from the channel map. */
  function ChannelDeleted(i: Index, c: int): Index {
    i.(channels := i.channels - {c},
       connections := map u | u in i.connections ::
                        if u in Members(i.channels, c)
                        then i.connections[u].(channels := i.connections[u].channels - {c}) else i.connections[u])
  }

  function CleanedUp(i: Index, u: int): Index {
    i.(channels := LeftAll(i.channels, u), connections := i.connections - {u},
       presence := i.presence - {u}, srtp := i.srtp - {u})
  }

  function AdminRemoved(i: Index, u: int): Index {
    i.(connections := i.connections - {u})
  }

  class Server {
    const channelManager: ChannelManager
    const connectionManager: ConnectionManager
    var presence: set<int>
    var srtp: set<int>

    function Value(): Index
      reads this, channelManager, connectionManager
    {
      Index(channelManager.channels, channelManager.limits, connectionManager.connections, presence, srtp)
    }

    constructor ()
      ensures Value() == Index(map[], map[], map[], {}, {})
      ensures fresh(channelManager) && fresh(connectionManager)
    {
      channelManager := new ChannelManager();
      connectionManager := new ConnectionManager();
      presence, srtp := {}, {};
    }

    /** The registration part of handle_authenticate. */
    method RegisterConnection(u: int, orgId: int)
      modifies connectionManager
      ensures Value() == Registered(old(Value()), u, orgId)
      ensures Value() == old(Value()).(connections := old(Value()).connections[u := Handle(orgId, {}, None)])
    {
      connectionManager.Add(u, Handle(orgId, {}, None));
    }

    /** handle_join_channel; returns who is told that the user joined. */
    method HandleJoinChannel(u: int, c: int) returns (ok: bool, told: seq<int>)
      modifies channelManager, connectionManager
      ensures Value() == JoinedBy(old(Value()), u, c)
      ensures ok <==> (c in channelManager.limits && channelManager.limits[c] > 0 ==>
                         (if c in old(channelManager.channels) then |old(channelManager.channels)[c]| else 0) < channelManager.limits[c])
      ensures ok ==> forall v :: v in told <==>
                v in connectionManager.connections && c in connectionManager.connections[v].channels && v != u
    {
      told := [];
      ok := channelManager.Join(c, u);
      if !ok { return; }
      connectionManager.AddChannel(u, c);
      told := connectionManager.BroadcastToChannel(c, Some(u));
    }

    /** process_leave_channel; returns who is told that the user left. */
    method ProcessLeaveChannel(u: int, c: int) returns (told: seq<int>)
      modifies channelManager, connectionManager
      ensures Value() == LeftBy(old(Value()), u, c)
      ensures forall v :: v in told <==> v in connectionManager.connections && c in connectionManager.connections[v].channels
      ensures u !in told
    {
      channelManager.Leave(c, u);
      connectionManager.RemoveChannel(u, c);
      told := connectionManager.BroadcastToChannel(c, None);
    }

    /** The in-memory part of update_channel. */
    method UpdateChannelLimit(c: int, maxUsers: int)
      modifies channelManager
      ensures Value() == old(Value()).(limits := old(Value()).limits[c := maxUsers])
    {
      channelManager.SetLimit(c, maxUsers);
    }

    /** The member loop of delete_channel: each leaves the channel and has it taken from its connection. */
    method EvictMembers(members: seq<int>, c: int)
      modifies channelManager`channels, connectionManager
      ensures channelManager.channels - {c} == old(channelManager.channels) - {c}
      ensures connectionManager.connections.Keys == old(connectionManager.connections).Keys
      ensures forall u :: u in connectionManager.connections ==>
                var h := old(connectionManager.connections)[u];
                connectionManager.connections[u] == if u in members then h.(channels := h.channels - {c}) else h
    {
      ghost var before := connectionManager.connections;
      for k := 0 to |members|
        invariant channelManager.channels - {c} == old(channelManager.channels) - {c}
        invariant connectionManager.connections.Keys == before.Keys
        invariant forall u :: u in before ==>
                    connectionManager.connections[u] ==
                    if u in members[..k] then before[u].(channels := before[u].channels - {c}) else before[u]
      {
        channelManager.Leave(c, members[k]);
        connectionManager.RemoveChannel(members[k], c);
      }
      assert members[..|members|] == members;
    }

    /** The in-memory part of delete_channel: member by member, then the channel itself. */
    method DeleteChannel(c: int) returns (told: seq<int>)
      modifies channelManager, connectionManager
      ensures Value() == ChannelDeleted(old(Value()), c)
      ensures Members(old(channelManager.channels), c) != {} ==>
                forall v :: v in told <==> v in old(connectionManager.connections) && c in old(connectionManager.connections)[v].channels
    {
      told := [];
      ghost var before := Value();
      var members := channelManager.MembersOf(c);
      assert (forall u :: u !in Members(before.channels, c)) ==> Members(before.channels, c) == {};
      if members != [] {
        told := connectionManager.BroadcastToChannel(c, None);
        EvictMembers(members, c);
      }
      forall u | u in before.connections
        ensures connectionManager.connections[u] == ChannelDeleted(before, c).connections[u]
      {
        assert u in members <==> u in Members(before.channels, c);
      }
      var evicted := channelManager.RemoveChannel(c);
    }

    /** cleanup_connection; returns the channels whose members were told. */
    method CleanupConnection(u: int) returns (left: seq<int>)
      modifies this, channelManager, connectionManager
      ensures Value() == CleanedUp(old(Value()), u)
      ensures NoDuplicates(left) && forall c :: c in left <==> c in ChannelsOf(old(channelManager.channels), u)
      ensures forall v, d :: v in Members(Value().channels, d) <==> v in Members(old(Value()).channels, d) && v != u
      ensures Value().connections == old(Value()).connections - {u} && Value().limits == old(Value()).limits
      ensures Value().presence == old(Value()).presence - {u} && Value().srtp == old(Value()).srtp - {u}
    {
      left := channelManager.LeaveAll(u);
      ghost var after := Value();
      for k := 0 to |left|
        invariant Value() == after
      {
        var told := connectionManager.BroadcastToChannel(left[k], None);
      }
      var handle := connectionManager.Remove(u);
      presence := presence - {u};
      srtp := srtp - {u};
    }

    /** The connection part of revoke_user_sessions. */
    method DisconnectRevoked(u: int)
      modifies connectionManager
      ensures Value() == AdminRemoved(old(Value()), u)
      ensures Value() == old(Value()).(connections := old(Value()).connections - {u})
    {
      var handle := connectionManager.Remove(u);
    }
  }

  // ---- Runs ----

  /**
   * How a user stands since its last full cleanup: not registered; registered once, by one connection;
   * or registered again, removed by an admin, or left with a connection that outlived a cleanup.
   */
  datatype Status = Idle | Once(connection: int) | Unclear

  /** `live` maps each open connection to the user it authenticated as; `status` only records history. */
  datatype State = State(index: Index, live: map<int, Option<int>>, status: map<int, Status>)

  datatype Step =
    | Connect(x: int)
    | Authenticate(x: int, user: int, orgId: int)
    | Join(x: int, channel: int)
    | Leave(x: int, channel: int)
    | SetPresence(x: int)
    | KeyExchanged(x: int)
    | Close(x: int)
    | Delete(channel: int)
    | UpdateLimit(channel: int, maxUsers: int)
    | AdminRemove(user: int)

  const INITIAL := State(Index(map[], map[], map[], {}, {}), map[], map[])

  function StatusOf(s: State, u: int): Status {
    if u in s.status then s.status[u] else Idle
  }

  predicate Holds(s: State, x: int, u: int) {
    x in s.live && s.live[x] == Some(u)
  }

  function Next(s: State, step: Step): State {
    match step
    case Connect(x) => if x in s.live then s else s.(live := s.live[x := None])
    case Authenticate(x, u, org) =>
      if x !in s.live then s
      else s.(index := Registered(s.index, u, org), live := s.live[x := Some(u)],
              status := s.status[u := if StatusOf(s, u) == Idle then Once(x) else Unclear])
    case Join(x, c) =>
      if x in s.live && s.live[x].Some? then s.(index := JoinedBy(s.index, s.live[x].value, c)) else s
    case Leave(x, c) =>
      if x in s.live && s.live[x].Some? then s.(index := LeftBy(s.index, s.live[x].value, c)) else s
    case SetPresence(x) =>
      if x in s.live && s.live[x].Some? then s.(index := s.index.(presence := s.index.presence + {s.live[x].value}))
      else s
    case KeyExchanged(x) =>
      if x in s.live && s.live[x].Some? then s.(index := s.index.(srtp := s.index.srtp + {s.live[x].value})) else s
    case Close(x) =>
      if x !in s.live then s
      else
        var rest := s.live - {x};
        if s.live[x].None? then s.(live := rest)
        else
          var u := s.live[x].value;
          State(CleanedUp(s.index, u), rest,
                s.status[u := if exists y :: y in rest && rest[y] == Some(u) then Unclear else Idle])
    case Delete(c) => s.(index := ChannelDeleted(s.index, c))
    case UpdateLimit(c, n) => s.(index := s.index.(limits := s.index.limits[c := n]))
    case AdminRemove(u) =>
      s.(index := AdminRemoved(s.index, u), status := if StatusOf(s, u).Once? then s.status[u := Unclear] else s.status)
  }

  function Stepper(): (State, Step) -> State {
    (s, step) => Next(s, step)
  }

  function Run(s: State, steps: seq<Step>): State {
    Fold(Stepper(), s, steps)
  }

  // ---- Invariant ----

  /** Whoever a control broadcast reaches is also in the voice channel. */
  ghost predicate ControlWithinVoice(i: Index) {
    forall u, c :: u in i.connections && c in i.connections[u].channels ==> c in i.channels && u in i.channels[c]
  }

  /** User u's two memberships are the same. */
  ghost predicate Agrees(i: Index, u: int) {
    forall c :: u in Members(i.channels, c) <==> u in Audience(i.connections, c)
  }

  /** No channel, connection, presence or SRTP entry mentions the user. */
  ghost predicate Absent(i: Index, u: int) {
    && u !in i.connections && u !in i.presence && u !in i.srtp
    && forall c :: u !in Members(i.channels, c)
  }

  ghost predicate UserInv(s: State, u: int) {
    match StatusOf(s, u)
    case Idle => Absent(s.index, u) && forall x :: !Holds(s, x, u)
    case Once(y) => u in s.index.connections && Agrees(s.index, u) && forall x :: Holds(s, x, u) ==> x == y
    case Unclear => true
  }

  ghost predicate Inv(s: State) {
    ControlWithinVoice(s.index) && forall u :: UserInv(s, u)
  }

  lemma JoinKeeps(i: Index, u: int, c: int, v: int)
    requires ControlWithinVoice(i)
    ensures ControlWithinVoice(JoinedBy(i, u, c))
    ensures Agrees(i, v) && (v == u ==> u in i.connections) ==> Agrees(JoinedBy(i, u, c), v)
    ensures v != u && Absent(i, v) ==> Absent(JoinedBy(i, u, c), v)
  {
    var j := JoinedBy(i, u, c);
    forall d ensures v in Members(j.channels, d) <==> v in Members(i.channels, d) || (v == u && d == c && !IsFull(i.channels, i.limits, c)) { }
  }

  lemma LeaveKeeps(i: Index, u: int, c: int, v: int)
    requires ControlWithinVoice(i)
    ensures ControlWithinVoice(LeftBy(i, u, c))
    ensures Agrees(i, v) ==> Agrees(LeftBy(i, u, c), v)
    ensures Absent(i, v) ==> Absent(LeftBy(i, u, c), v)
  {
    var j := LeftBy(i, u, c);
    forall d ensures v in Members(j.channels, d) <==> v in Members(i.channels, d) && !(v == u && d == c) { }
    forall d ensures v in Audience(j.connections, d) <==> v in Audience(i.connections, d) && !(v == u && d == c) { }
  }

  lemma DeleteKeeps(i: Index, c: int, v: int)
    requires ControlWithinVoice(i)
    ensures ControlWithinVoice(ChannelDeleted(i, c))
    ensures Agrees(i, v) ==> Agrees(ChannelDeleted(i, c), v)
    ensures Absent(i, v) ==> Absent(ChannelDeleted(i, c), v)
  {
    var j := ChannelDeleted(i, c);
    forall d ensures v in Members(j.channels, d) <==> v in Members(i.channels, d) && d != c { }
    forall d ensures v in Audience(j.connections, d) <==> v in Audience(i.connections, d) && d != c { }
  }

  /** After cleanup_connection nothing mentions the user; everybody else keeps what they had. */
  lemma CleanupLeavesNoTrace(i: Index, u: int, v: int)
    requires ControlWithinVoice(i)
    ensures ControlWithinVoice(CleanedUp(i, u)) && Absent(CleanedUp(i, u), u)
    ensures v != u && Agrees(i, v) ==> Agrees(CleanedUp(i, u), v)
    ensures v != u && Absent(i, v) ==> Absent(CleanedUp(i, u), v)
  {
    var j := CleanedUp(i, u);
    forall d ensures v in Members(j.channels, d) <==> v in Members(i.channels, d) && v != u { }
  }

  /** Only authenticating makes a connection hold a user, and only closing ends it. */
  lemma HoldersStep(s: State, step: Step, v: int)
    ensures forall y :: Holds(Next(s, step), y, v) ==>
                          Holds(s, y, v) || (step.Authenticate? && step.x == y && step.user == v && y in s.live)
    ensures step.Close? ==> forall y :: Holds(Next(s, step), y, v) <==> Holds(s, y, v) && y != step.x
  {
  }

  lemma StepKeepsUser(s: State, step: Step, v: int)
    requires Inv(s)
    ensures ControlWithinVoice(Next(s, step).index) && UserInv(Next(s, step), v)
  {
    assert UserInv(s, v);
    HoldersStep(s, step, v);
    match step
    case Join(x, c) =>
      if x in s.live && s.live[x].Some? {
        var u := s.live[x].value;
        assert Holds(s, x, u);
        assert UserInv(s, u);
        JoinKeeps(s.index, u, c, v);
      }
    case Leave(x, c) =>
      if x in s.live && s.live[x].Some? {
        assert Holds(s, x, s.live[x].value);
        LeaveKeeps(s.index, s.live[x].value, c, v);
      }
    case Close(x) =>
      if x in s.live && s.live[x].Some? {
        assert Holds(s, x, s.live[x].value);
        CleanupLeavesNoTrace(s.index, s.live[x].value, v);
      }
    case Delete(c) => DeleteKeeps(s.index, c, v);
    case SetPresence(x) =>
      if x in s.live && s.live[x].Some? { assert Holds(s, x, s.live[x].value); }
    case KeyExchanged(x) =>
      if x in s.live && s.live[x].Some? { assert Holds(s, x, s.live[x].value); }
    case _ =>
  }

  lemma StepKeepsInv(s: State, step: Step)
    requires Inv(s)
    ensures Inv(Next(s, step))
  {
    forall v ensures ControlWithinVoice(Next(s, step).index) && UserInv(Next(s, step), v) {
      StepKeepsUser(s, step, v);
    }
  }

  lemma {:induction false} RunKeepsInv(s: State, steps: seq<Step>)
    requires Inv(s)
    ensures Inv(Run(s, steps))
    decreases |steps|
  {
    if steps != [] {
      StepKeepsInv(s, steps[0]);
      RunKeepsInv(Next(s, steps[0]), steps[1..]);
    }
  }

  /**
   * In every run: control broadcasts reach only voice members; for a user registered once since its
   * last full cleanup both memberships are the same; and a user not registered has left no trace.
   */
  lemma MembershipsAgree(steps: seq<Step>)
    ensures forall c :: Audience(Run(INITIAL, steps).index.connections, c) <= Members(Run(INITIAL, steps).index.channels, c)
    ensures forall u :: StatusOf(Run(INITIAL, steps), u).Once? ==> Agrees(Run(INITIAL, steps).index, u)
    ensures forall u :: StatusOf(Run(INITIAL, steps), u).Idle? ==> Absent(Run(INITIAL, steps).index, u)
  {
    RunKeepsInv(INITIAL, steps);
    var s := Run(INITIAL, steps);
    forall c, u | u in Audience(s.index.connections, c) ensures u in Members(s.index.channels, c) {
      assert c in s.index.connections[u].channels;
    }
    forall u ensures StatusOf(s, u).Once? ==> Agrees(s.index, u) { assert UserInv(s, u); }
    forall u ensures StatusOf(s, u).Idle? ==> Absent(s.index, u) { assert UserInv(s, u); }
  }

  /** When all members of a channel are registered once, voice and control reach the same audience. */
  lemma SameAudience(steps: seq<Step>, c: int)
    requires forall u :: u in Members(Run(INITIAL, steps).index.channels, c) ==> StatusOf(Run(INITIAL, steps), u).Once?
    ensures Audience(Run(INITIAL, steps).index.connections, c) == Members(Run(INITIAL, steps).index.channels, c)
  {
    MembershipsAgree(steps);
    var s := Run(INITIAL, steps);
    forall u | u in Members(s.index.channels, c) ensures u in Audience(s.index.connections, c) {
      assert StatusOf(s, u).Once?;
      assert Agrees(s.index, u);
    }
  }

  lemma InNoChannelIff(i: Index, u: int)
    ensures ChannelsOf(i.channels, u) == {} <==> forall c :: u !in Members(i.channels, c)
  {
    var cs := ChannelsOf(i.channels, u);
    forall c ensures c in cs <==> u in Members(i.channels, c) { }
    assert (forall c :: c !in cs) ==> cs == {};
  }

  /**
   * From agreement: registering a user again, or removing its connection, keeps the two in step iff it
   * is in no channel; a join keeps them in step iff the user has a connection or the channel is full.
   */
  lemma AgreementLostIff(i: Index, u: int, orgId: int, c: int)
    ensures Agrees(Registered(i, u, orgId), u) <==> ChannelsOf(i.channels, u) == {}
    ensures Agrees(AdminRemoved(i, u), u) <==> ChannelsOf(i.channels, u) == {}
    ensures Agrees(i, u) ==> (Agrees(JoinedBy(i, u, c), u) <==> u in i.connections || IsFull(i.channels, i.limits, c))
  {
    InNoChannelIff(i, u);
    var r, a := Registered(i, u, orgId), AdminRemoved(i, u);
    assert forall d :: u !in Audience(r.connections, d);
    assert forall d :: u !in Audience(a.connections, d);
    if Agrees(i, u) { JoinAgreesIff(i, u, c); }
  }

  lemma JoinAgreesIff(i: Index, u: int, c: int)
    requires Agrees(i, u)
    ensures Agrees(JoinedBy(i, u, c), u) <==> u in i.connections || IsFull(i.channels, i.limits, c)
  {
    var j := JoinedBy(i, u, c);
    if u in i.connections || IsFull(i.channels, i.limits, c) {
      forall d ensures u in Members(j.channels, d) <==> u in Audience(j.connections, d) {
        assert u in Members(i.channels, d) <==> u in Audience(i.connections, d);
      }
    } else {
      assert u in Members(j.channels, c) && u !in Audience(j.connections, c);
    }
  }

  /** The steps that take u's agreement away. */
  predicate LosesAgreement(s: State, step: Step, u: int) {
    || (step.Authenticate? && step.x in s.live && step.user == u && ChannelsOf(s.index.channels, u) != {})
    || (step.AdminRemove? && step.user == u && ChannelsOf(s.index.channels, u) != {})
    || (step.Join? && Holds(s, step.x, u) && u !in s.index.connections && !IsFull(s.index.channels, s.index.limits, step.channel))
  }

  lemma OtherUsersAgree(i: Index, v: int, u: int, orgId: int, c: int)
    requires v != u && Agrees(i, u)
    ensures Agrees(Registered(i, v, orgId), u) && Agrees(AdminRemoved(i, v), u) && Agrees(JoinedBy(i, v, c), u)
  {
    forall d ensures u in Members(i.channels, d) <==> u in Members(JoinedBy(i, v, c).channels, d) { }
  }

  lemma CleanupAgrees(i: Index, u: int, v: int)
    requires ControlWithinVoice(i) && (v == u || Agrees(i, u))
    ensures Agrees(CleanedUp(i, v), u)
  {
    CleanupLeavesNoTrace(i, v, u);
  }

  /** In every reachable state a step takes u's agreement away if and only if it is one of those three. */
  lemma StepLosesAgreementIff(s: State, step: Step, u: int)
    requires Inv(s) && Agrees(s.index, u)
    ensures !Agrees(Next(s, step).index, u) <==> LosesAgreement(s, step, u)
  {
    match step
    case Authenticate(x, v, org) =>
      if v == u { AgreementLostIff(s.index, u, org, 0); } else { OtherUsersAgree(s.index, v, u, org, 0); }
    case AdminRemove(v) =>
      if v == u { AgreementLostIff(s.index, u, 0, 0); } else { OtherUsersAgree(s.index, v, u, 0, 0); }
    case Join(x, c) =>
      if x in s.live && s.live[x].Some? {
        if s.live[x].value == u { JoinAgreesIff(s.index, u, c); } else { OtherUsersAgree(s.index, s.live[x].value, u, 0, c); }
      }
    case Leave(x, c) => if x in s.live && s.live[x].Some? { LeaveKeeps(s.index, s.live[x].value, c, u); }
    case Close(x) => if x in s.live && s.live[x].Some? { CleanupAgrees(s.index, u, s.live[x].value); }
    case Delete(c) => DeleteKeeps(s.index, c, u);
    case _ =>
  }

  ghost predicate AgreesAfter(steps: seq<Step>, n: nat, u: int)
    requires n <= |steps|
  {
    Agrees(Run(INITIAL, steps[..n]).index, u)
  }

  predicate LosesAt(steps: seq<Step>, n: nat, u: int)
    requires n < |steps|
  {
    LosesAgreement(Run(INITIAL, steps[..n]), steps[n], u)
  }

  lemma AgreesNextIff(steps: seq<Step>, n: nat, u: int)
    requires n < |steps| && AgreesAfter(steps, n, u)
    ensures AgreesAfter(steps, n + 1, u) <==> !LosesAt(steps, n, u)
  {
    RunKeepsInv(INITIAL, steps[..n]);
    FoldPrefix(Stepper(), INITIAL, steps, n);
    StepLosesAgreementIff(Run(INITIAL, steps[..n]), steps[n], u);
  }

  /** Whole runs: u's memberships agree throughout if and only if none of those steps is taken. */
  lemma AgreementThroughoutIff(steps: seq<Step>, u: int)
    ensures (forall n :: 0 <= n <= |steps| ==> AgreesAfter(steps, n, u))
       <==> (forall n :: 0 <= n < |steps| ==> !LosesAt(steps, n, u))
  {
    if forall n :: 0 <= n <= |steps| ==> AgreesAfter(steps, n, u) {
      forall n | 0 <= n < |steps| ensures !LosesAt(steps, n, u) {
        assert AgreesAfter(steps, n + 1, u);
        AgreesNextIff(steps, n, u);
      }
    }
    if forall n :: 0 <= n < |steps| ==> !LosesAt(steps, n, u) {
      assert steps[..0] == [];
      for n := 0 to |steps|
        invariant forall k :: 0 <= k <= n ==> AgreesAfter(steps, k, u)
      {
        AgreesNextIff(steps, n, u);
      }
    }
  }

  // ---- What a handler leaves alone ----

  ghost predicate SameButMemberships(i: Index, j: Index) {
    && j.limits == i.limits && j.presence == i.presence && j.srtp == i.srtp
    && j.connections.Keys == i.connections.Keys
    && forall v :: v in i.connections ==>
                     j.connections[v].orgId == i.connections[v].orgId && j.connections[v].udpAddr == i.connections[v].udpAddr
  }

  lemma JoinLeaveDeleteTouchMembershipsOnly(i: Index, u: int, c: int)
    ensures SameButMemberships(i, JoinedBy(i, u, c)) && SameButMemberships(i, LeftBy(i, u, c))
    ensures SameButMemberships(i, ChannelDeleted(i, c))
  {
  }

  // ---- Memberships are what the run says ----

  /** The step takes u into c's voice: u's connection joins, and the channel has room or no limit. */
  predicate Enters(s: State, step: Step, u: int, c: int) {
    && step.Join? && step.channel == c && step.x in s.live && s.live[step.x] == Some(u)
    && (c in s.index.limits && s.index.limits[c] > 0 ==>
          (if c in s.index.channels then |s.index.channels[c]| else 0) < s.index.limits[c])
  }

  /** A connection of u leaves c or closes, or the channel is deleted. */
  predicate Exits(s: State, step: Step, u: int, c: int) {
    || (step.Leave? && step.channel == c && step.x in s.live && s.live[step.x] == Some(u))
    || (step.Close? && step.x in s.live && s.live[step.x] == Some(u))
    || step == Delete(c)
  }

  predicate Registers(s: State, step: Step, u: int) {
    step.Authenticate? && step.x in s.live && step.user == u
  }

  /** u's handle goes: a connection of u closes, or an admin removes it. */
  predicate Unregisters(s: State, step: Step, u: int) {
    (step.Close? && step.x in s.live && s.live[step.x] == Some(u)) || step == AdminRemove(u)
  }

  predicate InVoice(i: Index, u: int, c: int) {
    c in i.channels && u in i.channels[c]
  }

  predicate InControl(i: Index, u: int, c: int) {
    u in i.connections && c in i.connections[u].channels
  }

  lemma VoiceStep(s: State, step: Step, u: int, c: int)
    ensures InVoice(Next(s, step).index, u, c) <==> Enters(s, step, u, c) || (InVoice(s.index, u, c) && !Exits(s, step, u, c))
  {
  }

  lemma RegisteredStep(s: State, step: Step, u: int)
    ensures u in Next(s, step).index.connections <==>
            Registers(s, step, u) || (u in s.index.connections && !Unregisters(s, step, u))
  {
  }

  /** The control membership ends also when u registers again or an admin removes it, and begins only with a handle. */
  lemma ControlStep(s: State, step: Step, u: int, c: int)
    requires ControlWithinVoice(s.index)
    ensures InControl(Next(s, step).index, u, c) <==>
            || (Enters(s, step, u, c) && u in s.index.connections)
            || (InControl(s.index, u, c) && !Exits(s, step, u, c) && !Registers(s, step, u) && !Unregisters(s, step, u))
  {
    match step
    case Connect(_) =>
    case Authenticate(_, _, _) =>
    case Join(_, _) =>
    case Leave(_, _) =>
    case SetPresence(_) =>
    case KeyExchanged(_) =>
    case Close(_) =>
    case Delete(_) =>
    case UpdateLimit(_, _) =>
    case AdminRemove(_) =>
  }

  /** Presence entries, SRTP entries and limits come and go only with these steps. */
  lemma OtherEntriesStep(s: State, step: Step, u: int, c: int)
    ensures
      var i, closes := Next(s, step).index, step.Close? && step.x in s.live && s.live[step.x] == Some(u);
      && (u in i.presence <==>
            (step.SetPresence? && step.x in s.live && s.live[step.x] == Some(u)) || (u in s.index.presence && !closes))
      && (u in i.srtp <==>
            (step.KeyExchanged? && step.x in s.live && s.live[step.x] == Some(u)) || (u in s.index.srtp && !closes))
      && Lookup(i.limits, c) == if step.UpdateLimit? && step.channel == c then Some(step.maxUsers) else Lookup(s.index.limits, c)
  {
  }

  function Before(steps: seq<Step>, n: nat): State
    requires n <= |steps|
  {
    Run(INITIAL, steps[..n])
  }

  /** u is in c's voice after a run exactly when it has entered at some step and not left since. */
  lemma VoiceIsHistory(steps: seq<Step>, u: int, c: int)
    ensures InVoice(Run(INITIAL, steps).index, u, c) <==>
            exists n: nat :: n < |steps| && Enters(Before(steps, n), steps[n], u, c)
                             && forall m: nat :: n < m < |steps| ==> !Exits(Before(steps, m), steps[m], u, c)
  {
    var on := (n: nat) => n < |steps| && Enters(Before(steps, n), steps[n], u, c);
    var off := (n: nat) => n < |steps| && Exits(Before(steps, n), steps[n], u, c);
    var held := (n: nat) => n <= |steps| && InVoice(Before(steps, n).index, u, c);
    forall n: nat | n < |steps| ensures held(n + 1) <==> on(n) || (held(n) && !off(n)) {
      FoldPrefix(Stepper(), INITIAL, steps, n);
      VoiceStep(Before(steps, n), steps[n], u, c);
    }
    assert steps[..0] == [] && steps[..|steps|] == steps;
    LastTurn(held, on, off, |steps|);
    if n: nat :| n < |steps| && on(n) && forall m: nat :: n < m < |steps| ==> !off(m) {
      forall m: nat | n < m < |steps| ensures !Exits(Before(steps, m), steps[m], u, c) { assert !off(m); }
    }
    if n: nat :| n < |steps| && Enters(Before(steps, n), steps[n], u, c) && forall m: nat :: n < m < |steps| ==> !Exits(Before(steps, m), steps[m], u, c) {
      assert on(n) && forall m: nat :: n < m < |steps| ==> !off(m);
    }
  }

  /** The same for the connection's own list, which also needs a handle throughout. */
  lemma ControlIsHistory(steps: seq<Step>, u: int, c: int)
    ensures InControl(Run(INITIAL, steps).index, u, c) <==>
            exists n: nat :: n < |steps| && EntersControl(Before(steps, n), steps[n], u, c)
                             && forall m: nat :: n < m < |steps| ==> !ExitsControl(Before(steps, m), steps[m], u, c)
  {
    var on := (n: nat) => n < |steps| && EntersControl(Before(steps, n), steps[n], u, c);
    var off := (n: nat) => n < |steps| && ExitsControl(Before(steps, n), steps[n], u, c);
    var held := (n: nat) => n <= |steps| && InControl(Before(steps, n).index, u, c);
    forall n: nat | n < |steps| ensures held(n + 1) <==> on(n) || (held(n) && !off(n)) {
      RunKeepsInv(INITIAL, steps[..n]);
      FoldPrefix(Stepper(), INITIAL, steps, n);
      ControlStep(Before(steps, n), steps[n], u, c);
    }
    assert steps[..0] == [] && steps[..|steps|] == steps;
    LastTurn(held, on, off, |steps|);
    if n: nat :| n < |steps| && on(n) && forall m: nat :: n < m < |steps| ==> !off(m) {
      forall m: nat | n < m < |steps| ensures !ExitsControl(Before(steps, m), steps[m], u, c) { assert !off(m); }
    }
    if n: nat :| n < |steps| && EntersControl(Before(steps, n), steps[n], u, c) && forall m: nat :: n < m < |steps| ==> !ExitsControl(Before(steps, m), steps[m], u, c) {
      assert on(n) && forall m: nat :: n < m < |steps| ==> !off(m);
    }
  }

  predicate EntersControl(s: State, step: Step, u: int, c: int) {
    Enters(s, step, u, c) && u in s.index.connections
  }

  predicate ExitsControl(s: State, step: Step, u: int, c: int) {
    Exits(s, step, u, c) || Registers(s, step, u) || Unregisters(s, step, u)
  }

  /** u has a handle exactly when it has registered and neither closed a connection nor been removed since. */
  lemma RegistrationIsHistory(steps: seq<Step>, u: int)
    ensures u in Run(INITIAL, steps).index.connections <==>
            exists n: nat :: n < |steps| && Registers(Before(steps, n), steps[n], u)
                             && forall m: nat :: n < m < |steps| ==> !Unregisters(Before(steps, m), steps[m], u)
  {
    var on := (n: nat) => n < |steps| && Registers(Before(steps, n), steps[n], u);
    var off := (n: nat) => n < |steps| && Unregisters(Before(steps, n), steps[n], u);
    var held := (n: nat) => n <= |steps| && u in Before(steps, n).index.connections;
    forall n: nat | n < |steps| ensures held(n + 1) <==> on(n) || (held(n) && !off(n)) {
      FoldPrefix(Stepper(), INITIAL, steps, n);
      RegisteredStep(Before(steps, n), steps[n], u);
    }
    assert steps[..0] == [] && steps[..|steps|] == steps;
    LastTurn(held, on, off, |steps|);
    if n: nat :| n < |steps| && on(n) && forall m: nat :: n < m < |steps| ==> !off(m) {
      forall m: nat | n < m < |steps| ensures !Unregisters(Before(steps, m), steps[m], u) { assert !off(m); }
    }
    if n: nat :| n < |steps| && Registers(Before(steps, n), steps[n], u) && forall m: nat :: n < m < |steps| ==> !Unregisters(Before(steps, m), steps[m], u) {
      assert on(n) && forall m: nat :: n < m < |steps| ==> !off(m);
    }
  }

  // ---- The third way, as a run: a connection outlives another's cleanup of the same user ----

  const OUTLIVES: seq<Step> :=
    [Connect(1), Authenticate(1, 7, 1), Connect(2), Authenticate(2, 7, 1), Close(1), Join(2, 5)]

  lemma OutlivingConnectionBreaksAgreement()
    ensures 5 in Run(INITIAL, OUTLIVES).index.channels && 7 in Run(INITIAL, OUTLIVES).index.channels[5]
    ensures !Agrees(Run(INITIAL, OUTLIVES).index, 7)
  {
    var none: seq<Step> := [];
    var s1 := Next(INITIAL, Connect(1));
    var s2 := Next(s1, Authenticate(1, 7, 1));
    var s3 := Next(s2, Connect(2));
    var s4 := Next(s3, Authenticate(2, 7, 1));
    assert Holds(s4, 2, 7);
    var s5 := Next(s4, Close(1));
    var s6 := Next(s5, Join(2, 5));
    assert 7 !in s5.index.connections && s5.live[2] == Some(7);
    assert 7 in Members(s6.index.channels, 5) && 7 !in Audience(s6.index.connections, 5);
    assert OUTLIVES == [Connect(1)] + ([Authenticate(1, 7, 1)] + ([Connect(2)] + ([Authenticate(2, 7, 1)] + ([Close(1)] + ([Join(2, 5)] + none)))));
    FoldFirst(Stepper(), s5, Join(2, 5), none);
    FoldFirst(Stepper(), s4, Close(1), [Join(2, 5)] + none);
    FoldFirst(Stepper(), s3, Authenticate(2, 7, 1), [Close(1)] + ([Join(2, 5)] + none));
    FoldFirst(Stepper(), s2, Connect(2), [Authenticate(2, 7, 1)] + ([Close(1)] + ([Join(2, 5)] + none)));
    FoldFirst(Stepper(), s1, Authenticate(1, 7, 1), [Connect(2)] + ([Authenticate(2, 7, 1)] + ([Close(1)] + ([Join(2, 5)] + none))));
    FoldFirst(Stepper(), INITIAL, Connect(1), [Authenticate(1, 7, 1)] + ([Connect(2)] + ([Authenticate(2, 7, 1)] + ([Close(1)] + ([Join(2, 5)] + none)))));
  }

  /** A join never takes a channel past its limit, and is refused by a full one even to its own members. */
  lemma JoinRespectsLimit(i: Index, u: int, c: int)
    requires c in i.limits && i.limits[c] > 0
    ensures
      var before, after := Members(i.channels, c), Members(JoinedBy(i, u, c).channels, c);
      if |before| >= i.limits[c] then after == before && JoinedBy(i, u, c).connections == i.connections
      else after == before + {u} && |after| <= i.limits[c]
  {
  }
}
