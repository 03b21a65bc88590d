/**
 * The two managers that both record who is in which channel: ChannelManager routes voice,
 * ConnectionManager routes control messages.
 */
module Managers {
  import opened Options

  datatype Handle = Handle(orgId: int, channels: set<int>, udpAddr: Option<int>)

  type Channels = map<int, set<int>>
  type Connections = map<int, Handle>

  function Members(channels: Channels, c: int): set<int> {
    if c in channels then channels[c] else {}
  }

  /** A channel is full when it has a positive limit and at least that many members. */
  predicate IsFull(channels: Channels, limits: map<int, int>, c: int) {
    c in limits && limits[c] > 0 && |Members(channels, c)| >= limits[c]
  }

  /** A join always creates the channel's entry; the user enters unless it is full. */
  function Joined(channels: Channels, limits: map<int, int>, c: int, u: int): Channels {
    channels[c := Members(channels, c) + if IsFull(channels, limits, c) then {} else {u}]
  }

  function Left(channels: Channels, c: int, u: int): Channels {
    if c in channels then channels[c := channels[c] - {u}] else channels
  }

  function LeftAll(channels: Channels, u: int): Channels {
    map c | c in channels :: channels[c] - {u}
  }

  function ChannelsOf(channels: Channels, u: int): set<int> {
    set c | c in channels && u in channels[c]
  }

  /** Who a broadcast to channel c reaches. */
  function Audience(connections: Connections, c: int): set<int> {
    set u | u in connections && c in connections[u].channels
  }

  function WithChannel(connections: Connections, u: int, c: int): Connections {
    if u in connections then connections[u := connections[u].(channels := connections[u].channels + {c})]
    else connections
  }

  function WithoutChannel(connections: Connections, u: int, c: int): Connections {
    if u in connections then connections[u := connections[u].(channels := connections[u].channels - {c})]
    else connections
  }

  function WithAddress(connections: Connections, u: int, addr: int): Connections {
    if u in connections then connections[u := connections[u].(udpAddr := Some(addr))] else connections
  }

  predicate NoDuplicates(s: seq<int>) {
    forall i, j :: 0 <= i < j < |s| ==> s[i] != s[j]
  }

  /** The next item of an iteration, in no particular order. */
  method Pick<T>(items: set<T>) returns (x: T)
    requires items != {}
    ensures x in items
  {
    assert (forall y :: y !in items) ==> items == {};
    x :| x in items;
  }

  lemma AppendNew(s: seq<int>, x: int)
    requires NoDuplicates(s) && x !in s
    ensures NoDuplicates(s + [x])
  {
  }

  /** Collecting a set into a vector, in whatever order the set iterates. */
  method Collect(items: set<int>) returns (v: seq<int>)
    ensures NoDuplicates(v) && forall x :: x in v <==> x in items
  {
    v := [];
    var rest := items;
    while rest != {}
      invariant NoDuplicates(v) && rest <= items
      invariant forall x :: x in v <==> x in items - rest
      decreases |rest|
    {
      var x := Pick(rest);
      AppendNew(v, x);
      v, rest := v + [x], rest - {x};
    }
  }

  class ChannelManager {
    var channels: Channels
    var limits: map<int, int>

    constructor ()
      ensures channels == map[] && limits == map[]
    {
      channels, limits := map[], map[];
    }

    method SetLimit(c: int, maxUsers: int)
      modifies this
      ensures limits == old(limits)[c := maxUsers] && channels == old(channels)
    {
      limits := limits[c := maxUsers];
    }

    method Join(c: int, u: int) returns (ok: bool)
      modifies this
      ensures ok == !IsFull(old(channels), limits, c) && limits == old(limits)
      ensures channels == Joined(old(channels), limits, c, u)
      ensures ok <==> (c in limits && limits[c] > 0 ==> (if c in old(channels) then |old(channels)[c]| else 0) < limits[c])
      ensures channels == old(channels)[c := (if c in old(channels) then old(channels)[c] else {}) + (if ok then {u} else {})]
    {
      if c !in channels { channels := channels[c := {}]; }
      if c in limits {
        var max := limits[c];
        if max > 0 && |channels[c]| >= max {
          assert channels == Joined(old(channels), limits, c, u);
          return false;
        }
      }
      channels := channels[c := channels[c] + {u}];
      return true;
    }

    method Leave(c: int, u: int)
      modifies this`channels
      ensures channels == Left(old(channels), c, u)
      ensures channels.Keys == old(channels).Keys
      ensures forall d :: d in channels ==> channels[d] == if d == c then old(channels)[d] - {u} else old(channels)[d]
    {
      if c in channels {
        channels := channels[c := channels[c] - {u}];
      }
    }

    /** Leaves every channel, visiting them in any order; returns the ones the user was in. */
    method LeaveAll(u: int) returns (left: seq<int>)
      modifies this`channels
      ensures channels == LeftAll(old(channels), u)
      ensures channels.Keys == old(channels).Keys && forall c :: c in channels ==> channels[c] == old(channels)[c] - {u}
      ensures NoDuplicates(left) && forall c :: c in left <==> c in ChannelsOf(old(channels), u)
      ensures forall c :: c in left <==> c in old(channels) && u in old(channels)[c]
    {
      left := [];
      var todo := channels.Keys;
      while todo != {}
        invariant todo <= channels.Keys == old(channels.Keys)
        invariant forall c :: c in channels ==>
                    channels[c] == if c in todo then old(channels)[c] else old(channels)[c] - {u}
        invariant NoDuplicates(left)
        invariant forall c :: c in left <==> c in ChannelsOf(old(channels), u) && c !in todo
        decreases |todo|
      {
        var c := Pick(todo);
        todo := todo - {c};
        if u in channels[c] {
          channels := channels[c := channels[c] - {u}];
          AppendNew(left, c);
          left := left + [c];
        }
      }
      assert channels.Keys == LeftAll(old(channels), u).Keys;
      forall c | c in channels ensures channels[c] == LeftAll(old(channels), u)[c] {
        assert c !in todo;
      }
    }

    method MembersOf(c: int) returns (v: seq<int>)
      ensures NoDuplicates(v) && forall u :: u in v <==> u in Members(channels, c)
      ensures forall u :: u in v <==> c in channels && u in channels[c]
    {
      if c in channels {
        v := Collect(channels[c]);
      } else {
        v := [];
      }
    }

    method RemoveChannel(c: int) returns (evicted: seq<int>)
      modifies this`channels
      ensures channels == old(channels) - {c}
      ensures NoDuplicates(evicted) && forall u :: u in evicted <==> u in Members(old(channels), c)
    {
      evicted := MembersOf(c);
      channels := channels - {c};
    }
  }

  class ConnectionManager {
    var connections: Connections

    constructor ()
      ensures connections == map[]
    {
      connections := map[];
    }

    method Add(u: int, handle: Handle)
      modifies this
      ensures connections == old(connections)[u := handle]
    {
      connections := connections[u := handle];
    }

    method Remove(u: int) returns (handle: Option<Handle>)
      modifies this
      ensures connections == old(connections) - {u} && handle == Lookup(old(connections), u)
    {
      handle := Lookup(connections, u);
      connections := connections - {u};
    }

    method AddChannel(u: int, c: int)
      modifies this
      ensures connections == WithChannel(old(connections), u, c)
      ensures connections.Keys == old(connections).Keys
      ensures forall v :: v in connections ==>
                connections[v] == old(connections)[v].(
                                    channels := old(connections)[v].channels + if v == u then {c} else {})
    {
      if u in connections {
        var handle := connections[u];
        connections := connections[u := handle.(channels := handle.channels + {c})];
      }
    }

    method RemoveChannel(u: int, c: int)
      modifies this
      ensures connections == WithoutChannel(old(connections), u, c)
      ensures connections.Keys == old(connections).Keys
      ensures forall v :: v in connections ==>
                connections[v] == old(connections)[v].(
                                    channels := old(connections)[v].channels - if v == u then {c} else {})
    {
      if u in connections {
        var handle := connections[u];
        connections := connections[u := handle.(channels := handle.channels - {c})];
      }
    }

    method SetUdpAddr(u: int, addr: int)
      modifies this
      ensures connections == WithAddress(old(connections), u, addr)
      ensures connections.Keys == old(connections).Keys
      ensures forall v :: v in connections ==>
                connections[v] == if v == u then old(connections)[v].(udpAddr := Some(addr)) else old(connections)[v]
    {
      if u in connections {
        connections := connections[u := connections[u].(udpAddr := Some(addr))];
      }
    }

    /** Sends to every connection in the channel but the excluded one, each once; returns the receivers. */
    method BroadcastToChannel(c: int, exclude: Option<int>) returns (receivers: seq<int>)
      ensures NoDuplicates(receivers)
      ensures forall u :: u in receivers <==> u in Audience(connections, c) && exclude != Some(u)
      ensures forall u :: u in receivers <==> u in connections && c in connections[u].channels && exclude != Some(u)
    {
      receivers := [];
      var todo := connections.Keys;
      while todo != {}
        invariant todo <= connections.Keys && NoDuplicates(receivers)
        invariant forall u :: u in receivers <==> u in Audience(connections, c) && exclude != Some(u) && u !in todo
        decreases |todo|
      {
        var u := Pick(todo);
        todo := todo - {u};
        if c in connections[u].channels {
          if exclude != Some(u) {
            AppendNew(receivers, u);
            receivers := receivers + [u];
          }
        }
      }
    }

    method UsersInChannel(c: int) returns (users: seq<int>)
      ensures NoDuplicates(users) && forall u :: u in users <==> u in Audience(connections, c)
      ensures forall u :: u in users <==> u in connections && c in connections[u].channels
    {
      users := [];
      var todo := connections.Keys;
      while todo != {}
        invariant todo <= connections.Keys && NoDuplicates(users)
        invariant forall u :: u in users <==> u in Audience(connections, c) && u !in todo
        decreases |todo|
      {
        var u := Pick(todo);
        todo := todo - {u};
        if c in connections[u].channels {
          AppendNew(users, u);
          users := users + [u];
        }
      }
    }
  }
}
