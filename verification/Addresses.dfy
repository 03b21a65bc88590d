/**
 * Where voice is sent: each connection's UDP address, as it is learned from the packets that name its
 * user, over whole runs of the connection table and the receive loop.
 */
module Addresses {
  import opened Bits
  import opened Options
  import opened Runs
  import opened Managers
  import opened VoicePath
  import VP = VoicePackets
  import Srtp

  /** `allowed` is the rate limiter's answer. */
  datatype Step =
    | Register(user: int, orgId: int)
    | Remove(user: int)
    | AddChannel(user: int, channel: int)
    | RemoveChannel(user: int, channel: int)
    | Datagram(data: seq<byte>, src: int, allowed: bool)

  /** The user a datagram names, if it gets past the limiter and the parser. */
  function Named(step: Step): Option<int> {
    if step.Datagram? && step.allowed && VP.Parse(step.data).Some?
    then Some(AsI32(VP.Parse(step.data).value.userId)) else None
  }

  function Next(connections: Connections, step: Step): Connections {
    match step
    case Register(u, orgId) => connections[u := Handle(orgId, {}, None)]
    case Remove(u) => connections - {u}
    case AddChannel(u, c) => WithChannel(connections, u, c)
    case RemoveChannel(u, c) => WithoutChannel(connections, u, c)
    case Datagram(_, src, _) => if Named(step).Some? then WithAddress(connections, Named(step).value, src) else connections
  }

  function Stepper(): (Connections, Step) -> Connections {
    (connections, step) => Next(connections, step)
  }

  function Run(steps: seq<Step>): Connections {
    Fold(Stepper(), map[], steps)
  }

  // ---- What the steps say by themselves ----

  /** A packet that names r arrives from addr. */
  predicate NamesFrom(step: Step, r: int, addr: int) {
    && step.Datagram? && step.allowed && VP.Parse(step.data).Some?
    && AsI32(VP.Parse(step.data).value.userId) == r && step.src == addr
  }

  /** r registers, is removed, or is named from elsewhere. */
  predicate Forgets(step: Step, r: int, addr: int) {
    || (step.Register? && step.user == r) || (step.Remove? && step.user == r)
    || (step.Datagram? && NamesFrom(step, r, step.src) && step.src != addr)
  }

  /** r has registered, and has not been removed since. */
  lemma RegisteredIff(steps: seq<Step>, r: int)
    ensures r in Run(steps) <==>
            exists n :: 0 <= n < |steps| && (steps[n].Register? && steps[n].user == r)
                        && forall m :: n < m < |steps| ==> !(steps[m].Remove? && steps[m].user == r)
  {
    var on := (n: nat) => n < |steps| && steps[n].Register? && steps[n].user == r;
    var off := (n: nat) => n < |steps| && steps[n].Remove? && steps[n].user == r;
    var held := (n: nat) => n <= |steps| && r in Run(steps[..n]);
    forall n: nat | n < |steps| ensures held(n + 1) <==> on(n) || (held(n) && !off(n)) {
      FoldPrefix(Stepper(), map[], steps, n);
    }
    assert steps[..0] == [] && steps[..|steps|] == steps;
    LastTurn(held, on, off, |steps|);
    if n: nat :| n < |steps| && on(n) && forall m: nat :: n < m < |steps| ==> !off(m) {
      forall m | n < m < |steps| ensures !(steps[m].Remove? && steps[m].user == r) { assert !off(m); }
    }
    if n :| 0 <= n < |steps| && steps[n].Register? && steps[n].user == r
            && forall m :: n < m < |steps| ==> !(steps[m].Remove? && steps[m].user == r) {
      assert on(n) && forall m: nat :: n < m < |steps| ==> !off(m);
    }
  }

  /** Step n is a packet that names r, then registered, from addr, and the last word on r's address. */
  ghost predicate IsLastSource(steps: seq<Step>, r: int, addr: int, n: nat) {
    && n < |steps| && r in Run(steps[..n]) && NamesFrom(steps[n], r, addr)
    && forall m :: n < m < |steps| ==> !Forgets(steps[m], r, addr)
  }

  lemma AddressStep(connections: Connections, step: Step, r: int, addr: int)
    ensures
      var after := Next(connections, step);
      r in after && after[r].udpAddr == Some(addr) <==>
        || (r in connections && NamesFrom(step, r, addr))
        || (r in connections && connections[r].udpAddr == Some(addr) && !Forgets(step, r, addr))
  {
  }

  /**
   * In every run, a task for r is sent to addr exactly when r has a session and addr is the source of the
   * last packet past limiter and parser that named r since r registered.
   */
  lemma SentToLastSourceIff(sessions: map<int, Srtp.Entry>, steps: seq<Step>, r: int, addr: int)
    ensures Destination(sessions, Run(steps), r) == Some(addr) <==>
            r in sessions && exists n: nat :: IsLastSource(steps, r, addr, n)
  {
    var on := (n: nat) => n < |steps| && r in Run(steps[..n]) && NamesFrom(steps[n], r, addr);
    var off := (n: nat) => n < |steps| && Forgets(steps[n], r, addr);
    var held := (n: nat) => n <= |steps| && r in Run(steps[..n]) && Run(steps[..n])[r].udpAddr == Some(addr);
    forall n: nat | n < |steps| ensures held(n + 1) <==> on(n) || (held(n) && !off(n)) {
      FoldPrefix(Stepper(), map[], steps, n);
      AddressStep(Run(steps[..n]), steps[n], r, addr);
    }
    assert steps[..0] == [] && steps[..|steps|] == steps;
    LastTurn(held, on, off, |steps|);
    if n: nat :| n < |steps| && on(n) && forall m: nat :: n < m < |steps| ==> !off(m) {
      forall m | n < m < |steps| ensures !Forgets(steps[m], r, addr) { assert !off(m); }
      assert IsLastSource(steps, r, addr, n);
    }
    if n: nat :| IsLastSource(steps, r, addr, n) {
      assert on(n) && forall m: nat :: n < m < |steps| ==> !off(m);
    }
  }
}
