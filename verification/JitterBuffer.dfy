/** The per-source jitter buffer: ordered playout, loss signalling, eviction. */
module JitterBuffers {
  import opened Bits
  import opened Options

  const MAX_BUFFERED_FRAMES := 50

  datatype Frame = Frame(sequence: u64, timestamp: u64, payload: seq<byte>)

  /** m_frames, m_nextSequence, m_started and m_initialBufferFrames. */
  datatype Buffer = Buffer(frames: map<u64, Frame>, next: u64, started: bool, initial: int)

  /** The whole frames of 20 ms in the delay, at least one. C++ integer division truncates toward zero. */
  function InitialFrames(targetDelayMs: int): (n: int)
    ensures n >= 1
    ensures targetDelayMs >= 20 ==> 20 * n <= targetDelayMs < 20 * (n + 1)
    ensures targetDelayMs < 20 ==> n == 1
  {
    var q := if targetDelayMs >= 0 then targetDelayMs / 20 else -((-targetDelayMs) / 20);
    if q < 1 then 1 else q
  }

  predicate IsMin(m: map<u64, Frame>, k: u64) {
    k in m && forall j :: j in m ==> k <= j
  }

  predicate IsMax(m: map<u64, Frame>, k: u64) {
    k in m && forall j :: j in m ==> j <= k
  }

  lemma {:induction false} MinExists(keys: set<u64>) returns (k: u64)
    requires keys != {}
    ensures k in keys && forall j :: j in keys ==> k <= j
    decreases |keys|
  {
    var k0 :| k0 in keys;
    var rest := keys - {k0};
    assert keys == rest + {k0};
    k := k0;
    if rest != {} {
      var r := MinExists(rest);
      if r < k0 { k := r; }
    }
  }

  lemma {:induction false} MaxExists(keys: set<u64>) returns (k: u64)
    requires keys != {}
    ensures k in keys && forall j :: j in keys ==> j <= k
    decreases |keys|
  {
    var k0 :| k0 in keys;
    var rest := keys - {k0};
    assert keys == rest + {k0};
    k := k0;
    if rest != {} {
      var r := MaxExists(rest);
      if r > k0 { k := r; }
    }
  }

  lemma NonEmptyHasMin(m: map<u64, Frame>)
    requires m != map[]
    ensures exists k :: IsMin(m, k)
  {
    assert m.Keys != {};
    var k := MinExists(m.Keys);
    assert IsMin(m, k);
  }

  /** The first key of the ordered map. */
  function FirstKey(m: map<u64, Frame>): (k: u64)
    requires m != map[]
    ensures IsMin(m, k)
  {
    NonEmptyHasMin(m);
    var k :| IsMin(m, k);
    k
  }

  function Fresh(initial: int): Buffer {
    Buffer(map[], 0, false, initial)
  }

  /** The map after making room: the oldest frame goes when 50 are buffered. */
  function Evicted(m: map<u64, Frame>): map<u64, Frame> {
    if |m| >= MAX_BUFFERED_FRAMES then m - {FirstKey(m)} else m
  }

  predicate IsLate(b: Buffer, sequence: u64) {
    b.started && sequence < b.next
  }

  function Pushed(b: Buffer, f: Frame): Buffer {
    if IsLate(b, f.sequence) then b
    else b.(frames := Evicted(b.frames)[f.sequence := f])
  }

  /** The state in which a pop looks for its frame: the first pop with enough frames starts playout. */
  function Started(b: Buffer): Buffer {
    if b.started || |b.frames| < b.initial || b.frames == map[] then b
    else b.(started := true, next := FirstKey(b.frames))
  }

  /** A pop: the new state and what it returns. An empty payload signals a lost frame. */
  function Popped(b: Buffer): (Buffer, Option<Frame>) {
    var s := Started(b);
    if !s.started then (s, None)
    else if s.next in s.frames then
      (s.(frames := s.frames - {s.next}, next := Wrap(s.next + 1)), Some(s.frames[s.next]))
    else if s.frames != map[] && FirstKey(s.frames) > s.next then
      (s.(next := Wrap(s.next + 1)), Some(Frame(s.next, 0, [])))
    else (s, None)
  }

  /** The buffer as the source keeps it, updated in place. */
  class JitterBuffer {
    var frames: map<u64, Frame>
    var next: u64
    var started: bool
    const initial: int

    function State(): Buffer
      reads this
    {
      Buffer(frames, next, started, initial)
    }

    constructor (targetDelayMs: int)
      ensures State() == Fresh(InitialFrames(targetDelayMs))
    {
      frames, next, started := map[], 0, false;
      initial := InitialFrames(targetDelayMs);
    }

    method Push(sequence: u64, timestamp: u64, payload: seq<byte>)
      modifies this
      ensures State() == Pushed(old(State()), Frame(sequence, timestamp, payload))
    {
      if started && sequence < next { return; }
      if |frames| >= MAX_BUFFERED_FRAMES {
        frames := frames - {FirstKey(frames)};
      }
      frames := frames[sequence := Frame(sequence, timestamp, payload)];
    }

    method Pop() returns (r: Option<Frame>)
      requires initial >= 1
      modifies this
      ensures (State(), r) == Popped(old(State()))
    {
      if !started {
        if |frames| < initial { return None; }
        started := true;
        next := FirstKey(frames);
      }
      if next in frames {
        var frame := frames[next];
        frames := frames - {next};
        next := Wrap(next + 1);
        return Some(frame);
      }
      if frames != map[] && FirstKey(frames) > next {
        var plc := Frame(next, 0, []);
        next := Wrap(next + 1);
        return Some(plc);
      }
      return None;
    }

    method Reset()
      modifies this
      ensures State() == Fresh(initial) && frames == map[] && next == 0 && !started
    {
      frames, next, started := map[], 0, false;
    }
  }

  // ---- Invariant ----

  /** Once started, no buffered frame is behind the playout point; frames sit at their own key. */
  ghost predicate Inv(b: Buffer) {
    && b.initial >= 1
    && |b.frames| <= MAX_BUFFERED_FRAMES
    && (forall k :: k in b.frames ==> b.frames[k].sequence == k)
    && (b.started ==> forall k :: k in b.frames ==> b.next <= k)
  }

  lemma PushKeepsInv(b: Buffer, f: Frame)
    requires Inv(b)
    ensures Inv(Pushed(b, f))
  {
    var m := Evicted(b.frames);
    RemoveSize(b.frames);
    assert |m[f.sequence := f]| <= |m| + 1 by {
      assert m[f.sequence := f].Keys == m.Keys + {f.sequence};
    }
  }

  lemma RemoveSize(m: map<u64, Frame>)
    ensures |m| >= MAX_BUFFERED_FRAMES ==> |Evicted(m)| == |m| - 1
  {
    if |m| >= MAX_BUFFERED_FRAMES {
      assert Evicted(m).Keys == m.Keys - {FirstKey(m)};
    }
  }

  lemma PopKeepsInv(b: Buffer)
    requires Inv(b)
    ensures Inv(Popped(b).0)
  {
    var s := Started(b);
    if s.started && s.next in s.frames {
      assert (s.frames - {s.next}).Keys == s.frames.Keys - {s.next};
    }
  }

  /** What a pop leaves was buffered, and so was what it returns, unless it signals a loss. */
  lemma PopTakesFromBuffer(b: Buffer)
    ensures forall k :: k in Popped(b).0.frames ==> k in b.frames && Popped(b).0.frames[k] == b.frames[k]
    ensures
      var r := Popped(b).1;
      r.Some? && r.value.payload != [] ==> r.value in b.frames.Values
  {
    assert Started(b).frames == b.frames;
  }

  // ---- Whole runs ----

  datatype Op = Push(frame: Frame) | Pop

  function After(b: Buffer, ops: seq<Op>): Buffer
    decreases |ops|
  {
    if ops == [] then b
    else match ops[0]
      case Push(f) => After(Pushed(b, f), ops[1..])
      case Pop => After(Popped(b).0, ops[1..])
  }

  /** The frames returned by the pops of a run, in order. */
  function Output(b: Buffer, ops: seq<Op>): seq<Frame>
    decreases |ops|
  {
    if ops == [] then []
    else match ops[0]
      case Push(f) => Output(Pushed(b, f), ops[1..])
      case Pop =>
        var (b', r) := Popped(b);
        (if r.Some? then [r.value] else []) + Output(b', ops[1..])
  }

  lemma {:induction false} RunKeepsInv(b: Buffer, ops: seq<Op>)
    requires Inv(b)
    ensures Inv(After(b, ops))
    decreases |ops|
  {
    if ops != [] {
      match ops[0]
      case Push(f) => PushKeepsInv(b, f); RunKeepsInv(Pushed(b, f), ops[1..]);
      case Pop => PopKeepsInv(b); RunKeepsInv(Popped(b).0, ops[1..]);
    }
  }

  /** A pop of a started buffer returns the frame at `next` and advances, or changes nothing. */
  lemma StartedPop(b: Buffer)
    requires Inv(b) && b.started
    ensures
      var (b', r) := Popped(b);
      && (r.None? <==> b.frames == map[])
      && (r.None? ==> b' == b)
      && (r.Some? ==>
            && r.value == (if b.next in b.frames then b.frames[b.next] else Frame(b.next, 0, []))
            && b' == b.(frames := b.frames - {b.next}, next := Wrap(b.next + 1)))
  {
    if b.next !in b.frames {
      assert b.frames - {b.next} == b.frames;
    }
  }

  lemma OutputOfPush(b: Buffer, f: Frame, ops: seq<Op>)
    ensures Output(b, [Push(f)] + ops) == Output(Pushed(b, f), ops)
    ensures After(b, [Push(f)] + ops) == After(Pushed(b, f), ops)
  {
    assert ([Push(f)] + ops)[1..] == ops;
  }

  lemma OutputOfPop(b: Buffer, ops: seq<Op>)
    ensures Output(b, [Pop] + ops) ==
            (if Popped(b).1.Some? then [Popped(b).1.value] else []) + Output(Popped(b).0, ops)
    ensures After(b, [Pop] + ops) == After(Popped(b).0, ops)
  {
    assert ([Pop] + ops)[1..] == ops;
  }

  /** out carries the sequence numbers s0, s0 + 1, s0 + 2, ... on 64 bits. */
  ghost predicate ConsecutiveFrom(out: seq<Frame>, s0: u64) {
    forall n :: 0 <= n < |out| ==> out[n].sequence == Wrap(s0 + n)
  }

  lemma ConsecutiveCons(f: Frame, out: seq<Frame>)
    requires ConsecutiveFrom(out, Wrap(f.sequence + 1))
    ensures ConsecutiveFrom([f] + out, f.sequence)
  {
    forall n | 0 < n <= |out| ensures ([f] + out)[n].sequence == Wrap(f.sequence + n) {
      assert out[n - 1].sequence == Wrap(Wrap(f.sequence + 1) + (n - 1));
      WrapStep(f.sequence + 1, n - 1);
    }
  }

  lemma {:induction false} StartedOutputIsConsecutive(b: Buffer, ops: seq<Op>)
    requires Inv(b) && b.started
    ensures ConsecutiveFrom(Output(b, ops), b.next)
    decreases |ops|
  {
    if ops != [] {
      var rest := ops[1..];
      assert ops == [ops[0]] + rest;
      match ops[0]
      case Push(f) =>
        OutputOfPush(b, f, rest);
        PushKeepsInv(b, f);
        StartedOutputIsConsecutive(Pushed(b, f), rest);
      case Pop =>
        OutputOfPop(b, rest);
        PopKeepsInv(b);
        StartedPop(b);
        StartedOutputIsConsecutive(Popped(b).0, rest);
        if Popped(b).1.Some? {
          ConsecutiveCons(Popped(b).1.value, Output(Popped(b).0, rest));
        }
    }
  }

  /**
   * Whole-run ordering. Between resets the returned sequence numbers are s0, s0 + 1, s0 + 2, ...
   * with no repeat and no skip, whatever is pushed late, twice or out of order, and whatever is evicted.
   */
  lemma {:induction false} OutputIsConsecutive(b: Buffer, ops: seq<Op>)
    requires Inv(b)
    ensures exists s0 :: ConsecutiveFrom(Output(b, ops), s0)
    decreases |ops|
  {
    if ops == [] {
      assert ConsecutiveFrom(Output(b, ops), 0);
    } else if b.started {
      StartedOutputIsConsecutive(b, ops);
    } else {
      var rest := ops[1..];
      assert ops == [ops[0]] + rest;
      match ops[0]
      case Push(f) =>
        OutputOfPush(b, f, rest);
        PushKeepsInv(b, f);
        OutputIsConsecutive(Pushed(b, f), rest);
      case Pop =>
        var s := Started(b);
        StartedSame(b, rest);
        if s.started {
          StartedOutputIsConsecutive(s, ops);
        } else {
          OutputIsConsecutive(b, rest);
        }
    }
  }

  lemma PoppedWhenStarted(b: Buffer)
    ensures Popped(Started(b)) == Popped(b)
    ensures !Started(b).started ==> Popped(b) == (b, None)
  {
    assert Started(Started(b)) == Started(b);
  }

  lemma StartedKeepsInv(b: Buffer)
    requires Inv(b)
    ensures Inv(Started(b))
  {
  }

  /** A pop behaves as if playout had been started just before it, or waits. */
  lemma StartedSame(b: Buffer, rest: seq<Op>)
    requires Inv(b)
    ensures Output(b, [Pop] + rest) == Output(Started(b), [Pop] + rest)
    ensures !Started(b).started ==> Output(b, [Pop] + rest) == Output(b, rest)
    ensures Inv(Started(b))
  {
    StartedKeepsInv(b);
    PoppedWhenStarted(b);
    OutputOfPop(b, rest);
    OutputOfPop(Started(b), rest);
  }

  // ---- Conservation ----

  /** Where the pushed frames of a run have gone so far. */
  datatype Ledger = Ledger(
    late: multiset<Frame>, overwritten: multiset<Frame>, evicted: multiset<Frame>, returned: multiset<Frame>)
  {
    ghost function Total(): multiset<Frame> { late + overwritten + evicted + returned }
  }

  ghost function AccountPush(l: Ledger, b: Buffer, f: Frame): Ledger {
    if IsLate(b, f.sequence) then l.(late := l.late + multiset{f})
    else
      var l1 := if |b.frames| < MAX_BUFFERED_FRAMES then l
                else l.(evicted := l.evicted + multiset{b.frames[FirstKey(b.frames)]});
      var m := Evicted(b.frames);
      if f.sequence in m then l1.(overwritten := l1.overwritten + multiset{m[f.sequence]}) else l1
  }

  /** Only a frame that was buffered counts as returned: a loss signal is not a pushed frame. */
  ghost function AccountPop(l: Ledger, b: Buffer): Ledger {
    var s := Started(b);
    if s.started && s.next in s.frames then l.(returned := l.returned + multiset{s.frames[s.next]}) else l
  }

  ghost function Account(l: Ledger, b: Buffer, ops: seq<Op>): Ledger
    decreases |ops|
  {
    if ops == [] then l
    else match ops[0]
      case Push(f) => Account(AccountPush(l, b, f), Pushed(b, f), ops[1..])
      case Pop => Account(AccountPop(l, b), Popped(b).0, ops[1..])
  }

  ghost function AllPushed(ops: seq<Op>): multiset<Frame>
    decreases |ops|
  {
    if ops == [] then multiset{}
    else (if ops[0].Push? then multiset{ops[0].frame} else multiset{}) + AllPushed(ops[1..])
  }

  ghost function InBuffer(m: map<u64, Frame>): multiset<Frame> {
    multiset(m.Values)
  }

  ghost predicate Keyed(m: map<u64, Frame>) {
    forall k :: k in m ==> m[k].sequence == k
  }

  lemma ValuesOfInsert(m: map<u64, Frame>, f: Frame)
    requires Keyed(m) && f.sequence !in m
    ensures f !in m.Values && m[f.sequence := f].Values == m.Values + {f}
  {
    var m' := m[f.sequence := f];
    assert m'[f.sequence] == f;
    forall g | g in m.Values ensures g in m'.Values {
      assert m'[g.sequence] == g;
    }
  }

  lemma MultisetOfInsert(s: set<Frame>, f: Frame)
    requires f !in s
    ensures multiset(s + {f}) == multiset(s) + multiset{f}
  {
  }

  lemma InsertFrame(m: map<u64, Frame>, f: Frame)
    requires Keyed(m) && f.sequence !in m
    ensures InBuffer(m[f.sequence := f]) == InBuffer(m) + multiset{f}
  {
    ValuesOfInsert(m, f);
    MultisetOfInsert(m.Values, f);
  }

  lemma RemoveFrame(m: map<u64, Frame>, k: u64)
    requires Keyed(m) && k in m
    ensures InBuffer(m) == InBuffer(m - {k}) + multiset{m[k]}
  {
    var m' := m - {k};
    assert m'[k := m[k]] == m;
    InsertFrame(m', m[k]);
  }

  lemma ReplaceFrame(m: map<u64, Frame>, f: Frame)
    requires Keyed(m)
    ensures InBuffer(m[f.sequence := f]) + (if f.sequence in m then multiset{m[f.sequence]} else multiset{})
         == InBuffer(m) + multiset{f}
  {
    if f.sequence in m {
      RemoveFrame(m, f.sequence);
      InsertFrame(m - {f.sequence}, f);
      assert (m - {f.sequence})[f.sequence := f] == m[f.sequence := f];
    } else {
      InsertFrame(m, f);
    }
  }

  /** What a push that is not late displaces: the evicted frame and the one it overwrites. */
  ghost function Displaced(b: Buffer, f: Frame): (multiset<Frame>, multiset<Frame>) {
    var m := Evicted(b.frames);
    (if |b.frames| >= MAX_BUFFERED_FRAMES then multiset{b.frames[FirstKey(b.frames)]} else multiset{},
     if f.sequence in m then multiset{m[f.sequence]} else multiset{})
  }

  lemma AccountOfPush(l: Ledger, b: Buffer, f: Frame)
    requires !IsLate(b, f.sequence)
    ensures AccountPush(l, b, f).Total() == l.Total() + Displaced(b, f).0 + Displaced(b, f).1
  {
  }

  lemma Combine<T>(d: multiset<T>, e: multiset<T>, after: multiset<T>, m: multiset<T>, o: multiset<T>, f: multiset<T>)
    requires m + d == o && after + e == m + f
    ensures d + e + after == o + f
  {
    assert d + e + after == (after + e) + d;
    assert m + f + d == (m + d) + f;
  }

  lemma PushBalances(b: Buffer, f: Frame)
    requires Inv(b) && !IsLate(b, f.sequence)
    ensures Displaced(b, f).0 + Displaced(b, f).1 + InBuffer(Pushed(b, f).frames) == InBuffer(b.frames) + multiset{f}
  {
    var m := Evicted(b.frames);
    if |b.frames| >= MAX_BUFFERED_FRAMES { RemoveFrame(b.frames, FirstKey(b.frames)); }
    ReplaceFrame(m, f);
    Combine(Displaced(b, f).0, Displaced(b, f).1, InBuffer(Pushed(b, f).frames), InBuffer(m), InBuffer(b.frames), multiset{f});
  }

  lemma Regroup<T>(t: multiset<T>, a: multiset<T>, b: multiset<T>, n: multiset<T>, o: multiset<T>, f: multiset<T>)
    requires a + b + n == o + f
    ensures t + a + b + n == t + o + f
  {
    assert t + a + b + n == t + (a + b + n);
  }

  lemma PushConserves(l: Ledger, b: Buffer, f: Frame)
    requires Inv(b)
    ensures AccountPush(l, b, f).Total() + InBuffer(Pushed(b, f).frames)
         == l.Total() + InBuffer(b.frames) + multiset{f}
  {
    if !IsLate(b, f.sequence) {
      AccountOfPush(l, b, f);
      PushBalances(b, f);
      Regroup(l.Total(), Displaced(b, f).0, Displaced(b, f).1, InBuffer(Pushed(b, f).frames),
              InBuffer(b.frames), multiset{f});
    }
  }

  lemma PopConserves(l: Ledger, b: Buffer)
    requires Inv(b)
    ensures AccountPop(l, b).Total() + InBuffer(Popped(b).0.frames) == l.Total() + InBuffer(b.frames)
  {
    var s := Started(b);
    if s.started && s.next in s.frames { RemoveFrame(s.frames, s.next); }
  }

  lemma {:induction false} RunConserves(l: Ledger, b: Buffer, ops: seq<Op>)
    requires Inv(b)
    ensures Account(l, b, ops).Total() + InBuffer(After(b, ops).frames)
         == l.Total() + InBuffer(b.frames) + AllPushed(ops)
    decreases |ops|
  {
    if ops != [] {
      match ops[0]
      case Push(f) =>
        PushKeepsInv(b, f);
        PushConserves(l, b, f);
        RunConserves(AccountPush(l, b, f), Pushed(b, f), ops[1..]);
      case Pop =>
        PopKeepsInv(b);
        PopConserves(l, b);
        RunConserves(AccountPop(l, b), Popped(b).0, ops[1..]);
    }
  }

  /**
   * Conservation. After any run from reset, every pushed frame is in exactly one place: dropped as
   * late, overwritten by a duplicate, evicted, returned, or still buffered; and at most 50 are buffered.
   * When no pushed frame is empty, the returned ones are exactly those the pops gave, loss signals apart.
   */
  lemma EveryPushIsAccountedOnce(initial: int, ops: seq<Op>)
    requires initial >= 1
    ensures
      var l := Account(EMPTY_LEDGER, Fresh(initial), ops);
      && l.late + l.overwritten + l.evicted + l.returned + InBuffer(After(Fresh(initial), ops).frames)
         == AllPushed(ops)
      && |After(Fresh(initial), ops).frames| <= MAX_BUFFERED_FRAMES
      && (PushesNonEmpty(ops) ==> l.returned == multiset(Heard(Output(Fresh(initial), ops))))
  {
    RunConserves(EMPTY_LEDGER, Fresh(initial), ops);
    RunKeepsInv(Fresh(initial), ops);
    if PushesNonEmpty(ops) { ReturnedAreHeard(EMPTY_LEDGER, Fresh(initial), ops); }
  }

  ghost const EMPTY_LEDGER := Ledger(multiset{}, multiset{}, multiset{}, multiset{})

  /** Loss signals apart, the frames a run returns. */
  function Heard(out: seq<Frame>): seq<Frame> {
    if out == [] then [] else (if out[0].payload == [] then [] else [out[0]]) + Heard(out[1..])
  }

  ghost predicate NonEmpty(m: map<u64, Frame>) {
    forall k :: k in m ==> m[k].payload != []
  }

  ghost predicate PushesNonEmpty(ops: seq<Op>) {
    forall i :: 0 <= i < |ops| && ops[i].Push? ==> ops[i].frame.payload != []
  }

  lemma HeardCons(f: Frame, out: seq<Frame>)
    ensures multiset(Heard([f] + out)) == multiset(if f.payload == [] then [] else [f]) + multiset(Heard(out))
  {
    assert ([f] + out)[1..] == out;
  }

  /** A pop returns what the account says, as a frame to be heard, or nothing or a loss signal. */
  lemma PopIsAccounted(l: Ledger, b: Buffer, rest: seq<Frame>)
    requires NonEmpty(b.frames)
    ensures NonEmpty(Popped(b).0.frames)
    ensures
      var r := Popped(b).1;
      l.returned + multiset(Heard((if r.Some? then [r.value] else []) + rest))
      == AccountPop(l, b).returned + multiset(Heard(rest))
  {
    var r := Popped(b).1;
    if r.Some? { HeardCons(r.value, rest); } else { assert [] + rest == rest; }
  }

  /** The frames accounted as returned are exactly the frames the run returns, loss signals apart. */
  lemma {:induction false} ReturnedAreHeard(l: Ledger, b: Buffer, ops: seq<Op>)
    requires NonEmpty(b.frames) && PushesNonEmpty(ops)
    ensures Account(l, b, ops).returned == l.returned + multiset(Heard(Output(b, ops)))
    decreases |ops|
  {
    if ops != [] {
      match ops[0]
      case Push(f) =>
        ReturnedAreHeard(AccountPush(l, b, f), Pushed(b, f), ops[1..]);
      case Pop =>
        PopIsAccounted(l, b, Output(Popped(b).0, ops[1..]));
        ReturnedAreHeard(AccountPop(l, b), Popped(b).0, ops[1..]);
    }
  }

  // ---- Draining ----

  function Pops(n: nat): seq<Op> {
    seq(n, i => Pop)
  }

  /** The frames with keys lo, lo + 1, ..., lo + n - 1, an empty one for each missing key. */
  function Playout(m: map<u64, Frame>, lo: u64, n: nat): (out: seq<Frame>)
    requires lo + n <= TWO64
    ensures |out| == n
    ensures forall i :: 0 <= i < n ==> out[i] == if lo + i in m then m[lo + i] else Frame(lo + i, 0, [])
    decreases n
  {
    if n == 0 then []
    else
      var rest := Playout(m, if n == 1 then lo else lo + 1, n - 1);
      [if lo in m then m[lo] else Frame(lo, 0, [])] + rest
  }

  lemma PlayoutCons(m: map<u64, Frame>, lo: u64, n: nat)
    requires 1 < n && lo + n <= TWO64
    ensures Playout(m, lo, n) ==
            [if lo in m then m[lo] else Frame(lo, 0, [])] + Playout(m - {lo}, lo + 1, n - 1)
  {
  }

  lemma PlayoutOne(m: map<u64, Frame>, lo: u64)
    ensures Playout(m, lo, 1) == [if lo in m then m[lo] else Frame(lo, 0, [])]
  {
  }

  lemma NothingPopped(b: Buffer)
    ensures Output(b, Pops(0)) == [] && After(b, Pops(0)) == b
  {
    assert Pops(0) == [];
  }

  /** One pop of a draining buffer. */
  lemma DrainStep(b: Buffer, max: u64)
    requires Inv(b) && b.started && IsMax(b.frames, max)
    ensures b.next <= max
    ensures
      var (b', r) := Popped(b);
      && r == Some(if b.next in b.frames then b.frames[b.next] else Frame(b.next, 0, []))
      && b'.frames == b.frames - {b.next} && b'.started && Inv(b') && b'.next == Wrap(b.next + 1)
      && (b.next < max ==> b'.next == b.next + 1 && IsMax(b'.frames, max)) && (b.next == max ==> b'.frames == map[])
  {
    StartedPop(b);
    PopKeepsInv(b);
  }

  /** One pop, then n more. */
  lemma PopFirst(b: Buffer, n: nat)
    requires Popped(b).1.Some?
    ensures Output(b, Pops(n + 1)) == [Popped(b).1.value] + Output(Popped(b).0, Pops(n))
    ensures After(b, Pops(n + 1)) == After(Popped(b).0, Pops(n))
  {
    assert Pops(n + 1) == [Pop] + Pops(n);
    OutputOfPop(b, Pops(n));
  }

  /** The first of n + 1 draining pops. */
  lemma DrainOne(b: Buffer, max: u64, n: nat) returns (b': Buffer, f: Frame)
    requires Inv(b) && b.started && IsMax(b.frames, max)
    ensures Output(b, Pops(n + 1)) == [f] + Output(b', Pops(n)) && After(b, Pops(n + 1)) == After(b', Pops(n))
    ensures f == (if b.next in b.frames then b.frames[b.next] else Frame(b.next, 0, []))
    ensures Inv(b') && b'.started && b'.frames == b.frames - {b.next}
    ensures b.next <= max && (b.next == max ==> b'.frames == map[])
    ensures b.next < max ==> b'.next == b.next + 1 && IsMax(b'.frames, max)
  {
    DrainStep(b, max);
    PopFirst(b, n);
    b', f := Popped(b).0, Popped(b).1.value;
  }

  lemma DrainsLast(b: Buffer, max: u64)
    requires Inv(b) && b.started && IsMax(b.frames, max) && b.next == max
    ensures Output(b, Pops(1)) == Playout(b.frames, b.next, 1) && After(b, Pops(1)).frames == map[]
  {
    var b', f := DrainOne(b, max, 0);
    NothingPopped(b');
    PlayoutOne(b.frames, b.next);
  }

  /** One pop in front of a drain. */
  lemma PrependPlayed(m: map<u64, Frame>, lo: u64, n: nat, f: Frame, rest: seq<Frame>)
    requires n > 0 && lo + n + 1 <= TWO64
    requires f == (if lo in m then m[lo] else Frame(lo, 0, [])) && rest == Playout(m - {lo}, lo + 1, n)
    ensures [f] + rest == Playout(m, lo, n + 1)
  {
    PlayoutCons(m, lo, n + 1);
  }

  lemma {:induction false} DrainsInSteps(b: Buffer, max: u64, n: nat)
    requires Inv(b) && b.started && IsMax(b.frames, max) && b.next + n == max
    ensures Output(b, Pops(n + 1)) == Playout(b.frames, b.next, n + 1)
    ensures After(b, Pops(n + 1)).frames == map[]
    decreases n
  {
    if n == 0 {
      DrainsLast(b, max);
    } else {
      var b', f := DrainOne(b, max, n);
      DrainsInSteps(b', max, n - 1);
      PrependPlayed(b.frames, b.next, n, f, Output(b', Pops(n)));
    }
  }

  /** Draining a started buffer takes exactly max - next + 1 pops, one frame each, and empties it. */
  lemma DrainsInOrder(b: Buffer, max: u64)
    requires Inv(b) && b.started && IsMax(b.frames, max)
    ensures b.next <= max
    ensures Output(b, Pops(max - b.next + 1)) == Playout(b.frames, b.next, max - b.next + 1)
    ensures After(b, Pops(max - b.next + 1)).frames == map[]
  {
    assert b.next <= max;
    DrainsInSteps(b, max, max - b.next);
  }

  /** A started buffer returns nothing exactly when it is empty, and an unstarted one while it fills. */
  lemma NothingIffEmpty(b: Buffer)
    requires Inv(b)
    ensures Popped(b).1.None? <==> if b.started then b.frames == map[] else |b.frames| < b.initial
    ensures Popped(b).1.None? ==> Popped(b).0 == b
  {
    if Started(b).started { StartedPop(Started(b)); }
  }

  // ---- A sender that begins again behind the playout point ----

  /** Nothing pushed by ops reaches the playout point. */
  ghost predicate AllLate(ops: seq<Op>, next: u64) {
    forall i :: 0 <= i < |ops| && ops[i].Push? ==> ops[i].frame.sequence < next
  }

  /** A drained buffer that only gets frames behind its playout point stays as it is and plays nothing. */
  lemma {:induction false} LateFramesAreSilent(b: Buffer, ops: seq<Op>)
    requires Inv(b) && b.started && b.frames == map[] && AllLate(ops, b.next)
    ensures After(b, ops) == b && Output(b, ops) == []
    decreases |ops|
  {
    if ops != [] {
      if ops[0].Pop? { StartedPop(b); }
      LateFramesAreSilent(b, ops[1..]);
    }
  }

  /**
   * A push puts the frame into the buffer at its key unless playout has passed that number, and then changes
   * nothing. Of the other frames, all stay unless 50 are buffered, and then all but the first.
   */
  lemma PushedIff(b: Buffer, f: Frame)
    requires Inv(b)
    ensures f.sequence in Pushed(b, f).frames && Pushed(b, f).frames[f.sequence] == f <==> !(b.started && f.sequence < b.next)
    ensures b.started && f.sequence < b.next ==> Pushed(b, f) == b
    ensures Pushed(b, f).next == b.next && Pushed(b, f).started == b.started && Pushed(b, f).initial == b.initial
    ensures !(b.started && f.sequence < b.next) ==>
              forall k :: k != f.sequence ==>
                            (k in Pushed(b, f).frames <==> k in b.frames && (|b.frames| < 50 || exists j :: j in b.frames && j < k))
    ensures forall k :: k in Pushed(b, f).frames && k != f.sequence ==> Pushed(b, f).frames[k] == b.frames[k]
  {
    if |b.frames| >= MAX_BUFFERED_FRAMES {
      var first := FirstKey(b.frames);
      assert IsMin(b.frames, first);
      forall k | k in b.frames ensures k != first <==> exists j :: j in b.frames && j < k { }
    }
  }

  // ---- Frames that arrive in order ----

  /** The frames of a run's pushes. */
  function Arrivals(ops: seq<Op>): seq<Frame>
    decreases |ops|
  {
    if ops == [] then [] else (if ops[0].Push? then [ops[0].frame] else []) + Arrivals(ops[1..])
  }

  ghost predicate InOrderFrom(fs: seq<Frame>, lo: nat) {
    lo + |fs| <= TWO64 && forall i :: 0 <= i < |fs| ==> fs[i].sequence == lo + i
  }

  /** No push finds 50 frames waiting. */
  predicate HasRoom(b: Buffer, ops: seq<Op>)
    decreases |ops|
  {
    ops == [] ||
    match ops[0]
    case Push(f) => |b.frames| < 50 && HasRoom(Pushed(b, f), ops[1..])
    case Pop => HasRoom(Popped(b).0, ops[1..])
  }

  /** The buffer holds exactly the frames q, numbered lo, lo + 1, ..., and plays them next. */
  ghost predicate Queues(b: Buffer, lo: nat, q: seq<Frame>) {
    && InOrderFrom(q, lo) && |b.frames| == |q| && b.initial >= 1
    && (forall i :: 0 <= i < |q| ==> q[i].sequence in b.frames && b.frames[q[i].sequence] == q[i])
    && (forall k :: k in b.frames ==> lo <= k < lo + |q|)
    && (b.started ==> b.next == Wrap(lo))
  }

  lemma PushQueues(b: Buffer, lo: nat, q: seq<Frame>, f: Frame)
    requires Queues(b, lo, q) && |q| < 50 && InOrderFrom(q + [f], lo)
    ensures Queues(Pushed(b, f), lo, q + [f])
  {
    assert (q + [f])[|q|] == f;
    assert b.frames[f.sequence := f].Keys == b.frames.Keys + {f.sequence};
    forall i | 0 <= i < |q| ensures (q + [f])[i] == q[i] && q[i].sequence == lo + i { }
  }

  /** A pop takes the first of them, or waits for the first pops' worth. */
  lemma PopQueues(b: Buffer, lo: nat, q: seq<Frame>)
    requires Queues(b, lo, q)
    ensures
      var (b', r) := Popped(b);
      if q == [] || (!b.started && |q| < b.initial) then r == None && b' == b
      else r == Some(q[0]) && b'.started && Queues(b', lo + 1, q[1..])
  {
    if q != [] && (b.started || |q| >= b.initial) {
      assert q[0].sequence == lo;
      assert IsMin(b.frames, lo);
      var s := Started(b);
      assert s.frames == b.frames && s.next == lo && s.started;
      var b' := Popped(b).0;
      assert b'.frames.Keys == b.frames.Keys - {q[0].sequence};
      forall i | 0 <= i < |q| - 1 ensures q[1..][i].sequence in b'.frames && b'.frames[q[1..][i].sequence] == q[1..][i] {
        assert q[1..][i] == q[i + 1];
      }
    }
  }

  /** Of the frames `all`, numbered from lo, out has been returned and b holds the others. */
  ghost predicate Kept(b: Buffer, lo: nat, all: seq<Frame>, out: seq<Frame>) {
    out <= all && Queues(b, lo + |out|, all[|out|..])
  }

  lemma KeptAfterFirst(b: Buffer, lo: nat, all: seq<Frame>, out: seq<Frame>)
    requires all != [] && Kept(b, lo + 1, all[1..], out)
    ensures Kept(b, lo, all, [all[0]] + out)
  {
    assert all == [all[0]] + all[1..];
    assert all[|out| + 1..] == all[1..][|out|..];
  }

  lemma ArrivalJoinsQueue(q: seq<Frame>, f: Frame, rest: seq<Frame>, lo: nat)
    requires InOrderFrom(q + ([f] + rest), lo)
    ensures q + ([f] + rest) == q + [f] + rest && InOrderFrom(q + [f], lo)
  {
    var all := q + ([f] + rest);
    assert all == q + [f] + rest;
    forall i | 0 <= i < |q + [f]| ensures (q + [f])[i].sequence == lo + i { assert (q + [f])[i] == all[i]; }
  }

  lemma FirstLeavesQueue(q: seq<Frame>, rest: seq<Frame>, lo: nat)
    requires q != [] && InOrderFrom(q + rest, lo)
    ensures (q + rest)[1..] == q[1..] + rest && InOrderFrom(q[1..] + rest, lo + 1) && (q + rest)[0] == q[0]
  {
    assert (q + rest)[1..] == q[1..] + rest;
    forall i | 0 <= i < |q[1..] + rest| ensures (q[1..] + rest)[i].sequence == lo + 1 + i {
      assert (q[1..] + rest)[i] == (q + rest)[i + 1];
    }
  }

  /**
   * Nothing is lost of a sender whose packets arrive in order. Whatever way pushes and pops alternate, as
   * long as 50 frames never wait, the frames returned are the first of those pushed, each once and in order
   * and without a loss signal, and the buffer holds the others.
   */
  lemma {:induction false} InOrderIsLossless(b: Buffer, lo: nat, q: seq<Frame>, ops: seq<Op>)
    requires Queues(b, lo, q) && InOrderFrom(q + Arrivals(ops), lo) && HasRoom(b, ops)
    ensures Kept(After(b, ops), lo, q + Arrivals(ops), Output(b, ops))
    decreases |ops|
  {
    if ops == [] {
      assert q + [] == q;
    } else if ops[0].Push? {
      ArrivalJoinsQueue(q, ops[0].frame, Arrivals(ops[1..]), lo);
      PushQueues(b, lo, q, ops[0].frame);
      InOrderIsLossless(Pushed(b, ops[0].frame), lo, q + [ops[0].frame], ops[1..]);
    } else {
      assert [] + Arrivals(ops[1..]) == Arrivals(ops[1..]);
      PopQueues(b, lo, q);
      if Popped(b).1.None? {
        assert [] + Output(b, ops[1..]) == Output(b, ops[1..]);
        InOrderIsLossless(b, lo, q, ops[1..]);
      } else {
        FirstLeavesQueue(q, Arrivals(ops[1..]), lo);
        InOrderIsLossless(Popped(b).0, lo + 1, q[1..], ops[1..]);
        KeptAfterFirst(After(b, ops), lo, q + Arrivals(ops), Output(Popped(b).0, ops[1..]));
      }
    }
  }

  /** A tick of the sender and one of the listener for each frame. */
  function PushAndPop(fs: seq<Frame>): seq<Op> {
    if fs == [] then [] else [Push(fs[0]), Pop] + PushAndPop(fs[1..])
  }

  lemma PushThenPop(b: Buffer, lo: nat, f: Frame)
    requires Queues(b, lo, []) && lo < TWO64 && f.sequence == lo && (b.started || b.initial == 1)
    ensures
      var (b', r) := Popped(Pushed(b, f));
      r == Some(f) && b'.started && Queues(b', lo + 1, [])
  {
    var none: seq<Frame> := [];
    assert none + [f] == [f] && [f][1..] == [];
    PushQueues(b, lo, none, f);
    PopQueues(Pushed(b, f), lo, [f]);
  }

  lemma RestInOrder(fs: seq<Frame>, lo: nat)
    requires fs != [] && InOrderFrom(fs, lo)
    ensures lo < TWO64 && fs[0].sequence == lo && InOrderFrom(fs[1..], lo + 1) && [fs[0]] + fs[1..] == fs
  {
    forall i | 0 <= i < |fs| - 1 ensures fs[1..][i].sequence == lo + 1 + i { assert fs[1..][i] == fs[i + 1]; }
  }

  lemma OutputOfBoth(b: Buffer, f: Frame, rest: seq<Op>)
    requires Popped(Pushed(b, f)).1.Some?
    ensures Output(b, [Push(f), Pop] + rest) == [Popped(Pushed(b, f)).1.value] + Output(Popped(Pushed(b, f)).0, rest)
  {
    assert [Push(f), Pop] + rest == [Push(f)] + ([Pop] + rest);
    OutputOfPush(b, f, [Pop] + rest);
    OutputOfPop(Pushed(b, f), rest);
  }

  /** With one frame of delay, as the voice session has it, each frame is played as it arrives. */
  lemma {:induction false} InOrderIsPlayedAtOnce(b: Buffer, lo: nat, fs: seq<Frame>)
    requires Queues(b, lo, []) && InOrderFrom(fs, lo) && (b.started || b.initial == 1)
    ensures Output(b, PushAndPop(fs)) == fs
    decreases |fs|
  {
    if fs != [] {
      RestInOrder(fs, lo);
      PushThenPop(b, lo, fs[0]);
      OutputOfBoth(b, fs[0], PushAndPop(fs[1..]));
      InOrderIsPlayedAtOnce(Popped(Pushed(b, fs[0])).0, lo + 1, fs[1..]);
    }
  }

  // ---- Order independence ----

  function Pushes(fs: seq<Frame>): seq<Op> {
    seq(|fs|, i requires 0 <= i < |fs| => Push(fs[i]))
  }

  ghost predicate DistinctSequences(fs: seq<Frame>) {
    forall i, j :: 0 <= i < j < |fs| ==> fs[i].sequence != fs[j].sequence
  }

  ghost function ByKey(fs: seq<Frame>): map<u64, Frame> {
    if fs == [] then map[] else ByKey(fs[..|fs| - 1])[fs[|fs| - 1].sequence := fs[|fs| - 1]]
  }

  lemma {:induction false} ByKeyFinds(fs: seq<Frame>)
    requires DistinctSequences(fs)
    ensures Keyed(ByKey(fs)) && forall k :: k in ByKey(fs) ==> ByKey(fs)[k] in fs
    ensures forall i :: 0 <= i < |fs| ==> fs[i].sequence in ByKey(fs) && ByKey(fs)[fs[i].sequence] == fs[i]
  {
    if fs != [] { ByKeyFinds(fs[..|fs| - 1]); }
  }

  lemma {:induction false} ByKeySize(fs: seq<Frame>)
    requires DistinctSequences(fs)
    ensures |ByKey(fs)| == |fs|
  {
    if fs != [] {
      var init, f := fs[..|fs| - 1], fs[|fs| - 1];
      ByKeySize(init);
      ByKeyFinds(init);
      assert f.sequence !in ByKey(init);
      assert ByKey(fs).Keys == ByKey(init).Keys + {f.sequence};
    }
  }

  lemma ByKeyHolds(fs: seq<Frame>)
    requires DistinctSequences(fs)
    ensures |ByKey(fs)| == |fs| && Keyed(ByKey(fs))
    ensures forall k :: k in ByKey(fs) ==> ByKey(fs)[k] in fs
    ensures forall f :: f in fs ==> f.sequence in ByKey(fs) && ByKey(fs)[f.sequence] == f
  {
    ByKeySize(fs);
    ByKeyFinds(fs);
  }

  lemma AfterAppend(b: Buffer, ops: seq<Op>, op: Op)
    ensures After(b, ops + [op]) == match op case Push(f) => Pushed(After(b, ops), f) case Pop => Popped(After(b, ops)).0
    decreases |ops|
  {
    if ops == [] {
      assert ops + [op] == [op];
    } else {
      assert (ops + [op])[1..] == ops[1..] + [op];
      AfterAppend(if ops[0].Push? then Pushed(b, ops[0].frame) else Popped(b).0, ops[1..], op);
    }
  }

  lemma PushIntoRoom(b: Buffer, f: Frame)
    requires !b.started && |b.frames| < MAX_BUFFERED_FRAMES
    ensures Pushed(b, f) == b.(frames := b.frames[f.sequence := f])
  {
  }

  lemma {:induction false} PushAll(initial: int, fs: seq<Frame>)
    requires DistinctSequences(fs) && |fs| <= MAX_BUFFERED_FRAMES
    ensures After(Fresh(initial), Pushes(fs)) == Fresh(initial).(frames := ByKey(fs))
  {
    if fs != [] {
      var init, f := fs[..|fs| - 1], fs[|fs| - 1];
      PushAll(initial, init);
      ByKeySize(init);
      assert Pushes(fs) == Pushes(init) + [Push(f)];
      AfterAppend(Fresh(initial), Pushes(init), Push(f));
      PushIntoRoom(Fresh(initial).(frames := ByKey(init)), f);
    }
  }

  /** Two arrival orders of the same frames leave the same buffer. */
  lemma SameFramesSameBuffer(initial: int, fs: seq<Frame>, gs: seq<Frame>)
    requires DistinctSequences(fs) && |fs| <= MAX_BUFFERED_FRAMES && multiset(fs) == multiset(gs)
    requires DistinctSequences(gs)
    ensures After(Fresh(initial), Pushes(fs)) == After(Fresh(initial), Pushes(gs))
  {
    SameLength(fs, gs);
    PushAll(initial, fs);
    PushAll(initial, gs);
    ByKeyHolds(fs);
    ByKeyHolds(gs);
    forall f ensures f in fs <==> f in gs {
      assert f in multiset(fs) <==> f in multiset(gs);
    }
    assert ByKey(fs) == ByKey(gs) by {
      forall k ensures k in ByKey(fs) <==> k in ByKey(gs) {
        if k in ByKey(fs) { assert ByKey(fs)[k] in gs; }
        if k in ByKey(gs) { assert ByKey(gs)[k] in fs; }
      }
    }
  }

  lemma SameLength<T>(fs: seq<T>, gs: seq<T>)
    requires multiset(fs) == multiset(gs)
    ensures |fs| == |gs|
  {
    assert |multiset(fs)| == |multiset(gs)|;
  }

  /**
   * Order independence. At most 50 frames with distinct sequences, pushed in any order into an
   * unstarted buffer, play out sorted by sequence with one empty frame for each number missing
   * in between; with fewer than the initial number of frames nothing is played.
   */
  lemma PlayoutIsOrderIndependent(initial: int, fs: seq<Frame>, gs: seq<Frame>, max: u64)
    requires initial >= 1 && |fs| <= MAX_BUFFERED_FRAMES && multiset(fs) == multiset(gs)
    requires DistinctSequences(fs) && DistinctSequences(gs) && IsMax(ByKey(fs), max)
    ensures
      var b := Arrived(initial, gs);
      && b.frames == ByKey(fs)
      && (|fs| < initial ==> Popped(b) == (b, None))
      && (|fs| >= initial ==> PlaysSorted(b, max))
  {
    FilledBuffer(initial, fs, gs);
    FilledPlays(Arrived(initial, gs), max);
  }

  /** Pops return the frames from the first key to max, sorted, each missing one as an empty frame. */
  ghost predicate PlaysSorted(b: Buffer, max: u64)
    requires b.frames != map[]
  {
    var lo := FirstKey(b.frames);
    lo <= max && Output(b, Pops(max - lo + 1)) == Playout(b.frames, lo, max - lo + 1)
  }

  lemma FilledPlays(b: Buffer, max: u64)
    requires Inv(b) && !b.started && IsMax(b.frames, max)
    ensures |b.frames| < b.initial ==> Popped(b) == (b, None)
    ensures |b.frames| >= b.initial ==> PlaysSorted(b, max)
  {
    if |b.frames| >= b.initial { PlaysFromFirst(b, max); } else { NothingIffEmpty(b); }
  }

  /** The buffer after frames have arrived in this order. */
  function Arrived(initial: int, gs: seq<Frame>): Buffer {
    After(Fresh(initial), Pushes(gs))
  }

  /** An unstarted buffer holding these frames. */
  ghost function Filled(initial: int, fs: seq<Frame>): Buffer {
    Fresh(initial).(frames := ByKey(fs))
  }

  lemma FilledBuffer(initial: int, fs: seq<Frame>, gs: seq<Frame>)
    requires initial >= 1 && |fs| <= MAX_BUFFERED_FRAMES && multiset(fs) == multiset(gs)
    requires DistinctSequences(fs) && DistinctSequences(gs)
    ensures Arrived(initial, gs) == Filled(initial, fs)
    ensures |Filled(initial, fs).frames| == |fs| && Inv(Filled(initial, fs))
  {
    PushAll(initial, fs);
    SameFramesSameBuffer(initial, fs, gs);
    ByKeyHolds(fs);
  }

  /** The first pop of a filled buffer starts playout at its first key. */
  lemma PlaysFromFirst(b: Buffer, max: u64)
    requires Inv(b) && !b.started && |b.frames| >= b.initial && IsMax(b.frames, max)
    ensures PlaysSorted(b, max)
  {
    var s := Started(b);
    StartedSame(b, Pops(max - s.next));
    assert Pops(max - s.next + 1) == [Pop] + Pops(max - s.next);
    DrainsInOrder(s, max);
  }
}
