/**
 * The ring buffer under concurrency: one producer and one consumer whose atomic steps interleave
 * in any order. A write loads the read index, copies item by item, then publishes the write index;
 * a read loads the write index, copies item by item, then publishes the read index.
 */
module SpscProtocol {
  import opened Bits
  import opened RingBuffers
  import opened Runs

  datatype Producer<T> = PIdle | PCopying(items: seq<T>, done: nat)
  datatype Consumer<T> = CIdle | CCopying(count: nat, got: seq<T>)

  /** `written` and `taken` record the published writes and the completed reads. */
  datatype State<T> = State(
    log2: nat, buf: seq<T>, readIdx: u64, writeIdx: u64,
    producer: Producer<T>, consumer: Consumer<T>,
    written: seq<T>, taken: seq<T>)
  {
    function Cap(): nat { Pow2(log2) }
  }

  datatype Step<T> =
    | BeginWrite(src: seq<T>) | CopyOneIn | PublishWrite
    | BeginRead(want: nat) | CopyOneOut | PublishRead

  /** One atomic step; a step whose thread is not at that point of its code changes nothing. */
  function Next<T>(s: State<T>, step: Step<T>): State<T> {
    match step
    case BeginWrite(src) =>
      if !s.producer.PIdle? then s
      else
        var avail := Wrap(s.Cap() - Wrap(s.writeIdx - s.readIdx));
        s.(producer := PCopying(src[..Min(|src|, avail)], 0))
    case CopyOneIn =>
      if !WritesSlot(s) then s
      else
        var i := s.producer.done;
        s.(buf := s.buf[WriteSlot(s) := s.producer.items[i]],
           producer := PCopying(s.producer.items, i + 1))
    case PublishWrite =>
      if s.producer.PCopying? && s.producer.done >= |s.producer.items| then
        s.(writeIdx := Wrap(s.writeIdx + |s.producer.items|),
           written := s.written + s.producer.items, producer := PIdle)
      else s
    case BeginRead(want) =>
      if !s.consumer.CIdle? then s
      else s.(consumer := CCopying(Min(want, Wrap(s.writeIdx - s.readIdx)), []))
    case CopyOneOut =>
      if !ReadsSlot(s) then s
      else
        var got := s.consumer.got;
        s.(consumer := CCopying(s.consumer.count, got + [s.buf[ReadSlot(s)]]))
    case PublishRead =>
      if s.consumer.CCopying? && |s.consumer.got| >= s.consumer.count then
        s.(readIdx := Wrap(s.readIdx + s.consumer.count),
           taken := s.taken + s.consumer.got, consumer := CIdle)
      else s
  }

  /** The producer is about to store into WriteSlot(s). */
  predicate WritesSlot<T>(s: State<T>) {
    && s.producer.PCopying? && s.producer.done < |s.producer.items|
    && 0 <= Slot(s.Cap(), s.writeIdx, s.producer.done) < |s.buf|
  }

  function WriteSlot<T>(s: State<T>): nat
    requires WritesSlot(s)
  {
    Slot(s.Cap(), s.writeIdx, s.producer.done)
  }

  /** The consumer is about to load from ReadSlot(s). */
  predicate ReadsSlot<T>(s: State<T>) {
    && s.consumer.CCopying? && |s.consumer.got| < s.consumer.count
    && 0 <= Slot(s.Cap(), s.readIdx, |s.consumer.got|) < |s.buf|
  }

  function ReadSlot<T>(s: State<T>): nat
    requires ReadsSlot(s)
  {
    Slot(s.Cap(), s.readIdx, |s.consumer.got|)
  }

  function Stepper<T>(): (State<T>, Step<T>) -> State<T> {
    (s, step) => Next(s, step)
  }

  function Run<T>(s: State<T>, steps: seq<Step<T>>): State<T> {
    Fold(Stepper(), s, steps)
  }

  ghost predicate Initial<T>(s: State<T>) {
    && s.log2 <= 63 && |s.buf| == s.Cap() && s.readIdx == s.writeIdx == 0
    && s.producer.PIdle? && s.consumer.CIdle? && s.written == s.taken == []
  }

  ghost predicate Inv<T>(s: State<T>) {
    && s.log2 <= 63
    && |s.taken| <= |s.written| <= |s.taken| + s.Cap()
    && s.taken == s.written[..|s.taken|]
    && s.readIdx == Wrap(|s.taken|) && s.writeIdx == Wrap(|s.written|)
    && Holds(s.buf, s.Cap(), s.written, |s.taken|)
    && ProducerInv(s) && ConsumerInv(s)
  }

  ghost predicate ProducerInv<T>(s: State<T>) {
    s.producer.PCopying? ==>
      var items, done := s.producer.items, s.producer.done;
      && done <= |items| && |s.written| + |items| <= |s.taken| + s.Cap()
      && Holds(s.buf, s.Cap(), s.written + items[..done], |s.taken|)
  }

  ghost predicate ConsumerInv<T>(s: State<T>) {
    s.consumer.CCopying? ==>
      var count, got := s.consumer.count, s.consumer.got;
      && |got| <= count && |s.taken| + count <= |s.written|
      && got == s.written[|s.taken|..|s.taken| + |got|]
  }

  // ---- What one step does ----

  lemma Fill<T>(s: State<T>)
    requires Inv(s)
    ensures Wrap(s.writeIdx - s.readIdx) == |s.written| - |s.taken|
    ensures Wrap(s.Cap() - Wrap(s.writeIdx - s.readIdx)) == s.Cap() - (|s.written| - |s.taken|)
  {
    UpToTopBit(s.log2);
    FillLevel(|s.written|, |s.taken|);
  }

  /** The slot being stored into is the home of the next unpublished item. */
  lemma WriteSlotIsHome<T>(s: State<T>)
    requires Inv(s) && s.producer.PCopying? && s.producer.done < |s.producer.items|
    ensures WritesSlot(s) && WriteSlot(s) == Home(|s.written| + s.producer.done, s.Cap())
  {
    SlotIsMod(s.log2, |s.written|, s.producer.done);
  }

  lemma ReadSlotIsHome<T>(s: State<T>)
    requires Inv(s) && s.consumer.CCopying? && |s.consumer.got| < s.consumer.count
    ensures ReadsSlot(s) && ReadSlot(s) == Home(|s.taken| + |s.consumer.got|, s.Cap())
  {
    SlotIsMod(s.log2, |s.taken|, |s.consumer.got|);
  }

  /** Storing item number |stream| at its home keeps all the items before it, and adds it. */
  lemma StoreHolds<T>(buf: seq<T>, cap: nat, stream: seq<T>, consumed: nat, x: T)
    requires Holds(buf, cap, stream, consumed) && consumed <= |stream| < consumed + cap
    ensures Holds(buf[Home(|stream|, cap) := x], cap, stream + [x], consumed)
  {
    var buf' := buf[Home(|stream|, cap) := x];
    forall i | consumed <= i < |stream| ensures buf'[Home(i, cap)] == stream[i] {
      SlotsDiffer(i, |stream|, cap);
    }
  }

  lemma CopyInKeepsInv<T>(s: State<T>)
    requires Inv(s) && WritesSlot(s)
    ensures Inv(Next(s, CopyOneIn))
  {
    var s' := Next(s, CopyOneIn);
    var items, i := s.producer.items, s.producer.done;
    WriteSlotIsHome(s);
    StoreHolds(s.buf, s.Cap(), s.written + items[..i], |s.taken|, items[i]);
    assert items[..i + 1] == items[..i] + [items[i]];
    assert s.written + items[..i] + [items[i]] == s.written + items[..i + 1];
    var stream := s.written + items[..i + 1];
    forall j | |s.taken| <= j < |s.written| ensures s'.buf[Home(j, s.Cap())] == s.written[j] {
      assert stream[j] == s.written[j];
    }
  }

  lemma CopyOutKeepsInv<T>(s: State<T>)
    requires Inv(s) && ReadsSlot(s)
    ensures Inv(Next(s, CopyOneOut))
  {
    ReadSlotIsHome(s);
    assert s.buf[Home(|s.taken| + |s.consumer.got|, s.Cap())] == s.written[|s.taken| + |s.consumer.got|];
  }

  lemma PublishWriteKeepsInv<T>(s: State<T>)
    requires Inv(s) && s.producer.PCopying? && s.producer.done == |s.producer.items|
    ensures Inv(Next(s, PublishWrite))
  {
    var items := s.producer.items;
    assert items[..|items|] == items;
    WrapStep(|s.written|, |items|);
  }

  lemma PublishReadKeepsInv<T>(s: State<T>)
    requires Inv(s) && s.consumer.CCopying? && |s.consumer.got| == s.consumer.count
    ensures Inv(Next(s, PublishRead))
  {
    WrapStep(|s.taken|, s.consumer.count);
  }

  /** Every atomic step of either thread keeps the invariant, wherever the other thread is. */
  lemma StepKeepsInv<T>(s: State<T>, step: Step<T>)
    requires Inv(s)
    ensures Inv(Next(s, step))
  {
    match step
    case BeginWrite(src) => 
      Fill(s);
      if s.producer.PIdle? {
        assert s.written + [] == s.written;
      }
    case CopyOneIn => if WritesSlot(s) { CopyInKeepsInv(s); }
    case PublishWrite =>
      if s.producer.PCopying? && s.producer.done == |s.producer.items| { PublishWriteKeepsInv(s); }
    case BeginRead(want) => Fill(s);
    case CopyOneOut => if ReadsSlot(s) { CopyOutKeepsInv(s); }
    case PublishRead =>
      if s.consumer.CCopying? && |s.consumer.got| == s.consumer.count { PublishReadKeepsInv(s); }
  }

  // ---- Refinement of a bounded FIFO queue ----

  ghost function Queue<T>(s: State<T>): (q: seq<T>)
    requires Inv(s)
    ensures |q| <= s.Cap()
  {
    s.written[|s.taken|..]
  }

  /**
   * Each step is a step of a bounded FIFO queue or leaves it alone: publishing a write appends
   * exactly the copied items, publishing a read removes exactly the items handed to the reader.
   */
  lemma StepRefinesFifo<T>(s: State<T>, step: Step<T>)
    requires Inv(s)
    ensures Inv(Next(s, step))
    ensures
      var s' := Next(s, step);
      if step.PublishWrite? && s' != s then
        s.producer.PCopying? && Queue(s') == Queue(s) + s.producer.items
      else if step.PublishRead? && s' != s then
        s.consumer.CCopying? && Queue(s) == s.consumer.got + Queue(s') && s'.taken == s.taken + s.consumer.got
      else Queue(s') == Queue(s)
  {
    StepKeepsInv(s, step);
  }

  /**
   * A stale index is only conservative: what a write or a read settles for when it loads the other
   * index is the most that fits at that moment, and it stays possible until it is published,
   * however far the other thread has moved meanwhile.
   */
  lemma StaleLoadsAreConservative<T>(s: State<T>, src: seq<T>, want: nat, steps: seq<Step<T>>)
    requires Inv(s)
    ensures s.producer.PIdle? ==>
              Next(s, BeginWrite(src)).producer
              == PCopying(if |src| <= s.Cap() - |Queue(s)| then src else src[..s.Cap() - |Queue(s)|], 0)
    ensures s.consumer.CIdle? ==>
              Next(s, BeginRead(want)).consumer == CCopying(if want <= |Queue(s)| then want else |Queue(s)|, [])
    ensures
      var t := Run(s, steps);
      && Inv(t)
      && (t.producer.PCopying? ==> |Queue(t)| + |t.producer.items| <= t.Cap())
      && (t.consumer.CCopying? ==> t.consumer.count <= |Queue(t)|)
  {
    Fill(s);
    RunKeepsInv(s, steps);
  }

  /** No slot is stored into while it is readable, nor while the consumer is loading from it. */
  lemma NoSlotIsSharedByBothThreads<T>(s: State<T>)
    requires Inv(s) && WritesSlot(s)
    ensures forall i :: |s.taken| <= i < |s.written| ==> Home(i, s.Cap()) != WriteSlot(s)
    ensures ReadsSlot(s) ==> ReadSlot(s) != WriteSlot(s)
  {
    WriteSlotIsHome(s);
    forall i | |s.taken| <= i < |s.written| ensures Home(i, s.Cap()) != WriteSlot(s) {
      SlotsDiffer(i, |s.written| + s.producer.done, s.Cap());
    }
    if ReadsSlot(s) { ReadSlotIsHome(s); }
  }

  lemma {:induction false} RunKeepsInv<T>(s: State<T>, steps: seq<Step<T>>)
    requires Inv(s)
    ensures Inv(Run(s, steps)) && Run(s, steps).log2 == s.log2
    decreases |steps|
  {
    if steps != [] {
      StepKeepsInv(s, steps[0]);
      RunKeepsInv(Next(s, steps[0]), steps[1..]);
    }
  }

  /**
   * Every interleaving: what has been read is a prefix of what has been written, the rest is in the
   * buffer in order, and the two threads never touch the same slot.
   */
  lemma EveryInterleavingIsFifo<T>(s: State<T>, steps: seq<Step<T>>)
    requires Initial(s)
    ensures
      var t := Run(s, steps);
      && t.taken <= t.written && |t.written| - |t.taken| <= s.Cap()
      && Holds(t.buf, s.Cap(), t.written, |t.taken|)
      && (WritesSlot(t) && ReadsSlot(t) ==> WriteSlot(t) != ReadSlot(t))
  {
    RunKeepsInv(s, steps);
    var t := Run(s, steps);
    if WritesSlot(t) { NoSlotIsSharedByBothThreads(t); }
  }

  // ---- Progress: an undisturbed or disturbed write delivers ----

  /** The producer alone can always finish: with done items copied, the rest of its steps publish all. */
  ghost function FinishWrite<T>(n: nat): seq<Step<T>> {
    if n == 0 then [PublishWrite] else [CopyOneIn] + FinishWrite(n - 1)
  }

  lemma {:induction false} WriteCompletes<T>(s: State<T>)
    requires Inv(s) && s.producer.PCopying?
    ensures
      var t := Run(s, FinishWrite<T>(|s.producer.items| - s.producer.done));
      t.producer.PIdle? && t.written == s.written + s.producer.items && t.taken == s.taken
    decreases |s.producer.items| - s.producer.done
  {
    var n := |s.producer.items| - s.producer.done;
    if n == 0 {
      var t := Next(s, PublishWrite);
      assert Run(t, FinishWrite<T>(0)[1..]) == t;
    } else {
      WriteSlotIsHome(s);
      StepKeepsInv(s, CopyOneIn);
      assert FinishWrite<T>(n)[1..] == FinishWrite<T>(n - 1);
      WriteCompletes(Next(s, CopyOneIn));
    }
  }

  /** The consumer alone can always finish, and gets the oldest unread items. */
  ghost function FinishRead<T>(n: nat): seq<Step<T>> {
    if n == 0 then [PublishRead] else [CopyOneOut] + FinishRead(n - 1)
  }

  lemma {:induction false} ReadCompletes<T>(s: State<T>)
    requires Inv(s) && s.consumer.CCopying?
    ensures
      var t := Run(s, FinishRead<T>(s.consumer.count - |s.consumer.got|));
      t.consumer.CIdle? && t.taken == s.taken + Queue(s)[..s.consumer.count] && t.written == s.written
    decreases s.consumer.count - |s.consumer.got|
  {
    var n := s.consumer.count - |s.consumer.got|;
    if n == 0 {
      var t := Next(s, PublishRead);
      assert Run(t, FinishRead<T>(0)[1..]) == t;
    } else {
      ReadSlotIsHome(s);
      StepKeepsInv(s, CopyOneOut);
      assert FinishRead<T>(n)[1..] == FinishRead<T>(n - 1);
      ReadCompletes(Next(s, CopyOneOut));
    }
  }
}
