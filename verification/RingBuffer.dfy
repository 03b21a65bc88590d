/** The audio ring buffer: index arithmetic, and the buffer as one thread uses it. */
module RingBuffers {
  import opened Bits

  function Min(a: int, b: int): int {
    if a < b then a else b
  }

  /** The slot of the i-th item of a two-chunk transfer that starts at index idx. */
  function Slot(cap: nat, idx: u64, i: nat): int
    requires cap > 0
  {
    var pos := BitAnd(idx, cap - 1);
    if i < cap - pos then pos + i else i - (cap - pos)
  }

  lemma ModOfSum(n: nat, i: nat, cap: nat)
    requires i < cap
    ensures (n + i) % cap == if n % cap + i < cap then n % cap + i else n % cap + i - cap
  {
    var q, r := n / cap, n % cap;
    assert n == cap * q + r;
    if r + i < cap {
      DivModUnique(n + i, cap, q, r + i);
    } else {
      assert cap * (q + 1) == cap * q + cap;
      DivModUnique(n + i, cap, q + 1, r + i - cap);
    }
  }

  /** Two-chunk placement from a wrapped index is placement modulo the capacity from the unbounded count. */
  lemma SlotIsMod(k: nat, n: nat, i: nat)
    requires k <= 63 && i < Pow2(k)
    ensures Slot(Pow2(k), Wrap(n), i) == (n + i) % Pow2(k)
  {
    IndexMasksLikeCount(n, k);
    ModOfSum(n, i, Pow2(k));
  }

  /** Counts less than one capacity apart use different slots. */
  lemma SlotsDiffer(a: nat, b: nat, cap: nat)
    requires a < b < a + cap
    ensures a % cap != b % cap
  {
    ModOfSum(a, b - a, cap);
  }

  /** The modular difference of two wrapped indices is the true fill level. */
  lemma FillLevel(w: nat, r: nat)
    requires r <= w < r + TWO64
    ensures Wrap(Wrap(w) - Wrap(r)) == w - r
  {
    var a, b := w / TWO64, r / TWO64;
    DivModUnique(Wrap(w) - Wrap(r), TWO64, b - a, w - r);
  }

  /** Where item number i of the stream lives. */
  function Home(i: nat, cap: nat): (s: nat)
    requires cap > 0
    ensures s < cap
  {
    i % cap
  }

  /** buf holds items consumed, consumed + 1, ... of the stream, each at its home. */
  ghost predicate Holds<T>(buf: seq<T>, cap: nat, stream: seq<T>, consumed: nat) {
    && cap > 0 && |buf| == cap
    && forall i :: consumed <= i < |stream| ==> buf[Home(i, cap)] == stream[i]
  }

  /** Slot s after a two-chunk write of items at position pos. */
  ghost function Spliced<T>(buf: seq<T>, pos: nat, items: seq<T>, s: nat): T
    requires s < |buf| && pos < |buf| && |items| <= |buf|
  {
    var first := Min(|buf| - pos, |items|);
    if pos <= s < pos + first then items[s - pos]
    else if s < |items| - first then items[first + s]
    else buf[s]
  }

  lemma SplicedAt<T>(buf: seq<T>, cap: nat, stream: seq<T>, consumed: nat, items: seq<T>, i: nat)
    requires Holds(buf, cap, stream, consumed) && consumed <= |stream|
    requires |stream| + |items| <= consumed + cap && consumed <= i < |stream| + |items|
    ensures Spliced(buf, Home(|stream|, cap), items, Home(i, cap)) == (stream + items)[i]
  {
    var pos, s := Home(|stream|, cap), Home(i, cap);
    var first := Min(cap - pos, |items|);
    if i >= |stream| {
      ModOfSum(|stream|, i - |stream|, cap);
    } else if pos <= s < pos + first {
      ModOfSum(|stream|, s - pos, cap);
      SlotsDiffer(i, |stream| + (s - pos), cap);
    } else if s < |items| - first {
      ModOfSum(|stream|, s + first, cap);
      SlotsDiffer(i, |stream| + (s + first), cap);
    }
  }

  /** A two-chunk write keeps every unread item and adds the new ones. */
  lemma SplicedHolds<T>(buf: seq<T>, buf': seq<T>, cap: nat, stream: seq<T>, consumed: nat, items: seq<T>)
    requires Holds(buf, cap, stream, consumed) && consumed <= |stream| && |stream| + |items| <= consumed + cap
    requires |buf'| == cap
    requires forall s: nat :: s < cap ==> buf'[s] == Spliced(buf, Home(|stream|, cap), items, s)
    ensures Holds(buf', cap, stream + items, consumed)
  {
    forall i | consumed <= i < |stream + items| ensures buf'[Home(i, cap)] == (stream + items)[i] {
      SplicedAt(buf, cap, stream, consumed, items, i);
    }
  }

  /** Item i of a two-chunk read from position pos. */
  function Chunked<T>(buf: seq<T>, pos: nat, i: nat): T
    requires pos < |buf| && i < |buf|
  {
    if i < |buf| - pos then buf[pos + i] else buf[i - (|buf| - pos)]
  }

  /** A two-chunk read from the home of item `consumed` yields the next items of the stream. */
  lemma ReadsStream<T>(buf: seq<T>, cap: nat, stream: seq<T>, consumed: nat, items: seq<T>)
    requires Holds(buf, cap, stream, consumed) && |items| <= cap && consumed + |items| <= |stream|
    requires forall i :: 0 <= i < |items| ==> items[i] == Chunked(buf, Home(consumed, cap), i)
    ensures items == stream[consumed..][..|items|]
  {
    forall i | 0 <= i < |items| ensures items[i] == stream[consumed + i] {
      ModOfSum(consumed, i, cap);
      assert buf[Home(consumed + i, cap)] == stream[consumed + i];
    }
  }

  lemma AppendKeepsPrefix<T>(stream: seq<T>, consumed: nat, items: seq<T>)
    requires consumed <= |stream|
    ensures (stream + items)[consumed..] == stream[consumed..] + items
  {
  }

  lemma StillHolds<T>(buf: seq<T>, cap: nat, stream: seq<T>, consumed: nat, count: nat)
    requires Holds(buf, cap, stream, consumed) && consumed + count <= |stream|
    ensures Holds(buf, cap, stream, consumed + count)
    ensures stream[consumed + count..] == stream[consumed..][count..]
  {
  }

  /** The constructor's doubling loop after n iterations, on 64 bits. */
  function Doubled(n: nat): u64 {
    if n == 0 then 1 else Wrap(Doubled(n - 1) * 2)
  }

  lemma {:induction false} DoubledValue(n: nat)
    ensures Doubled(n) == if n <= 63 then Pow2(n) else 0
  {
    if n > 0 {
      DoubledValue(n - 1);
      if n <= 64 { UpToTopBit(n - 1); }
    }
  }

  /** The doubling loop ends if and only if the requested capacity is at most 2^63. */
  lemma DoublingReachesIff(request: u64)
    ensures (exists n :: Doubled(n) >= request) <==> request <= TWO63
  {
    DoubledValue(63);
    UpToTopBit(63);
    forall n: nat | Doubled(n) >= request
      ensures request <= TWO63
    {
      DoubledValue(n);
      if n <= 63 { UpToTopBit(n); }
    }
  }

  /** memcpy into an array. */
  method CopyIn<T>(dst: array<T>, at: nat, items: seq<T>)
    requires at + |items| <= dst.Length
    modifies dst
    ensures forall k :: 0 <= k < dst.Length ==>
              dst[k] == if at <= k < at + |items| then items[k - at] else old(dst[k])
  {
    for i := 0 to |items|
      invariant forall k :: 0 <= k < dst.Length ==>
                  dst[k] == if at <= k < at + i then items[k - at] else old(dst[k])
    {
      dst[at + i] := items[i];
    }
  }

  /** The two copies of a write: up to the end of the buffer, then the rest at its start. */
  method SpliceIn<T>(dst: array<T>, pos: nat, items: seq<T>)
    requires pos < dst.Length && |items| <= dst.Length
    modifies dst
    ensures forall s: nat :: s < dst.Length ==> dst[s] == Spliced(old(dst[..]), pos, items, s)
  {
    var firstChunk := dst.Length - pos;
    if firstChunk > |items| { firstChunk := |items|; }
    CopyIn(dst, pos, items[..firstChunk]);
    if |items| > firstChunk {
      CopyIn(dst, 0, items[firstChunk..]);
    }
  }

  /** The two copies of a read. */
  method SpliceOut<T>(src: array<T>, pos: nat, dst: array<T>, count: nat)
    requires src != dst && pos < src.Length && count <= src.Length && count <= dst.Length
    modifies dst
    ensures forall i :: 0 <= i < count ==> dst[i] == Chunked(src[..], pos, i)
    ensures forall k :: count <= k < dst.Length ==> dst[k] == old(dst[k])
  {
    var firstChunk := src.Length - pos;
    if firstChunk > count { firstChunk := count; }
    CopyIn(dst, 0, src[pos..pos + firstChunk]);
    if count > firstChunk {
      CopyIn(dst, firstChunk, src[..count - firstChunk]);
    }
    assert forall i :: 0 <= i < count ==> dst[i] == if i < firstChunk then src[pos + i] else src[i - firstChunk];
  }

  /** The constructor's doubling loop. */
  method RoundedUp(request: nat) returns (cap: u64, ghost k: nat)
    requires request <= TWO63
    ensures k <= 63 && cap == Pow2(k) && request <= cap
    ensures forall j: nat :: request <= Pow2(j) ==> cap <= Pow2(j)
  {
    cap, k := 1, 0;
    while cap < request
      invariant k <= 63 && cap == Pow2(k)
      invariant forall j: nat :: request <= Pow2(j) ==> k <= j
      decreases 63 - k
    {
      UpToTopBit(k);
      forall j: nat | request <= Pow2(j) ensures k + 1 <= j {
        if j <= k { Pow2Monotone(j, k); }
      }
      cap := Wrap(cap * 2);
      k := k + 1;
    }
    forall j: nat | request <= Pow2(j) ensures cap <= Pow2(j) { Pow2Monotone(k, j); }
  }

  class RingBuffer<T(0)> {
    const buffer: array<T>
    const capacity: nat
    const mask: nat
    var readIdx: u64
    var writeIdx: u64

    ghost const log2: nat        // capacity == 2^log2
    ghost var stream: seq<T>     // every item written since the last reset
    ghost var consumed: nat      // how many of them have been read

    ghost predicate Valid()
      reads this, buffer
    {
      && log2 <= 63 && capacity == Pow2(log2) && mask == capacity - 1 && buffer.Length == capacity
      && consumed <= |stream| <= consumed + capacity
      && writeIdx == Wrap(|stream|) && readIdx == Wrap(consumed)
      && Holds(buffer[..], capacity, stream, consumed)
    }

    /** The queue this buffer stands for. */
    ghost function Contents(): (q: seq<T>)
      reads this, buffer
      requires Valid()
      ensures |q| <= capacity
    {
      stream[consumed..]
    }

    /** Rounds the requested capacity up to the least power of two; the loop ends only up to 2^63. */
    constructor (request: nat)
      requires request <= TWO63
      ensures Valid() && fresh(buffer) && Contents() == []
      ensures request <= capacity && forall j: nat :: request <= Pow2(j) ==> capacity <= Pow2(j)
    {
      var cap, k := RoundedUp(request);
      capacity, mask := cap, cap - 1;
      buffer := new T[cap];
      readIdx, writeIdx := 0, 0;
      log2, stream, consumed := k, [], 0;
    }

    /** Modular subtraction gives the number of queued items, even after an index has wrapped. */
    method AvailableRead() returns (n: u64)
      requires Valid()
      ensures n == |Contents()|
    {
      UpToTopBit(log2);
      FillLevel(|stream|, consumed);
      n := Wrap(writeIdx - readIdx);
    }

    method AvailableWrite() returns (n: u64)
      requires Valid()
      ensures n == capacity - |Contents()|
    {
      UpToTopBit(log2);
      FillLevel(|stream|, consumed);
      n := Wrap(capacity - Wrap(writeIdx - readIdx));
    }

    /** An index's place in the buffer, by masking. */
    method Position(idx: u64, ghost count: nat) returns (pos: nat)
      requires Valid() && idx == Wrap(count)
      ensures pos == Home(count, capacity)
    {
      IndexMasksLikeCount(count, log2);
      pos := BitAnd(idx, mask);
    }

    /** An index moved on, still the item count modulo 2^64. */
    static method Advanced(idx: u64, moved: nat, ghost count: nat) returns (r: u64)
      requires idx == Wrap(count)
      ensures r == Wrap(count + moved)
    {
      WrapStep(count, moved);
      r := Wrap(idx + moved);
    }

    /** The two copies of a write, before the index is published. */
    method CopyItems(items: seq<T>)
      requires Valid() && |items| <= capacity - |Contents()|
      modifies buffer
      ensures buffer.Length == capacity && Holds(buffer[..], capacity, stream + items, consumed)
    {
      var pos := Position(writeIdx, |stream|);
      SpliceIn(buffer, pos, items);
      SplicedHolds(old(buffer[..]), buffer[..], capacity, stream, consumed, items);
    }

    /** Appends as many of the items as fit. */
    method Write(src: seq<T>) returns (count: nat)
      requires Valid()
      modifies this, buffer
      ensures Valid()
      ensures count == if |src| <= capacity - |old(Contents())| then |src| else capacity - |old(Contents())|
      ensures Contents() == old(Contents()) + src[..count]
    {
      count := |src|;
      var avail := AvailableWrite();
      if count > avail { count := avail; }
      CopyItems(src[..count]);
      AppendKeepsPrefix(stream, consumed, src[..count]);
      writeIdx := Advanced(writeIdx, count, |stream|);
      stream := stream + src[..count];
    }

    /** Moves up to `want` items from the front of the queue to the front of dst. */
    method Read(dst: array<T>, want: nat) returns (count: nat)
      requires Valid() && dst != buffer && want <= dst.Length
      modifies this, dst
      ensures Valid()
      ensures count == if want <= |old(Contents())| then want else |old(Contents())|
      ensures dst[..count] == old(Contents())[..count]
      ensures forall k :: count <= k < dst.Length ==> dst[k] == old(dst[k])
      ensures Contents() == old(Contents())[count..]
    {
      count := want;
      var avail := AvailableRead();
      if count > avail { count := avail; }
      var pos := Position(readIdx, consumed);
      SpliceOut(buffer, pos, dst, count);
      ReadsStream(buffer[..], capacity, stream, consumed, dst[..count]);
      StillHolds(buffer[..], capacity, stream, consumed, count);
      readIdx := Advanced(readIdx, count, consumed);
      consumed := consumed + count;
    }

    /** Empties the buffer; both threads must be idle. */
    method Reset()
      requires Valid()
      modifies this
      ensures Valid() && Contents() == []
    {
      readIdx, writeIdx := 0, 0;
      stream, consumed := [], 0;
    }
  }
}
