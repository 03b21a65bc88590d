/**
 * The 28-byte voice header, written twice: the server's codec slices and folds bytes, the client's
 * shifts, masks and ORs them into fixed positions.
 */
module VoicePackets {
  import opened Bits
  import opened Options

  const MAGIC0: byte := 86   // 'V'
  const MAGIC1: byte := 76   // 'L'
  const HEADER_SIZE := 28

  datatype Packet = Packet(
    version: byte, flags: byte, sequence: u64, timestamp: u64, channelId: u32, userId: u32, payload: seq<byte>)

  // ---- Big-endian integers ----

  /** to_be_bytes for n bytes. */
  function ToBE(v: nat, n: nat): (s: seq<byte>)
    ensures |s| == n
  {
    if n == 0 then [] else ToBE(v / 256, n - 1) + [v % 256]
  }

  /** from_be_bytes. */
  function FromBE(s: seq<byte>): nat {
    if s == [] then 0 else FromBE(s[..|s| - 1]) * 256 + s[|s| - 1]
  }

  lemma {:induction false} FromBEBound(s: seq<byte>)
    ensures FromBE(s) < Pow2(8 * |s|)
  {
    if s != [] {
      FromBEBound(s[..|s| - 1]);
      Pow2Of64();
      Pow2Adds(8 * (|s| - 1), 8);
    }
  }

  /** Decoding n encoded bytes gives the value modulo 256^n; all of it when it fits. */
  lemma {:induction false} DecodeEncode(v: nat, n: nat)
    requires v < Pow2(8 * n)
    ensures FromBE(ToBE(v, n)) == v
  {
    if n > 0 {
      Pow2Of64();
      Pow2Adds(8 * (n - 1), 8);
      DecodeEncode(v / 256, n - 1);
      assert ToBE(v, n)[..n - 1] == ToBE(v / 256, n - 1);
    }
  }

  lemma {:induction false} EncodeDecode(s: seq<byte>)
    ensures ToBE(FromBE(s), |s|) == s
  {
    if s != [] {
      var init, last := s[..|s| - 1], s[|s| - 1];
      EncodeDecode(init);
      assert (FromBE(init) * 256 + last) / 256 == FromBE(init);
    }
  }

  function FromBE64(s: seq<byte>): u64
    requires |s| == 8
  {
    FromBEBound(s); Pow2Of64();
    FromBE(s)
  }

  function FromBE32(s: seq<byte>): u32
    requires |s| == 4
  {
    FromBEBound(s); Pow2Of64();
    FromBE(s)
  }

  // ---- The server's codec ----

  function Header(p: Packet): (h: seq<byte>)
    ensures |h| == HEADER_SIZE
  {
    [MAGIC0, MAGIC1, p.version, p.flags]
    + ToBE(p.sequence, 8) + ToBE(p.timestamp, 8) + ToBE(p.channelId, 4) + ToBE(p.userId, 4)
  }

  function Serialize(p: Packet): seq<byte> {
    Header(p) + p.payload
  }

  function Parse(data: seq<byte>): Option<Packet> {
    if |data| < HEADER_SIZE then None
    else if data[0] != MAGIC0 || data[1] != MAGIC1 then None
    else Some(Packet(data[2], data[3], FromBE64(data[4..12]), FromBE64(data[12..20]),
                     FromBE32(data[20..24]), FromBE32(data[24..28]), data[HEADER_SIZE..]))
  }

  /** VoicePacket::to_bytes: grows a buffer field by field. */
  method ToBytes(p: Packet, encrypted: seq<byte>) returns (buf: seq<byte>)
    ensures buf == Serialize(p.(payload := encrypted))
  {
    buf := [];
    buf := buf + [MAGIC0, MAGIC1];
    buf := buf + [p.version];
    buf := buf + [p.flags];
    buf := buf + ToBE(p.sequence, 8);
    buf := buf + ToBE(p.timestamp, 8);
    buf := buf + ToBE(p.channelId, 4);
    buf := buf + ToBE(p.userId, 4);
    buf := buf + encrypted;
  }

  /** copy_from_slice into a fixed array. */
  method CopySlice(dst: array<byte>, at: nat, src: seq<byte>)
    requires at + |src| <= dst.Length
    modifies dst
    ensures dst[..at] == old(dst[..at]) && dst[at..at + |src|] == src
    ensures dst[at + |src|..] == old(dst[at + |src|..])
  {
    ghost var before := dst[..];
    for i := 0 to |src|
      invariant forall k :: 0 <= k < dst.Length ==> dst[k] == if at <= k < at + i then src[k - at] else before[k]
    {
      dst[at + i] := src[i];
    }
    assert dst[at + |src|..] == before[at + |src|..];
  }

  /** VoicePacket::build_forward_header: fills a zeroed 28-byte array slice by slice. */
  method BuildForwardHeader(p: Packet) returns (header: array<byte>)
    ensures fresh(header) && header[..] == Header(p)
  {
    header := new byte[HEADER_SIZE](_ => 0);
    CopySlice(header, 0, [MAGIC0, MAGIC1]);
    header[2] := p.version;
    header[3] := p.flags;
    assert header[..4] == [MAGIC0, MAGIC1, p.version, p.flags];
    CopySlice(header, 4, ToBE(p.sequence, 8));
    assert header[..12] == header[..4] + header[4..12];
    CopySlice(header, 12, ToBE(p.timestamp, 8));
    assert header[..20] == header[..12] + header[12..20];
    CopySlice(header, 20, ToBE(p.channelId, 4));
    assert header[..24] == header[..20] + header[20..24];
    CopySlice(header, 24, ToBE(p.userId, 4));
    assert header[..28] == header[..24] + header[24..28];
    assert header[..] == header[..28];
  }

  // ---- Round trips ----

  /** The layout on the wire: where each field is, and that what follows the 28 bytes is the rest. */
  lemma HeaderFields(p: Packet, rest: seq<byte>)
    ensures
      var d := Header(p) + rest;
      && d[0] == MAGIC0 && d[1] == MAGIC1 && d[2] == p.version && d[3] == p.flags
      && d[4..12] == ToBE(p.sequence, 8) && d[12..20] == ToBE(p.timestamp, 8)
      && d[20..24] == ToBE(p.channelId, 4) && d[24..28] == ToBE(p.userId, 4)
      && d[HEADER_SIZE..] == rest
  {
  }

  /** Parsing what was serialized restores every field and the payload. */
  lemma ParseSerialize(p: Packet)
    ensures Parse(Serialize(p)) == Some(p)
  {
    HeaderFields(p, p.payload);
    Pow2Of64();
    DecodeEncode(p.sequence, 8);
    DecodeEncode(p.timestamp, 8);
    DecodeEncode(p.channelId, 4);
    DecodeEncode(p.userId, 4);
  }

  /** Serializing what was parsed restores every accepted byte string. */
  lemma SerializeParse(data: seq<byte>)
    requires Parse(data).Some?
    ensures Serialize(Parse(data).value) == data
    ensures Header(Parse(data).value) == data[..HEADER_SIZE]
  {
    EncodeDecode(data[4..12]);
    EncodeDecode(data[12..20]);
    EncodeDecode(data[20..24]);
    EncodeDecode(data[24..28]);
    assert data[..28] == [data[0], data[1], data[2], data[3]]
                         + data[4..12] + data[12..20] + data[20..24] + data[24..28];
  }

  /** Exactly the byte strings of at least 28 bytes that start with "VL" are accepted. */
  lemma AcceptedIff(data: seq<byte>)
    ensures Parse(data).Some? <==> |data| >= 28 && data[0] == 'V' as int && data[1] == 'L' as int
    ensures Parse(data).Some? <==> exists p :: Serialize(p) == data
  {
    if Parse(data).Some? {
      SerializeParse(data);
    }
    forall p | Serialize(p) == data ensures Parse(data).Some? {
      ParseSerialize(p);
    }
  }

  // ---- The client's codec: shifts, masks and ORs, all by whole bytes ----

  function Pow256(j: nat): (r: nat)
    ensures r >= 1
  {
    if j == 0 then 1 else 256 * Pow256(j - 1)
  }

  /** a & 0xFF */
  function LowByte(a: nat): (b: byte)
    ensures b == a % 256
  {
    MaskByte(a);
    BitAnd(a, 255)
  }

  function Quotient(v: nat, d: nat): (q: nat)
    requires d > 0
    ensures q == v / d
  {
    v / d
  }

  /** (val >> 8 * j) & 0xFF */
  function ByteAt(v: nat, j: nat): byte {
    LowByte(Quotient(v, Pow256(j)))
  }

  /** b << 8 * j */
  function Shifted(b: nat, j: nat): nat {
    b * Pow256(j)
  }

  lemma MaskByte(a: nat)
    ensures BitAnd(a, 255) == a % 256
  {
    Pow2Of64();
    MaskIsMod(a, 8);
  }

  method WriteBE64(dst: array<byte>, at: nat, val: u64)
    requires at + 8 <= dst.Length
    modifies dst
    ensures dst[..at] == old(dst[..at]) && dst[at..at + 8] == ToBE(val, 8) && dst[at + 8..] == old(dst[at + 8..])
  {
    BE64Bytes(val);
    dst[at] := ByteAt(val, 7);
    dst[at + 1] := ByteAt(val, 6);
    dst[at + 2] := ByteAt(val, 5);
    dst[at + 3] := ByteAt(val, 4);
    dst[at + 4] := ByteAt(val, 3);
    dst[at + 5] := ByteAt(val, 2);
    dst[at + 6] := ByteAt(val, 1);
    dst[at + 7] := ByteAt(val, 0);
    assert dst[at..at + 8] == ToBE(val, 8);
  }

  method WriteBE32(dst: array<byte>, at: nat, val: u32)
    requires at + 4 <= dst.Length
    modifies dst
    ensures dst[..at] == old(dst[..at]) && dst[at..at + 4] == ToBE(val, 4) && dst[at + 4..] == old(dst[at + 4..])
  {
    BE32Bytes(val);
    dst[at] := ByteAt(val, 3);
    dst[at + 1] := ByteAt(val, 2);
    dst[at + 2] := ByteAt(val, 1);
    dst[at + 3] := ByteAt(val, 0);
    assert dst[at..at + 4] == ToBE(val, 4);
  }

  lemma BE64Bytes(v: nat)
    ensures ToBE(v, 8) == [ByteAt(v, 7), ByteAt(v, 6), ByteAt(v, 5), ByteAt(v, 4),
                           ByteAt(v, 3), ByteAt(v, 2), ByteAt(v, 1), ByteAt(v, 0)]
  {
    ByteOfBE(v, 8, 0); ByteOfBE(v, 8, 1); ByteOfBE(v, 8, 2); ByteOfBE(v, 8, 3);
    ByteOfBE(v, 8, 4); ByteOfBE(v, 8, 5); ByteOfBE(v, 8, 6); ByteOfBE(v, 8, 7);
  }

  lemma BE32Bytes(v: nat)
    ensures ToBE(v, 4) == [ByteAt(v, 3), ByteAt(v, 2), ByteAt(v, 1), ByteAt(v, 0)]
  {
    ByteOfBE(v, 4, 0); ByteOfBE(v, 4, 1); ByteOfBE(v, 4, 2); ByteOfBE(v, 4, 3);
  }

  /** Byte i of the big-endian encoding is the value shifted down and masked. */
  lemma {:induction false} ByteOfBE(v: nat, n: nat, i: nat)
    requires i < n
    ensures ToBE(v, n)[i] == ByteAt(v, n - 1 - i)
  {
    if i < n - 1 {
      ByteOfBE(v / 256, n - 1, i);
      DivDiv(v, Pow256(n - 2 - i));
    }
  }

  lemma DivDiv(v: nat, b: nat)
    requires b > 0
    ensures v / 256 / b == v / (256 * b)
  {
    var q := v / 256;
    DivDivParts(v, q, v % 256, b, q / b, q % b);
  }

  lemma DivDivParts(v: nat, q: nat, s: nat, b: nat, x: nat, r: nat)
    requires v == 256 * q + s && s < 256 && q == b * x + r && r < b
    ensures v / (256 * b) == x
  {
    Regroup(b, x);
    DivModUnique(v, 256 * b, x, 256 * r + s);
  }

  lemma Regroup(b: nat, x: nat)
    ensures (256 * b) * x == 256 * (b * x)
  {
  }

  /** (src[0] << 56) | (src[1] << 48) | ... | src[7] */
  function ReadBE64(src: seq<byte>): nat
    requires |src| == 8
  {
    BitOr(BitOr(BitOr(BitOr(BitOr(BitOr(BitOr(
      Shifted(src[0], 7), Shifted(src[1], 6)), Shifted(src[2], 5)), Shifted(src[3], 4)),
      Shifted(src[4], 3)), Shifted(src[5], 2)), Shifted(src[6], 1)), src[7])
  }

  function ReadBE32(src: seq<byte>): nat
    requires |src| == 4
  {
    BitOr(BitOr(BitOr(Shifted(src[0], 3), Shifted(src[1], 2)), Shifted(src[2], 1)), src[3])
  }

  lemma OrDouble(a: nat, b: nat)
    ensures BitOr(2 * a, 2 * b) == 2 * BitOr(a, b)
  {
  }

  lemma OrByteUp(a: nat, b: nat)
    ensures BitOr(256 * a, 256 * b) == 256 * BitOr(a, b)
  {
    OrDouble(a, b); OrDouble(2 * a, 2 * b); OrDouble(4 * a, 4 * b); OrDouble(8 * a, 8 * b);
    OrDouble(16 * a, 16 * b); OrDouble(32 * a, 32 * b); OrDouble(64 * a, 64 * b); OrDouble(128 * a, 128 * b);
  }

  lemma {:induction false} OrShift(x: nat, y: nat, j: nat)
    ensures BitOr(Shifted(x, j), Shifted(y, j)) == Shifted(BitOr(x, y), j)
  {
    if j > 0 {
      OrShift(x, y, j - 1);
      OrByteUp(Shifted(x, j - 1), Shifted(y, j - 1));
      ShiftStep(x, j); ShiftStep(y, j); ShiftStep(BitOr(x, y), j);
    }
  }

  lemma ShiftStep(x: nat, j: nat)
    requires j > 0
    ensures Shifted(x, j) == 256 * Shifted(x, j - 1)
  {
    assert x * (256 * Pow256(j - 1)) == 256 * (x * Pow256(j - 1));
  }

  /** ORing the next byte in at its place extends the big-endian value by one byte. */
  lemma OrNextByte(s: seq<byte>, i: nat, j: nat)
    requires i < |s|
    ensures BitOr(Shifted(FromBE(s[..i]), j + 1), Shifted(s[i], j)) == Shifted(FromBE(s[..i + 1]), j)
  {
    var hi := FromBE(s[..i]);
    assert s[..i + 1][..i] == s[..i];
    assert FromBE(s[..i + 1]) == hi * 256 + s[i];
    ShiftStep(hi, j + 1);
    assert Shifted(hi, j + 1) == Shifted(hi * 256, j);
    OrShift(hi * 256, s[i], j);
    Pow2Of64();
    OrOfDisjoint(hi, s[i], 8);
  }

  /** Shifting and ORing eight bytes decodes them like the server's from_be_bytes. */
  lemma Readers64Agree(s: seq<byte>)
    requires |s| == 8
    ensures ReadBE64(s) == FromBE64(s)
  {
    assert FromBE(s[..0]) == 0;
    FirstByte(s, 7);
    OrNextByte(s, 1, 6); OrNextByte(s, 2, 5); OrNextByte(s, 3, 4); OrNextByte(s, 4, 3);
    OrNextByte(s, 5, 2); OrNextByte(s, 6, 1); OrNextByte(s, 7, 0);
    assert s[..8] == s;
  }

  lemma Readers32Agree(s: seq<byte>)
    requires |s| == 4
    ensures ReadBE32(s) == FromBE32(s)
  {
    FirstByte(s, 3);
    OrNextByte(s, 1, 2); OrNextByte(s, 2, 1); OrNextByte(s, 3, 0);
    assert s[..4] == s;
  }

  lemma FirstByte(s: seq<byte>, j: nat)
    requires |s| > 0
    ensures Shifted(s[0], j) == Shifted(FromBE(s[..1]), j)
  {
    assert s[..1][..0] == [];
    assert FromBE(s[..1]) == FromBE([]) * 256 + s[0];
  }

  /** VoicePacket::parse of the client: the same result as the server's, for every byte string. */
  method ClientParse(data: seq<byte>) returns (r: Option<Packet>)
    ensures r == Parse(data)
  {
    if |data| < HEADER_SIZE { return None; }
    if data[0] != MAGIC0 || data[1] != MAGIC1 { return None; }
    Readers64Agree(data[4..12]);
    Readers64Agree(data[12..20]);
    Readers32Agree(data[20..24]);
    Readers32Agree(data[24..28]);
    var version, flags := data[2], data[3];
    var sequence, timestamp := ReadBE64(data[4..12]), ReadBE64(data[12..20]);
    var channelId, userId := ReadBE32(data[20..24]), ReadBE32(data[24..28]);
    var payload := [];
    if |data| > HEADER_SIZE { payload := data[HEADER_SIZE..]; }
    assert payload == data[HEADER_SIZE..];
    return Some(Packet(version, flags, sequence, timestamp, channelId, userId, payload));
  }

  /** VoicePacket::buildHeader of the client: the same 28 bytes as the server's. */
  method ClientHeader(p: Packet) returns (header: array<byte>)
    ensures fresh(header) && header[..] == Header(p)
  {
    header := new byte[HEADER_SIZE](_ => 0);
    header[0] := MAGIC0;
    header[1] := MAGIC1;
    header[2] := p.version;
    header[3] := p.flags;
    assert header[..4] == [MAGIC0, MAGIC1, p.version, p.flags];
    WriteBE64(header, 4, p.sequence);
    assert header[..12] == header[..4] + header[4..12];
    WriteBE64(header, 12, p.timestamp);
    assert header[..20] == header[..12] + header[12..20];
    WriteBE32(header, 20, p.channelId);
    assert header[..24] == header[..20] + header[20..24];
    WriteBE32(header, 24, p.userId);
    assert header[..28] == header[..24] + header[24..28];
    assert header[..] == header[..28];
  }

  /** VoicePacket::toBytes of the client: the same bytes as the server's. */
  method ClientToBytes(p: Packet, encrypted: seq<byte>) returns (buf: seq<byte>)
    ensures buf == Serialize(p.(payload := encrypted))
  {
    var header := ClientHeader(p);
    buf := [];
    buf := buf + header[..];
    buf := buf + encrypted;
  }
}
