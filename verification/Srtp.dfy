/**
 * Packet encryption on both sides: nonce derivation, and the two-second window in which a packet
 * sealed under the previous key is still opened. Times are seconds on a monotone clock, as reals.
 */
module Srtp {
  import opened Bits
  import opened Options
  import opened VoicePackets

  type Time = real

  const DUAL_KEY_WINDOW: Time := 2.0
  const GCM_TAG_SIZE := 16

  datatype DerivedKeys = DerivedKeys(masterKey: seq<byte>, masterSalt: seq<byte>)

  type Keys = k: DerivedKeys | |k.masterKey| == 16 && |k.masterSalt| == 14
    witness DerivedKeys([0, 0, 0, 0, 0, 0, 0, 0, 0, 0, 0, 0, 0, 0, 0, 0], [0, 0, 0, 0, 0, 0, 0, 0, 0, 0, 0, 0, 0, 0])

  // ---- Nonce ----

  function XorByte(a: byte, b: byte): byte {
    Pow2Of64(); XorBound(a, b, 8);
    BitXor(a, b)
  }

  /** The sequence number, zero-padded to 12 bytes. */
  function Padded(sequence: u64): (s: seq<byte>)
    ensures |s| == 12
  {
    [0, 0, 0, 0] + ToBE(sequence, 8)
  }

  function Nonce(salt: seq<byte>, sequence: u64): (n: seq<byte>)
    requires |salt| == 14
    ensures |n| == 12
  {
    seq(12, i requires 0 <= i < 12 => XorByte(Padded(sequence)[i], salt[i]))
  }

  /** derive_nonce of the server. */
  method DeriveNonce(salt: seq<byte>, sequence: u64) returns (nonce: seq<byte>)
    requires |salt| == 14
    ensures nonce == Nonce(salt, sequence)
  {
    var bytes := new byte[12](_ => 0);
    CopySlice(bytes, 4, ToBE(sequence, 8));
    assert bytes[..] == bytes[..4] + bytes[4..12] + bytes[12..];
    assert bytes[..] == Padded(sequence);
    for i := 0 to 12
      invariant forall j :: 0 <= j < 12 ==>
                  bytes[j] == if j < i then Nonce(salt, sequence)[j] else Padded(sequence)[j]
    {
      if i < |salt| {
        bytes[i] := XorByte(bytes[i], salt[i]);
      }
    }
    nonce := bytes[..];
  }

  /** deriveNonce of the client: eight shifted bytes, then XOR in place. */
  method ClientDeriveNonce(salt: seq<byte>, sequence: u64) returns (nonce: seq<byte>)
    requires |salt| == 14
    ensures nonce == Nonce(salt, sequence)
  {
    var bytes := new byte[12](_ => 0);
    WriteBE64(bytes, 4, sequence);
    assert bytes[..] == bytes[..4] + bytes[4..12] + bytes[12..];
    assert bytes[..] == Padded(sequence);
    for i := 0 to 12
      invariant forall j :: 0 <= j < 12 ==>
                  bytes[j] == if j < i then Nonce(salt, sequence)[j] else Padded(sequence)[j]
    {
      bytes[i] := XorByte(bytes[i], salt[i]);
    }
    nonce := bytes[..];
  }

  /** Under one salt no two sequence numbers share a nonce. */
  lemma NonceInjective(salt: seq<byte>, s: u64, t: u64)
    requires |salt| == 14 && Nonce(salt, s) == Nonce(salt, t)
    ensures s == t
  {
    forall i | 0 <= i < 12 ensures Padded(s)[i] == Padded(t)[i] {
      assert Nonce(salt, s)[i] == Nonce(salt, t)[i];
      XorInvolutive(Padded(s)[i], salt[i]);
      XorInvolutive(Padded(t)[i], salt[i]);
    }
    assert Padded(s) == Padded(t);
    assert Padded(s)[4..] == ToBE(s, 8) && Padded(t)[4..] == ToBE(t, 8);
    Pow2Of64();
    DecodeEncode(s, 8);
    DecodeEncode(t, 8);
  }

  /**
   * Bit by bit: the first four bytes of the nonce are the salt's, and the other eight are the sequence
   * number, most significant byte first, added to the salt without carry.
   */
  lemma NonceBits(salt: seq<byte>, sequence: u64, i: nat, j: nat)
    requires |salt| == 14 && i < 12 && j < 8
    ensures
      var number := if i < 4 then 0 else Bit((sequence / Pow256(11 - i)) % 256, j);
      Bit(Nonce(salt, sequence)[i], j) == (number + Bit(salt[i], j)) % 2
  {
    XorBit(Padded(sequence)[i], salt[i], j);
    if i < 4 {
      ZeroBit(j);
    } else {
      ByteOfBE(sequence, 8, i - 4);
      assert Padded(sequence)[i] == ToBE(sequence, 8)[i - 4];
    }
  }

  lemma {:induction false} ZeroBit(j: nat)
    ensures Bit(0, j) == 0
  {
    if j > 0 { ZeroBit(j - 1); }
  }

  // ---- AES-128-GCM, as functions of key, nonce and text ----

  datatype Aead = Aead(
    seal: (seq<byte>, seq<byte>, seq<byte>) -> seq<byte>,
    open: (seq<byte>, seq<byte>, seq<byte>) -> Option<seq<byte>>)

  /** What authenticated decryption guarantees: it inverts sealing, and opens nothing else. */
  ghost predicate Lawful(a: Aead) {
    && (forall k, n, p :: a.open(k, n, a.seal(k, n, p)) == Some(p))
    && (forall k, n, c :: a.open(k, n, c).Some? ==> c == a.seal(k, n, a.open(k, n, c).value))
    && (forall k, n, p :: |a.seal(k, n, p)| == |p| + GCM_TAG_SIZE)
  }

  const NONCE_SIZE := 12

  /** Idealisation for the keys in use: a ciphertext authenticates under one key and 96-bit nonce only. */
  ghost predicate NoCollision(a: Aead, ks: set<seq<byte>>) {
    forall k, k', n, n', p, p' ::
      && k in ks && k' in ks && |n| == NONCE_SIZE && |n'| == NONCE_SIZE && a.seal(k, n, p) == a.seal(k', n', p')
      ==> k == k' && n == n'
  }

  /** The first n bytes, zero-padded. */
  function Fit(s: seq<byte>, n: nat): (r: seq<byte>)
    ensures |r| == n && (|s| == n ==> r == s)
  {
    seq(n, i requires 0 <= i < n => if i < |s| then s[i] else 0)
  }

  /** Nonce and start of the key in clear, then the text: no cipher at all, but it meets the laws. */
  function Tag(k: seq<byte>, n: seq<byte>): (t: seq<byte>)
    ensures |t| == GCM_TAG_SIZE
  {
    Fit(n, NONCE_SIZE) + Fit(k, GCM_TAG_SIZE - NONCE_SIZE)
  }

  function Labelled(): Aead {
    Aead((k, n, p) => Tag(k, n) + p,
         (k, n, c) => if |c| >= GCM_TAG_SIZE && c[..GCM_TAG_SIZE] == Tag(k, n) then Some(c[GCM_TAG_SIZE..]) else None)
  }

  /** The hypotheses made of the cipher can be met, for any set of keys that differ in their first four bytes. */
  lemma LawsCanBeMet(ks: set<seq<byte>>)
    requires forall k, k' :: k in ks && k' in ks && Fit(k, 4) == Fit(k', 4) ==> k == k'
    ensures Lawful(Labelled()) && NoCollision(Labelled(), ks)
  {
    var a := Labelled();
    forall k, n, p ensures a.open(k, n, a.seal(k, n, p)) == Some(p) {
      assert (Tag(k, n) + p)[GCM_TAG_SIZE..] == p;
    }
    forall k, n, c | a.open(k, n, c).Some? ensures c == a.seal(k, n, a.open(k, n, c).value) {
      assert c == c[..GCM_TAG_SIZE] + c[GCM_TAG_SIZE..];
    }
    forall k, k', n, n', p, p' | a.seal(k, n, p) == a.seal(k', n', p') && |n| == NONCE_SIZE && |n'| == NONCE_SIZE
      ensures n == n' && Fit(k, 4) == Fit(k', 4)
    {
      assert Tag(k, n) == (Tag(k, n) + p)[..GCM_TAG_SIZE] == (Tag(k', n') + p')[..GCM_TAG_SIZE] == Tag(k', n');
      assert Fit(n, 12) == Tag(k, n)[..12] && Fit(k, 4) == Tag(k, n)[12..];
      assert Fit(n', 12) == Tag(k', n')[..12] && Fit(k', 4) == Tag(k', n')[12..];
    }
  }

  function SealWith(a: Aead, k: Keys, sequence: u64, plain: seq<byte>): seq<byte> {
    a.seal(k.masterKey, Nonce(k.masterSalt, sequence), plain)
  }

  function OpenWith(a: Aead, k: Keys, sequence: u64, cipher: seq<byte>): Option<seq<byte>> {
    a.open(k.masterKey, Nonce(k.masterSalt, sequence), cipher)
  }

  lemma OpensOwnSeal(a: Aead, k: Keys, sequence: u64, plain: seq<byte>)
    requires Lawful(a)
    ensures OpenWith(a, k, sequence, SealWith(a, k, sequence, plain)) == Some(plain)
  {
  }

  /** Whatever opens a sealed packet has its key and nonce, so its number too, and yields the sealed plaintext. */
  lemma OpensOnlyTheSealed(a: Aead, ks: set<seq<byte>>, k: Keys, k': Keys, s: u64, s': u64, plain: seq<byte>)
    requires Lawful(a) && NoCollision(a, ks) && k.masterKey in ks && k'.masterKey in ks
    requires OpenWith(a, k', s', SealWith(a, k, s, plain)).Some?
    ensures k'.masterKey == k.masterKey && OpenWith(a, k', s', SealWith(a, k, s, plain)) == Some(plain)
    ensures Nonce(k'.masterSalt, s') == Nonce(k.masterSalt, s) && (k'.masterSalt == k.masterSalt ==> s' == s)
  {
    if k'.masterSalt == k.masterSalt && Nonce(k'.masterSalt, s') == Nonce(k.masterSalt, s) { NonceInjective(k.masterSalt, s', s); }
    var c := SealWith(a, k, s, plain);
    var p' := OpenWith(a, k', s', c).value;
    assert c == a.seal(k'.masterKey, Nonce(k'.masterSalt, s'), p');
    assert c == a.seal(k.masterKey, Nonce(k.masterSalt, s), plain);
  }

  // ---- The client's session ----

  datatype Client = Client(ready: bool, current: Keys, previous: Option<Keys>, rotationTime: Time)

  const NO_KEYS: Keys :=
    DerivedKeys([0, 0, 0, 0, 0, 0, 0, 0, 0, 0, 0, 0, 0, 0, 0, 0], [0, 0, 0, 0, 0, 0, 0, 0, 0, 0, 0, 0, 0, 0])
  const NEW_CLIENT := Client(false, NO_KEYS, None, 0.0)

  function ClientInstall(c: Client, keys: Keys, now: Time): Client {
    if c.ready then Client(true, keys, Some(c.current), now)
    else Client(true, keys, c.previous, c.rotationTime)
  }

  /** decryptWith: an empty result stands for failure. */
  function DecryptWith(a: Aead, k: Keys, sequence: u64, cipher: seq<byte>): seq<byte> {
    if |cipher| < GCM_TAG_SIZE then []
    else match OpenWith(a, k, sequence, cipher)
      case Some(p) => p
      case None => []
  }

  /** The session after a decryption, which may discard the previous key, and its result. */
  function ClientDecrypt(a: Aead, c: Client, sequence: u64, cipher: seq<byte>, now: Time): (Client, seq<byte>) {
    if !c.ready then (c, [])
    else
      var r := DecryptWith(a, c.current, sequence, cipher);
      if r != [] then (c, r)
      else if c.previous.None? then (c, [])
      else if now - c.rotationTime < DUAL_KEY_WINDOW then
        (c, DecryptWith(a, c.previous.value, sequence, cipher))
      else (c.(previous := None), [])
  }

  class SrtpSession {
    var current: Keys
    var previous: Option<Keys>
    var rotationTime: Time
    var ready: bool

    function State(): Client
      reads this
    {
      Client(ready, current, previous, rotationTime)
    }

    constructor ()
      ensures State() == NEW_CLIENT
    {
      ready, current, previous, rotationTime := false, NO_KEYS, None, 0.0;
    }

    method Init(keys: Keys, now: Time) returns (ok: bool)
      modifies this
      ensures ok && State() == ClientInstall(old(State()), keys, now)
    {
      if ready {
        previous := Some(current);
        rotationTime := now;
      }
      current := keys;
      ready := true;
      return true;
    }

    method Encrypt(a: Aead, plain: seq<byte>, sequence: u64) returns (cipher: seq<byte>)
      ensures cipher == if ready then SealWith(a, current, sequence, plain) else []
    {
      if !ready { return []; }
      return SealWith(a, current, sequence, plain);
    }

    method Decrypt(a: Aead, cipher: seq<byte>, sequence: u64, now: Time) returns (plain: seq<byte>)
      modifies this
      ensures (State(), plain) == ClientDecrypt(a, old(State()), sequence, cipher, now)
      ensures ready == old(ready) && current == old(current) && rotationTime == old(rotationTime)
      ensures previous == if old(ready) && DecryptWith(a, old(current), sequence, cipher) == [] && now - old(rotationTime) >= 2.0
                          then None else old(previous)
    {
      if !ready { return []; }
      plain := DecryptWith(a, current, sequence, cipher);
      if plain != [] { return; }
      if previous.Some? {
        if now - rotationTime < DUAL_KEY_WINDOW {
          plain := DecryptWith(a, previous.value, sequence, cipher);
          if plain != [] { return; }
        } else {
          previous := None;
        }
      }
      return [];
    }
  }

  // ---- The server's session manager ----

  datatype Entry = Entry(current: Keys, previous: Option<(Keys, Time)>)

  function ServerInstall(e: Option<Entry>, keys: Keys, now: Time): Entry {
    match e
    case Some(entry) => Entry(keys, Some((entry.current, now)))
    case None => Entry(keys, None)
  }

  function ServerDecrypt(a: Aead, e: Option<Entry>, sequence: u64, cipher: seq<byte>, now: Time): Option<seq<byte>> {
    match e
    case None => None
    case Some(entry) =>
      var r := OpenWith(a, entry.current, sequence, cipher);
      if r.Some? then r
      else if entry.previous.Some? && now - entry.previous.value.1 < DUAL_KEY_WINDOW then
        OpenWith(a, entry.previous.value.0, sequence, cipher)
      else None
  }

  class SrtpSessionManager {
    var sessions: map<int, Entry>

    constructor ()
      ensures sessions == map[]
    {
      sessions := map[];
    }

    method SetSession(userId: int, keys: Keys, now: Time)
      modifies this
      ensures sessions == old(sessions)[userId := ServerInstall(Lookup(old(sessions), userId), keys, now)]
    {
      if userId in sessions {
        var entry := sessions[userId];
        sessions := sessions[userId := Entry(keys, Some((entry.current, now)))];
      } else {
        sessions := sessions[userId := Entry(keys, None)];
      }
    }

    method GetEncryptSession(userId: int) returns (keys: Option<Keys>)
      ensures keys == if userId in sessions then Some(sessions[userId].current) else None
    {
      if userId in sessions { return Some(sessions[userId].current); }
      return None;
    }

    method Decrypt(a: Aead, userId: int, cipher: seq<byte>, sequence: u64, now: Time) returns (r: Option<seq<byte>>)
      ensures r == ServerDecrypt(a, Lookup(sessions, userId), sequence, cipher, now)
    {
      if userId !in sessions { return None; }
      var entry := sessions[userId];
      r := OpenWith(a, entry.current, sequence, cipher);
      if r.Some? { return; }
      if entry.previous.Some? {
        var (prev, rotationTime) := entry.previous.value;
        if now - rotationTime < DUAL_KEY_WINDOW {
          return OpenWith(a, prev, sequence, cipher);
        }
      }
      return None;
    }

    method Remove(userId: int)
      modifies this
      ensures sessions == old(sessions) - {userId}
    {
      sessions := sessions - {userId};
    }
  }

  // ---- Both windows agree ----

  /** What happens to one user's session: keys are installed, packets arrive. */
  datatype Event = Install(keys: Keys, at: Time) | Packet(cipher: seq<byte>, sequence: u64, at: Time)

  function ClientStep(a: Aead, c: Client, e: Event): Client {
    match e
    case Install(keys, at) => ClientInstall(c, keys, at)
    case Packet(cipher, sequence, at) => ClientDecrypt(a, c, sequence, cipher, at).0
  }

  function ClientAfter(a: Aead, events: seq<Event>): Client {
    if events == [] then NEW_CLIENT
    else ClientStep(a, ClientAfter(a, events[..|events| - 1]), events[|events| - 1])
  }

  function ServerAfter(events: seq<Event>): Option<Entry> {
    if events == [] then None
    else
      var e, before := events[|events| - 1], ServerAfter(events[..|events| - 1]);
      if e.Install? then Some(ServerInstall(before, e.keys, e.at)) else before
  }

  /** The installs of a run, oldest first. */
  function Installs(events: seq<Event>): seq<(Keys, Time)> {
    if events == [] then []
    else
      var e, before := events[|events| - 1], Installs(events[..|events| - 1]);
      if e.Install? then before + [(e.keys, e.at)] else before
  }

  ghost predicate MonotoneUpTo(events: seq<Event>, now: Time) {
    && (forall i :: 0 <= i < |events| ==> events[i].at <= now)
    && (forall i, j :: 0 <= i < j < |events| ==> events[i].at <= events[j].at)
  }

  /**
   * The documented window, stated on the installs alone: the newest key always, the one before it
   * within two seconds of the last install, no other.
   */
  function Accepted(a: Aead, installs: seq<(Keys, Time)>, sequence: u64, cipher: seq<byte>, now: Time): Option<seq<byte>> {
    var n := |installs|;
    if n == 0 then None
    else
      var r := OpenWith(a, installs[n - 1].0, sequence, cipher);
      if r.Some? then r
      else if n >= 2 && now - installs[n - 1].1 < DUAL_KEY_WINDOW then OpenWith(a, installs[n - 2].0, sequence, cipher)
      else None
  }

  ghost predicate ServerMatches(e: Option<Entry>, installs: seq<(Keys, Time)>) {
    var n := |installs|;
    e == if n == 0 then None
         else Some(Entry(installs[n - 1].0, if n == 1 then None else Some((installs[n - 2].0, installs[n - 1].1))))
  }

  /** The client may have forgotten the previous key, but only once its window had passed. */
  ghost predicate ClientMatches(c: Client, installs: seq<(Keys, Time)>, now: Time) {
    var n := |installs|;
    && c.ready == (n > 0)
    && (n > 0 ==> c.current == installs[n - 1].0)
    && (n <= 1 ==> c.previous == None)
    && (n >= 2 ==>
          || (c.previous == Some(installs[n - 2].0) && c.rotationTime == installs[n - 1].1)
          || (c.previous == None && now - installs[n - 1].1 >= DUAL_KEY_WINDOW))
  }

  lemma {:induction false} ServerFollowsInstalls(events: seq<Event>)
    ensures ServerMatches(ServerAfter(events), Installs(events))
  {
    if events != [] { ServerFollowsInstalls(events[..|events| - 1]); }
  }

  lemma {:induction false} ClientFollowsInstalls(a: Aead, events: seq<Event>, now: Time)
    requires MonotoneUpTo(events, now)
    ensures ClientMatches(ClientAfter(a, events), Installs(events), now)
  {
    if events != [] {
      var before, e := events[..|events| - 1], events[|events| - 1];
      ClientFollowsInstalls(a, before, e.at);
    }
  }

  /** An empty plaintext is the only thing the client cannot tell from a failure. */
  function OrEmpty(r: Option<seq<byte>>): seq<byte> {
    match r case Some(p) => p case None => []
  }

  lemma TooShortNeverOpens(a: Aead, k: Keys, sequence: u64, cipher: seq<byte>)
    requires Lawful(a)
    ensures DecryptWith(a, k, sequence, cipher) == OrEmpty(OpenWith(a, k, sequence, cipher))
    ensures OpenWith(a, k, sequence, cipher).Some? ==>
              |cipher| == |OpenWith(a, k, sequence, cipher).value| + GCM_TAG_SIZE
  {
  }

  /**
   * After the same installs, with any packets and any pauses in between, client and server give
   * every packet the same answer, and it is the documented one.
   */
  lemma DualKeyWindowsAgree(a: Aead, events: seq<Event>, sequence: u64, cipher: seq<byte>, now: Time)
    requires Lawful(a) && MonotoneUpTo(events, now)
    ensures ServerDecrypt(a, ServerAfter(events), sequence, cipher, now)
         == Accepted(a, Installs(events), sequence, cipher, now)
    ensures ClientDecrypt(a, ClientAfter(a, events), sequence, cipher, now).1
         == OrEmpty(Accepted(a, Installs(events), sequence, cipher, now))
  {
    ServerFollowsInstalls(events);
    ClientFollowsInstalls(a, events, now);
    var installs := Installs(events);
    var n := |installs|;
    if n >= 1 { TooShortNeverOpens(a, installs[n - 1].0, sequence, cipher); }
    if n >= 2 { TooShortNeverOpens(a, installs[n - 2].0, sequence, cipher); }
  }

  ghost predicate DistinctKeys(installs: seq<(Keys, Time)>) {
    forall i, j :: 0 <= i < j < |installs| ==> installs[i].0.masterKey != installs[j].0.masterKey
  }

  ghost function MasterKeys(installs: seq<(Keys, Time)>): set<seq<byte>> {
    set i | 0 <= i < |installs| :: installs[i].0.masterKey
  }

  /** A packet sealed under generation i is opened exactly when i is the newest, or the one before it in time. */
  lemma GenerationIsAcceptedIff(a: Aead, installs: seq<(Keys, Time)>, i: nat, sequence: u64, plain: seq<byte>, now: Time)
    requires Lawful(a) && NoCollision(a, MasterKeys(installs)) && DistinctKeys(installs) && i < |installs|
    ensures
      var n := |installs|;
      Accepted(a, installs, sequence, SealWith(a, installs[i].0, sequence, plain), now)
      == if i == n - 1 || (i == n - 2 && now - installs[n - 1].1 < 2.0) then Some(plain) else None
  {
    var n := |installs|;
    var cipher := SealWith(a, installs[i].0, sequence, plain);
    OpensOwnSeal(a, installs[i].0, sequence, plain);
    forall j | 0 <= j < n && OpenWith(a, installs[j].0, sequence, cipher).Some? ensures j == i {
      OpensOnlyTheSealed(a, MasterKeys(installs), installs[i].0, installs[j].0, sequence, sequence, plain);
    }
  }

  /** Where the two sides differ: the server opens an empty plaintext, the client reports a failure. */
  lemma EmptyPlaintextIsLostOnTheClientOnly(a: Aead, events: seq<Event>, sequence: u64, now: Time)
    requires Lawful(a) && MonotoneUpTo(events, now) && Installs(events) != []
    ensures
      var cipher := SealWith(a, Installs(events)[|Installs(events)| - 1].0, sequence, []);
      && ServerDecrypt(a, ServerAfter(events), sequence, cipher, now) == Some([])
      && ClientDecrypt(a, ClientAfter(a, events), sequence, cipher, now).1 == []
  {
    var k := Installs(events)[|Installs(events)| - 1].0;
    DualKeyWindowsAgree(a, events, sequence, SealWith(a, k, sequence, []), now);
    OpensOwnSeal(a, k, sequence, []);
  }
}
