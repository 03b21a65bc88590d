/**
 * The playback mixer: one pass decodes the sources and finds the highest priority among them, a second
 * scales and sums them. The source computes with float; samples and gains here are reals.
 */
module Mixers {
  import opened Options

  const FRAMES_PER_BUFFER := 960
  const DEFAULT_PRIORITY := 5

  datatype Settings = Settings(volume: real, priority: int, muted: bool)

  const DEFAULT_SETTINGS := Settings(1.0, DEFAULT_PRIORITY, false)

  /** A source after its jitter buffer was popped: its channel, and the samples the decoder produced, if any. */
  datatype Source = Source(channelId: int, pcm: Option<seq<real>>)

  function SettingsOf(settings: map<int, Settings>, channelId: int): Settings {
    if channelId in settings then settings[channelId] else DEFAULT_SETTINGS
  }

  function ClampReal(x: real, lo: real, hi: real): (r: real)
    ensures lo <= hi ==> lo <= r <= hi && (r == x || (x < lo && r == lo) || (hi < x && r == hi))
  {
    if x < lo then lo else if hi < x then hi else x
  }

  function ClampInt(x: int, lo: int, hi: int): (r: int)
    ensures lo <= hi ==> lo <= r <= hi && (r == x || (x < lo && r == lo) || (hi < x && r == hi))
  {
    if x < lo then lo else if hi < x then hi else x
  }

  /** What the setters keep: volumes in [0, 1] and priorities in 1..10. */
  predicate ValidSettings(settings: map<int, Settings>) {
    forall c :: c in settings ==> 0.0 <= settings[c].volume <= 1.0 && 1 <= settings[c].priority <= 10
  }

  /** A source takes part when it popped a frame, is not muted and decoded at least one sample. */
  predicate Active(settings: map<int, Settings>, s: Source) {
    s.pcm.Some? && !SettingsOf(settings, s.channelId).muted && |s.pcm.value| > 0
  }

  // ---- Specification ----

  ghost predicate Ducked(settings: map<int, Settings>, duckingOn: bool, sources: seq<Source>, s: Source) {
    && duckingOn
    && exists t :: t in sources && Active(settings, t) &&
                   SettingsOf(settings, t.channelId).priority < SettingsOf(settings, s.channelId).priority
  }

  /** A source's gain: its channel's volume, times the duck level when a more urgent one is active. */
  ghost function Gain(settings: map<int, Settings>, duckingOn: bool, duckLevel: real,
                      sources: seq<Source>, s: Source): real {
    SettingsOf(settings, s.channelId).volume * if Ducked(settings, duckingOn, sources, s) then duckLevel else 1.0
  }

  /** What a source adds to sample i. */
  ghost function Contribution(settings: map<int, Settings>, duckingOn: bool, duckLevel: real,
                              sources: seq<Source>, s: Source, i: nat): real {
    if Active(settings, s) && i < |s.pcm.value|
    then s.pcm.value[i] * Gain(settings, duckingOn, duckLevel, sources, s) else 0.0
  }

  ghost function SumOf(settings: map<int, Settings>, duckingOn: bool, duckLevel: real,
                       all: seq<Source>, part: seq<Source>, i: nat): real {
    if part == [] then 0.0
    else SumOf(settings, duckingOn, duckLevel, all, part[..|part| - 1], i)
         + Contribution(settings, duckingOn, duckLevel, all, part[|part| - 1], i)
  }

  /** Sample i of the mix of all sources. */
  ghost function MixAt(settings: map<int, Settings>, duckingOn: bool, duckLevel: real,
                       sources: seq<Source>, i: nat): real {
    SumOf(settings, duckingOn, duckLevel, sources, sources, i)
  }

  // ---- The session's settings and its two-pass loop ----

  /** What the first pass keeps of a prefix of the sources. */
  function DecodedOf(settings: map<int, Settings>, sources: seq<Source>): seq<Source> {
    if sources == [] then []
    else
      var before, s := DecodedOf(settings, sources[..|sources| - 1]), sources[|sources| - 1];
      if Active(settings, s) then before + [s] else before
  }

  class VoiceSession {
    var channelSettings: map<int, Settings>
    var duckingEnabled: bool
    var duckLevel: real

    constructor ()
      ensures ValidSettings(channelSettings) && channelSettings == map[]
      ensures duckingEnabled && duckLevel == 0.3
    {
      channelSettings, duckingEnabled, duckLevel := map[], true, 0.3;
    }

    method SetChannelVolume(c: int, volume: real)
      requires ValidSettings(channelSettings)
      modifies this`channelSettings
      ensures ValidSettings(channelSettings)
      ensures channelSettings == old(channelSettings)[c := SettingsOf(old(channelSettings), c).(volume := ClampReal(volume, 0.0, 1.0))]
    {
      channelSettings := channelSettings[c := SettingsOf(channelSettings, c).(volume := ClampReal(volume, 0.0, 1.0))];
    }

    method SetChannelPriority(c: int, priority: int)
      requires ValidSettings(channelSettings)
      modifies this`channelSettings
      ensures ValidSettings(channelSettings)
      ensures channelSettings == old(channelSettings)[c := SettingsOf(old(channelSettings), c).(priority := ClampInt(priority, 1, 10))]
    {
      channelSettings := channelSettings[c := SettingsOf(channelSettings, c).(priority := ClampInt(priority, 1, 10))];
    }

    method SetChannelMuted(c: int, muted: bool)
      requires ValidSettings(channelSettings)
      modifies this`channelSettings
      ensures ValidSettings(channelSettings)
      ensures channelSettings == old(channelSettings)[c := SettingsOf(old(channelSettings), c).(muted := muted)]
    {
      channelSettings := channelSettings[c := SettingsOf(channelSettings, c).(muted := muted)];
    }

    method RemoveChannelSettings(c: int)
      requires ValidSettings(channelSettings)
      modifies this`channelSettings
      ensures ValidSettings(channelSettings) && channelSettings == old(channelSettings) - {c}
    {
      channelSettings := channelSettings - {c};
    }

    /** First pass: the sources that take part, and the smallest priority number among them. */
    method DecodeAll(sources: seq<Source>) returns (decoded: seq<Source>, highest: int)
      ensures decoded == DecodedOf(channelSettings, sources)
      ensures decoded == [] ==> highest == 999
      ensures forall t :: t in decoded ==> highest <= SettingsOf(channelSettings, t.channelId).priority
      ensures highest == 999 || exists t :: t in decoded && SettingsOf(channelSettings, t.channelId).priority == highest
    {
      decoded, highest := [], 999;
      for k := 0 to |sources|
        invariant decoded == DecodedOf(channelSettings, sources[..k])
        invariant decoded == [] ==> highest == 999
        invariant forall t :: t in decoded ==> highest <= SettingsOf(channelSettings, t.channelId).priority
        invariant highest == 999 ||
                  exists t :: t in decoded && SettingsOf(channelSettings, t.channelId).priority == highest
      {
        assert sources[..k + 1][..k] == sources[..k];
        var s := sources[k];
        if s.pcm.None? { continue; }
        if s.channelId in channelSettings && channelSettings[s.channelId].muted { continue; }
        if |s.pcm.value| <= 0 { continue; }
        var priority := DEFAULT_PRIORITY;
        if s.channelId in channelSettings { priority := channelSettings[s.channelId].priority; }
        if priority < highest { highest := priority; }
        decoded := decoded + [s];
      }
      assert sources[..|sources|] == sources;
    }

    /** Adds one source's samples to the mix, in place. */
    static method AddSamples(mixed: array<real>, pcm: seq<real>, volume: real)
      modifies mixed
      ensures forall i :: 0 <= i < mixed.Length ==>
                mixed[i] == old(mixed[i]) + if i < |pcm| then pcm[i] * volume else 0.0
    {
      var i := 0;
      while i < |pcm| && i < mixed.Length
        invariant 0 <= i <= |pcm| && i <= mixed.Length
        invariant forall j :: 0 <= j < mixed.Length ==>
                    mixed[j] == old(mixed[j]) + if j < i then pcm[j] * volume else 0.0
      {
        mixed[i] := mixed[i] + pcm[i] * volume;
        i := i + 1;
      }
    }

    /** The gain of one decoded source in the second pass. */
    method GainOf(ds: Source, highest: int) returns (volume: real)
      ensures volume == SettingsOf(channelSettings, ds.channelId).volume
                        * if duckingEnabled && SettingsOf(channelSettings, ds.channelId).priority > highest
                          then duckLevel else 1.0
    {
      var priority := DEFAULT_PRIORITY;
      volume := 1.0;
      if ds.channelId in channelSettings {
        volume, priority := channelSettings[ds.channelId].volume, channelSettings[ds.channelId].priority;
      }
      if duckingEnabled && priority > highest {
        volume := volume * duckLevel;
      }
    }

    /** Second pass: scales and sums the decoded sources. */
    method MixDecoded(ghost sources: seq<Source>, decoded: seq<Source>, highest: int, mixed: array<real>)
      requires mixed.Length == FRAMES_PER_BUFFER && forall i :: 0 <= i < mixed.Length ==> mixed[i] == 0.0
      requires forall s :: s in decoded ==>
                 Active(channelSettings, s) &&
                 (Ducked(channelSettings, duckingEnabled, sources, s) <==>
                  duckingEnabled && SettingsOf(channelSettings, s.channelId).priority > highest)
      modifies mixed
      ensures forall i :: 0 <= i < FRAMES_PER_BUFFER ==>
                mixed[i] == SumOf(channelSettings, duckingEnabled, duckLevel, sources, decoded, i)
    {
      for k := 0 to |decoded|
        invariant forall i :: 0 <= i < FRAMES_PER_BUFFER ==>
                    mixed[i] == SumOf(channelSettings, duckingEnabled, duckLevel, sources, decoded[..k], i)
      {
        assert decoded[..k + 1][..k] == decoded[..k];
        var ds := decoded[k];
        assert ds in decoded;
        var volume := GainOf(ds, highest);
        assert volume == Gain(channelSettings, duckingEnabled, duckLevel, sources, ds);
        AddSamples(mixed, ds.pcm.value, volume);
      }
      assert decoded[..|decoded|] == decoded;
    }

    /** Both passes: every sample of the frame is the specified mix. */
    method MixFrame(sources: seq<Source>) returns (mixed: array<real>, hasAudio: bool)
      requires ValidSettings(channelSettings)
      ensures fresh(mixed) && mixed.Length == 960
      ensures forall i :: 0 <= i < 960 ==>
                mixed[i] == MixAt(channelSettings, duckingEnabled, duckLevel, sources, i)
      ensures hasAudio <==> exists s :: s in sources && s.pcm.Some? && s.pcm.value != []
                                        && !(s.channelId in channelSettings && channelSettings[s.channelId].muted)
    {
      mixed := new real[FRAMES_PER_BUFFER](_ => 0.0);
      var decoded, highest := DecodeAll(sources);
      DecodedAreActive(channelSettings, sources);
      forall s | s in decoded
        ensures Ducked(channelSettings, duckingEnabled, sources, s) <==>
                duckingEnabled && SettingsOf(channelSettings, s.channelId).priority > highest
      {
        DuckedIff(channelSettings, duckingEnabled, sources, decoded, highest, s);
      }
      MixDecoded(sources, decoded, highest, mixed);
      forall i | 0 <= i < FRAMES_PER_BUFFER
        ensures mixed[i] == MixAt(channelSettings, duckingEnabled, duckLevel, sources, i)
      {
        InactiveAddNothing(channelSettings, duckingEnabled, duckLevel, sources, sources, i);
      }
      hasAudio := decoded != [];
      if decoded != [] { assert decoded[0] in decoded; }
    }
  }

  lemma {:induction false} DecodedAreActive(settings: map<int, Settings>, sources: seq<Source>)
    ensures forall s :: s in DecodedOf(settings, sources) <==> s in sources && Active(settings, s)
  {
    if sources != [] {
      var init, last := sources[..|sources| - 1], sources[|sources| - 1];
      assert sources == init + [last];
      DecodedAreActive(settings, init);
    }
  }

  /** Comparing with the smallest active priority finds exactly the ducked sources. */
  lemma DuckedIff(settings: map<int, Settings>, duckingOn: bool, sources: seq<Source>, decoded: seq<Source>,
                  highest: int, s: Source)
    requires forall t :: t in decoded <==> t in sources && Active(settings, t)
    requires forall t :: t in decoded ==> highest <= SettingsOf(settings, t.channelId).priority
    requires highest == 999 || exists t :: t in decoded && SettingsOf(settings, t.channelId).priority == highest
    requires ValidSettings(settings) && s in decoded
    ensures Ducked(settings, duckingOn, sources, s) <==> duckingOn && SettingsOf(settings, s.channelId).priority > highest
  {
    assert SettingsOf(settings, s.channelId).priority <= 10;
  }

  lemma {:induction false} InactiveAddNothing(settings: map<int, Settings>, duckingOn: bool, duckLevel: real,
                                              all: seq<Source>, part: seq<Source>, i: nat)
    ensures SumOf(settings, duckingOn, duckLevel, all, part, i)
         == SumOf(settings, duckingOn, duckLevel, all, DecodedOf(settings, part), i)
  {
    if part != [] {
      var init, last := part[..|part| - 1], part[|part| - 1];
      InactiveAddNothing(settings, duckingOn, duckLevel, all, init, i);
      var d := DecodedOf(settings, init);
      assert (d + [last])[..|d|] == d;
    }
  }

  // ---- What the specification means ----

  /** If any source is active, some active source plays at its full volume. */
  lemma SomeSourceIsUnducked(settings: map<int, Settings>, duckingOn: bool, sources: seq<Source>)
    requires exists s :: s in sources && Active(settings, s)
    ensures exists s :: s in sources && Active(settings, s) && !Ducked(settings, duckingOn, sources, s)
  {
    var s :| s in sources && Active(settings, s);
    var m := MostUrgent(settings, sources, s);
    assert !Ducked(settings, duckingOn, sources, m);
  }

  lemma {:induction false} MostUrgent(settings: map<int, Settings>, sources: seq<Source>, s: Source) returns (m: Source)
    requires s in sources && Active(settings, s)
    ensures m in sources && Active(settings, m)
    ensures forall t :: t in sources && Active(settings, t) ==>
                          SettingsOf(settings, m.channelId).priority <= SettingsOf(settings, t.channelId).priority
  {
    var init, last := sources[..|sources| - 1], sources[|sources| - 1];
    assert sources == init + [last];
    if exists t :: t in init && Active(settings, t) {
      var t :| t in init && Active(settings, t);
      m := MostUrgent(settings, init, t);
      if Active(settings, last) &&
         SettingsOf(settings, last.channelId).priority < SettingsOf(settings, m.channelId).priority {
        m := last;
      }
    } else {
      m := s;
      assert s == last;
    }
  }

  /** A source that is muted, or produced nothing, neither sounds nor ducks: it may as well not be there. */
  lemma InactiveSourceIsIrrelevant(settings: map<int, Settings>, duckingOn: bool, duckLevel: real,
                                   sources: seq<Source>, s: Source, i: nat)
    requires !Active(settings, s)
    ensures MixAt(settings, duckingOn, duckLevel, sources + [s], i) == MixAt(settings, duckingOn, duckLevel, sources, i)
  {
    assert (sources + [s])[..|sources|] == sources;
    forall t ensures Ducked(settings, duckingOn, sources + [s], t) <==> Ducked(settings, duckingOn, sources, t) { }
    SameDuckersSameSum(settings, duckingOn, duckLevel, sources + [s], sources, sources, i);
  }

  lemma {:induction false} SameDuckersSameSum(settings: map<int, Settings>, duckingOn: bool, duckLevel: real,
                                              all: seq<Source>, all': seq<Source>, part: seq<Source>, i: nat)
    requires forall s :: s in part ==> (Ducked(settings, duckingOn, all, s) <==> Ducked(settings, duckingOn, all', s))
    ensures SumOf(settings, duckingOn, duckLevel, all, part, i) == SumOf(settings, duckingOn, duckLevel, all', part, i)
  {
    if part != [] { SameDuckersSameSum(settings, duckingOn, duckLevel, all, all', part[..|part| - 1], i); }
  }

  lemma {:induction false} SumWithout(settings: map<int, Settings>, duckingOn: bool, duckLevel: real,
                                      all: seq<Source>, part: seq<Source>, k: nat, i: nat)
    requires k < |part|
    ensures SumOf(settings, duckingOn, duckLevel, all, part, i)
         == SumOf(settings, duckingOn, duckLevel, all, part[..k] + part[k + 1..], i)
            + Contribution(settings, duckingOn, duckLevel, all, part[k], i)
  {
    var n := |part| - 1;
    var rest := part[..k] + part[k + 1..];
    if k == n {
      assert rest == part[..n];
    } else {
      SumWithout(settings, duckingOn, duckLevel, all, part[..n], k, i);
      assert part[..n][..k] + part[..n][k + 1..] == rest[..|rest| - 1];
    }
  }

  lemma Cancel<T>(x: multiset<T>, y: multiset<T>, z: multiset<T>)
    requires x + z == y + z
    ensures x == y
  {
    assert x == (x + z) - z && y == (y + z) - z;
  }

  lemma SplitAt<T>(b: seq<T>, k: nat)
    requires k < |b|
    ensures multiset(b) == multiset(b[..k] + b[k + 1..]) + multiset{b[k]}
  {
    assert b == b[..k] + [b[k]] + b[k + 1..];
  }

  lemma RemoveSame<T>(a: seq<T>, b: seq<T>, k: nat)
    requires a != [] && multiset(a) == multiset(b) && k < |b| && b[k] == a[|a| - 1]
    ensures multiset(a[..|a| - 1]) == multiset(b[..k] + b[k + 1..])
  {
    SplitAt(a, |a| - 1);
    SplitAt(b, k);
    assert a[..|a| - 1] + a[|a|..] == a[..|a| - 1];
    Cancel(multiset(a[..|a| - 1]), multiset(b[..k] + b[k + 1..]), multiset{b[k]});
  }

  lemma {:induction false} SumOfPermutation(settings: map<int, Settings>, duckingOn: bool, duckLevel: real,
                                            all: seq<Source>, a: seq<Source>, b: seq<Source>, i: nat)
    requires multiset(a) == multiset(b)
    ensures SumOf(settings, duckingOn, duckLevel, all, a, i) == SumOf(settings, duckingOn, duckLevel, all, b, i)
    decreases |a|
  {
    if a == [] {
      assert |multiset(b)| == 0;
    } else {
      assert a[|a| - 1] in multiset(b);
      var k :| 0 <= k < |b| && b[k] == a[|a| - 1];
      RemoveSame(a, b, k);
      SumOfPermutation(settings, duckingOn, duckLevel, all, a[..|a| - 1], b[..k] + b[k + 1..], i);
      SumWithout(settings, duckingOn, duckLevel, all, b, k, i);
    }
  }

  /** The mix does not depend on the order in which the sources are visited. */
  lemma MixIsOrderIndependent(settings: map<int, Settings>, duckingOn: bool, duckLevel: real,
                              a: seq<Source>, b: seq<Source>, i: nat)
    requires multiset(a) == multiset(b)
    ensures MixAt(settings, duckingOn, duckLevel, a, i) == MixAt(settings, duckingOn, duckLevel, b, i)
  {
    SumOfPermutation(settings, duckingOn, duckLevel, a, a, b, i);
    forall t ensures t in a <==> t in b {
      assert t in multiset(a) <==> t in multiset(b);
    }
    forall t ensures Ducked(settings, duckingOn, a, t) <==> Ducked(settings, duckingOn, b, t) { }
    SameDuckersSameSum(settings, duckingOn, duckLevel, a, b, b, i);
  }

  // ---- How much each source adds ----

  /** Where no source that takes part has a sample other than zero, the mix is zero. */
  lemma {:induction false} SilenceMixesToZero(settings: map<int, Settings>, duckingOn: bool, duckLevel: real,
                                              all: seq<Source>, part: seq<Source>, i: nat)
    requires forall s :: s in part ==> s.pcm.None? || i >= |s.pcm.value| || s.pcm.value[i] == 0.0
                                       || (s.channelId in settings && settings[s.channelId].muted)
    ensures SumOf(settings, duckingOn, duckLevel, all, part, i) == 0.0
  {
    if part != [] {
      assert part[|part| - 1] in part;
      SilenceMixesToZero(settings, duckingOn, duckLevel, all, part[..|part| - 1], i);
    }
  }

  lemma SameChannelSameDuckers(settings: map<int, Settings>, duckingOn: bool, sources: seq<Source>, k: nat, s': Source, s: Source)
    requires k < |sources| && s'.channelId == sources[k].channelId
    requires Active(settings, sources[k]) && Active(settings, s')
    ensures Ducked(settings, duckingOn, sources, s) <==> Ducked(settings, duckingOn, sources[k := s'], s)
  {
    if Ducked(settings, duckingOn, sources, s) {
      var t :| t in sources && Active(settings, t) &&
               SettingsOf(settings, t.channelId).priority < SettingsOf(settings, s.channelId).priority;
      var n :| 0 <= n < |sources| && sources[n] == t;
      assert sources[k := s'][n] == if n == k then s' else t;
    }
    if Ducked(settings, duckingOn, sources[k := s'], s) {
      var t :| t in sources[k := s'] && Active(settings, t) &&
               SettingsOf(settings, t.channelId).priority < SettingsOf(settings, s.channelId).priority;
      var n :| 0 <= n < |sources| && sources[k := s'][n] == t;
      assert sources[n] == if n == k then sources[k] else t;
    }
  }

  /** Changing one source's samples changes the mix only by what that source adds. */
  lemma ChangeOfSource(settings: map<int, Settings>, duckingOn: bool, duckLevel: real, sources: seq<Source>, k: nat, s': Source, i: nat)
    requires k < |sources| && s'.channelId == sources[k].channelId
    requires Active(settings, sources[k]) && Active(settings, s')
    ensures MixAt(settings, duckingOn, duckLevel, sources, i)
            - Contribution(settings, duckingOn, duckLevel, sources, sources[k], i)
         == MixAt(settings, duckingOn, duckLevel, sources[k := s'], i)
            - Contribution(settings, duckingOn, duckLevel, sources[k := s'], s', i)
  {
    var changed := sources[k := s'];
    var rest := sources[..k] + sources[k + 1..];
    SumWithout(settings, duckingOn, duckLevel, sources, sources, k, i);
    SumWithout(settings, duckingOn, duckLevel, changed, changed, k, i);
    assert changed[..k] + changed[k + 1..] == rest;
    forall t ensures Ducked(settings, duckingOn, sources, t) <==> Ducked(settings, duckingOn, changed, t) {
      SameChannelSameDuckers(settings, duckingOn, sources, k, s', t);
    }
    SameDuckersSameSum(settings, duckingOn, duckLevel, sources, changed, rest, i);
  }

  /** What it adds is its sample times a gain that the samples do not change. */
  lemma ContributionIsScaled(settings: map<int, Settings>, duckingOn: bool, duckLevel: real, sources: seq<Source>, k: nat, s': Source, i: nat)
    requires k < |sources| && s'.channelId == sources[k].channelId
    requires Active(settings, sources[k]) && Active(settings, s') && i < |sources[k].pcm.value| == |s'.pcm.value|
    ensures Contribution(settings, duckingOn, duckLevel, sources, sources[k], i)
         == sources[k].pcm.value[i] * Gain(settings, duckingOn, duckLevel, sources, sources[k])
    ensures Contribution(settings, duckingOn, duckLevel, sources[k := s'], s', i)
         == s'.pcm.value[i] * Gain(settings, duckingOn, duckLevel, sources, sources[k])
  {
    SameChannelSameDuckers(settings, duckingOn, sources, k, s', s');
    assert Ducked(settings, duckingOn, sources, s') <==> Ducked(settings, duckingOn, sources, sources[k]);
  }

  lemma GainIs(settings: map<int, Settings>, duckingOn: bool, duckLevel: real, sources: seq<Source>, s: Source)
    ensures
      var volume := if s.channelId in settings then settings[s.channelId].volume else 1.0;
      Gain(settings, duckingOn, duckLevel, sources, s) == volume * if IsOutranked(settings, duckingOn, sources, s) then duckLevel else 1.0
  {
    assert Ducked(settings, duckingOn, sources, s) <==> IsOutranked(settings, duckingOn, sources, s);
  }

  /**
   * Each source that takes part enters the mix in proportion to its own samples: if they are changed, the
   * mix changes by the difference, times the volume of its channel, times the duck level exactly when
   * another source that takes part is on a channel of more urgent priority. A channel without settings has
   * volume 1 and priority 5.
   */
  lemma MixIsLinear(settings: map<int, Settings>, duckingOn: bool, duckLevel: real, sources: seq<Source>, k: nat, pcm: seq<real>, i: nat)
    requires k < |sources| && sources[k].pcm.Some? && i < |sources[k].pcm.value| == |pcm|
    requires sources[k].channelId in settings ==> !settings[sources[k].channelId].muted
    ensures
      var c := sources[k].channelId;
      var volume := if c in settings then settings[c].volume else 1.0;
      MixAt(settings, duckingOn, duckLevel, sources, i)
      == MixAt(settings, duckingOn, duckLevel, sources[k := Source(c, Some(pcm))], i)
         + (sources[k].pcm.value[i] - pcm[i])
           * (volume * if IsOutranked(settings, duckingOn, sources, sources[k]) then duckLevel else 1.0)
  {
    var s, s' := sources[k], Source(sources[k].channelId, Some(pcm));
    ChangeOfSource(settings, duckingOn, duckLevel, sources, k, s', i);
    ContributionIsScaled(settings, duckingOn, duckLevel, sources, k, s', i);
    GainIs(settings, duckingOn, duckLevel, sources, s);
    DifferenceOfProducts(s.pcm.value[i], pcm[i], Gain(settings, duckingOn, duckLevel, sources, s));
  }

  /** Some unmuted source with samples is on a channel with a smaller priority number than s's. */
  ghost predicate IsOutranked(settings: map<int, Settings>, duckingOn: bool, sources: seq<Source>, s: Source) {
    && duckingOn
    && exists t ::
         && t in sources && t.pcm.Some? && t.pcm.value != []
         && (t.channelId in settings ==> !settings[t.channelId].muted)
         && (if t.channelId in settings then settings[t.channelId].priority else 5)
            < (if s.channelId in settings then settings[s.channelId].priority else 5)
  }

  lemma DifferenceOfProducts(x: real, y: real, g: real)
    ensures x * g == y * g + (x - y) * g
  {
  }
}
