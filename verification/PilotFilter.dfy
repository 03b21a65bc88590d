/**
 * The pilot voice filter of the receive path: three biquads, a tanh shaper and a compressor. The
 * source computes with float; samples are reals here, and the libm calls are functions with laws.
 */
module PilotFilters {

  const SAT_DRIVE: real := 1.5
  const THRESHOLD_DB: real := -24.0
  const RATIO: real := 5.0
  const NUM_FILTERS := 3

  datatype Math = Math(tanh: real -> real, log10: real -> real, pow10: real -> real)

  ghost predicate Lawful(m: Math) {
    && (forall x :: -1.0 < m.tanh(x) < 1.0)
    && (forall x :: m.pow10(x) > 0.0) && m.pow10(0.0) == 1.0
    && (forall x, y :: x <= y ==> m.pow10(x) <= m.pow10(y))
    && (forall x :: 0.0 < x <= 1.0 ==> m.log10(x) <= 0.0)
  }

  datatype Coefficients = Coefficients(b0: real, b1: real, b2: real, a1: real, a2: real)

  datatype Line = Line(x1: real, x2: real, y1: real, y2: real)

  /** One value for each biquad, in chain order. */
  datatype Stages<T> = Stages(peak: T, highPass: T, lowPass: T) {
    function At(idx: nat): T
      requires idx < NUM_FILTERS
    {
      if idx == 0 then peak else if idx == 1 then highPass else lowPass
    }
  }

  datatype Config = Config(math: Math, filters: Stages<Coefficients>, attack: real, release: real)

  ghost predicate ValidConfig(c: Config) {
    Lawful(c.math) && 0.0 < c.attack < 1.0 && 0.0 < c.release < 1.0
  }

  datatype State = State(lines: Stages<Line>, envelope: real, gain: real)

  const SILENT_LINE := Line(0.0, 0.0, 0.0, 0.0)
  const RESET := State(Stages(SILENT_LINE, SILENT_LINE, SILENT_LINE), 0.0, 1.0)

  function Abs(x: real): real {
    if x < 0.0 then -x else x
  }

  function Biquad(c: Coefficients, l: Line, x: real): real {
    c.b0 * x + c.b1 * l.x1 + c.b2 * l.x2 - c.a1 * l.y1 - c.a2 * l.y2
  }

  function Shift(l: Line, x: real, y: real): Line {
    Line(x, l.x1, y, l.y1)
  }

  function Saturated(m: Math, x: real): real {
    m.tanh(SAT_DRIVE * x) / SAT_DRIVE
  }

  /** One step of a one-pole smoother. */
  function Mean(w: real, a: real, b: real): real {
    w * a + (1.0 - w) * b
  }

  function Envelope(c: Config, envelope: real, x: real): real {
    Mean(if Abs(x) > envelope then c.attack else c.release, envelope, Abs(x))
  }

  function TargetGain(m: Math, envelope: real): real {
    var levelDb := 20.0 * m.log10(envelope + 0.000000001);
    var gainDb := if levelDb > THRESHOLD_DB then (THRESHOLD_DB - levelDb) * (1.0 - 1.0 / RATIO) else 0.0;
    m.pow10(gainDb / 20.0)
  }

  function Gain(c: Config, gain: real, target: real): real {
    Mean(if target < gain then c.attack else c.release, gain, target)
  }

  function Scaled(x: real, gain: real): real {
    x * gain
  }

  /** One sample through the three biquads. */
  function Equalized(c: Config, lines: Stages<Line>, x: real): (Stages<Line>, real) {
    var y0 := Biquad(c.filters.peak, lines.peak, x);
    var y1 := Biquad(c.filters.highPass, lines.highPass, y0);
    var y2 := Biquad(c.filters.lowPass, lines.lowPass, y1);
    (Stages(Shift(lines.peak, x, y0), Shift(lines.highPass, y0, y1), Shift(lines.lowPass, y1, y2)), y2)
  }

  /** Shaper and compressor on one equalized sample. */
  function Levelled(c: Config, envelope: real, gain: real, y: real): (real, real, real) {
    var v := Saturated(c.math, y);
    var envelope' := Envelope(c, envelope, v);
    var gain' := Gain(c, gain, TargetGain(c.math, envelope'));
    (envelope', gain', Scaled(v, gain'))
  }

  /** One sample through the whole chain. */
  function Sample(c: Config, s: State, x: real): (State, real) {
    var (lines, y) := Equalized(c, s.lines, x);
    var (envelope, gain, out) := Levelled(c, s.envelope, s.gain, y);
    (State(lines, envelope, gain), out)
  }

  function Chain(c: Config): (State, real) -> (State, real) {
    (s, x) => Sample(c, s, x)
  }

  // ---- Streams through any sample-by-sample processor ----

  function StateAfter<S>(f: (S, real) -> (S, real), s: S, xs: seq<real>): S {
    if xs == [] then s else f(StateAfter(f, s, xs[..|xs| - 1]), xs[|xs| - 1]).0
  }

  function Output<S>(f: (S, real) -> (S, real), s: S, xs: seq<real>): (ys: seq<real>)
    ensures |ys| == |xs|
  {
    if xs == [] then []
    else
      var before := xs[..|xs| - 1];
      Output(f, s, before) + [f(StateAfter(f, s, before), xs[|xs| - 1]).1]
  }

  lemma Append<S>(f: (S, real) -> (S, real), s: S, xs: seq<real>, x: real)
    ensures StateAfter(f, s, xs + [x]) == f(StateAfter(f, s, xs), x).0
    ensures Output(f, s, xs + [x]) == Output(f, s, xs) + [f(StateAfter(f, s, xs), x).1]
  {
    assert (xs + [x])[..|xs|] == xs;
  }

  lemma Advance<S>(f: (S, real) -> (S, real), s: S, xs: seq<real>, i: nat)
    requires i < |xs|
    ensures StateAfter(f, s, xs[..i + 1]) == f(StateAfter(f, s, xs[..i]), xs[i]).0
    ensures Output(f, s, xs[..i + 1]) == Output(f, s, xs[..i]) + [f(StateAfter(f, s, xs[..i]), xs[i]).1]
  {
    assert xs[..i + 1] == xs[..i] + [xs[i]];
    Append(f, s, xs[..i], xs[i]);
  }

  /** Processing a stream in chunks, cut anywhere, gives the same samples and the same state. */
  lemma {:induction false} ChunksDoNotMatter<S>(f: (S, real) -> (S, real), s: S, xs: seq<real>, ys: seq<real>)
    ensures StateAfter(f, s, xs + ys) == StateAfter(f, StateAfter(f, s, xs), ys)
    ensures Output(f, s, xs + ys) == Output(f, s, xs) + Output(f, StateAfter(f, s, xs), ys)
    decreases |ys|
  {
    if ys == [] {
      assert xs + ys == xs;
    } else {
      var n := |ys| - 1;
      ChunksDoNotMatter(f, s, xs, ys[..n]);
      assert xs + ys == (xs + ys[..n]) + [ys[n]];
      Append(f, s, xs + ys[..n], ys[n]);
    }
  }

  class PilotFilter {
    const config: Config
    const lines: array<Line>
    var envelope: real
    var gain: real

    predicate Valid()
      reads this, lines
    {
      lines.Length == NUM_FILTERS
    }

    function Lines(): Stages<Line>
      reads this, lines
      requires Valid()
    {
      Stages(lines[0], lines[1], lines[2])
    }

    function Value(): State
      reads this, lines
      requires Valid()
    {
      State(Lines(), envelope, gain)
    }

    constructor (config: Config)
      ensures Valid() && this.config == config && Value() == RESET && fresh(lines)
    {
      this.config := config;
      lines := new Line[NUM_FILTERS](_ => SILENT_LINE);
      envelope, gain := 0.0, 1.0;
    }

    method Reset()
      requires Valid()
      modifies this, lines
      ensures Valid() && Value() == RESET
    {
      for i := 0 to NUM_FILTERS
        invariant Valid() && forall j :: 0 <= j < i ==> lines[j] == SILENT_LINE
      {
        lines[i] := SILENT_LINE;
      }
      envelope, gain := 0.0, 1.0;
    }

    method ApplyBiquad(x: real, idx: nat) returns (y: real)
      requires Valid() && idx < NUM_FILTERS
      modifies lines
      ensures Valid() && y == Biquad(config.filters.At(idx), old(lines[idx]), x)
      ensures forall j :: 0 <= j < NUM_FILTERS ==> lines[j] == if j == idx then Shift(old(lines[j]), x, y) else old(lines[j])
    {
      var c, l := config.filters.At(idx), lines[idx];
      y := c.b0 * x + c.b1 * l.x1 + c.b2 * l.x2 - c.a1 * l.y1 - c.a2 * l.y2;
      lines[idx] := Line(x, l.x1, y, l.y1);
    }

    method ApplyCompressor(x: real) returns (y: real)
      requires Valid()
      modifies this
      ensures Valid() && envelope == Envelope(config, old(envelope), x)
      ensures gain == Gain(config, old(gain), TargetGain(config.math, envelope)) && y == Scaled(x, gain)
    {
      var level := Abs(x);
      var coef := if level > envelope then config.attack else config.release;
      envelope := coef * envelope + (1.0 - coef) * level;
      var levelDb := 20.0 * config.math.log10(envelope + 0.000000001);
      var gainDb := 0.0;
      if levelDb > THRESHOLD_DB {
        gainDb := (THRESHOLD_DB - levelDb) * (1.0 - 1.0 / RATIO);
      }
      var target := config.math.pow10(gainDb / 20.0);
      var gCoef := if target < gain then config.attack else config.release;
      gain := gCoef * gain + (1.0 - gCoef) * target;
      y := x * gain;
    }

    method ApplyFilters(x: real) returns (y: real)
      requires Valid()
      modifies lines
      ensures Valid() && (Lines(), y) == Equalized(config, old(Lines()), x)
    {
      y := ApplyBiquad(x, 0);
      y := ApplyBiquad(y, 1);
      y := ApplyBiquad(y, 2);
    }

    method ProcessSample(x: real) returns (y: real)
      requires Valid()
      modifies this, lines
      ensures Valid() && (Value(), y) == Sample(config, old(Value()), x)
    {
      y := ApplyFilters(x);
      y := Saturated(config.math, y);
      y := ApplyCompressor(y);
    }

    /** Rewrites the buffer in place. */
    method Process(buf: array<real>)
      requires Valid() && (buf as object) != (lines as object)
      modifies this, lines, buf
      ensures Valid() && Value() == StateAfter(Chain(config), old(Value()), old(buf[..]))
      ensures buf[..] == Output(Chain(config), old(Value()), old(buf[..]))
    {
      ghost var f, input, start := Chain(config), buf[..], Value();
      for i := 0 to buf.Length
        invariant Valid() && Value() == StateAfter(f, start, input[..i])
        invariant buf[..i] == Output(f, start, input[..i])
        invariant forall k :: i <= k < buf.Length ==> buf[k] == input[k]
      {
        Advance(f, start, input, i);
        var y := ProcessSample(buf[i]);
        buf[i] := y;
        assert buf[..i + 1] == buf[..i] + [y];
      }
      assert input[..buf.Length] == input && buf[..] == buf[..buf.Length];
    }
  }

  // ---- What the chain computes, as equations between streams ----

  /** A biquad by itself, sample by sample. */
  function Stage(c: Coefficients): (Line, real) -> (Line, real) {
    (l, x) => (Shift(l, x, Biquad(c, l, x)), Biquad(c, l, x))
  }

  datatype Level = Level(envelope: real, gain: real)

  /** Shaper and compressor by themselves. */
  function Leveller(c: Config): (Level, real) -> (Level, real) {
    (s: Level, y: real) =>
      (Level(Levelled(c, s.envelope, s.gain, y).0, Levelled(c, s.envelope, s.gain, y).1), Levelled(c, s.envelope, s.gain, y).2)
  }

  /** Sample n of a stream that is silent before it starts. */
  function At(xs: seq<real>, n: int): real {
    if 0 <= n < |xs| then xs[n] else 0.0
  }

  /** The difference equation of a second-order filter: the newest three inputs and outputs. */
  ghost predicate Equation(c: Coefficients, x0: real, x1: real, x2: real, y0: real, y1: real, y2: real) {
    y0 == c.b0 * x0 + c.b1 * x1 + c.b2 * x2 - c.a1 * y1 - c.a2 * y2
  }

  ghost predicate Solves(c: Coefficients, xs: seq<real>, ys: seq<real>, n: nat) {
    Equation(c, At(xs, n), At(xs, n - 1), At(xs, n - 2), At(ys, n), At(ys, n - 1), At(ys, n - 2))
  }

  lemma BiquadIsEquation(c: Coefficients, l: Line, x: real)
    ensures Equation(c, x, l.x1, l.x2, Biquad(c, l, x), l.y1, l.y2)
  {
  }

  lemma {:induction false} LineHoldsLastTwo(c: Coefficients, xs: seq<real>)
    ensures
      var n, ys := |xs|, Output(Stage(c), SILENT_LINE, xs);
      StateAfter(Stage(c), SILENT_LINE, xs) == Line(At(xs, n - 1), At(xs, n - 2), At(ys, n - 1), At(ys, n - 2))
  {
    if xs != [] {
      var before := xs[..|xs| - 1];
      LineHoldsLastTwo(c, before);
      Append(Stage(c), SILENT_LINE, before, xs[|xs| - 1]);
      assert xs == before + [xs[|xs| - 1]];
    }
  }

  lemma {:induction false} OutputOfPrefix<S>(f: (S, real) -> (S, real), s: S, xs: seq<real>, n: nat)
    requires n <= |xs|
    ensures Output(f, s, xs[..n]) == Output(f, s, xs)[..n]
  {
    ChunksDoNotMatter(f, s, xs[..n], xs[n..]);
    assert xs == xs[..n] + xs[n..];
  }

  /** What one stage returns, and what its line held, in terms of the two streams. */
  lemma StageAt(c: Coefficients, xs: seq<real>, n: nat)
    requires n < |xs|
    ensures
      var ys := Output(Stage(c), SILENT_LINE, xs);
      ys[n] == Biquad(c, Line(At(xs, n - 1), At(xs, n - 2), At(ys, n - 1), At(ys, n - 2)), xs[n])
  {
    var f := Stage(c);
    var ys := Output(f, SILENT_LINE, xs);
    OutputOfPrefix(f, SILENT_LINE, xs, n);
    OutputOfPrefix(f, SILENT_LINE, xs, n + 1);
    Advance(f, SILENT_LINE, xs, n);
    LineHoldsLastTwo(c, xs[..n]);
    assert ys[n] == ys[..n + 1][n];
    assert At(ys[..n], n - 1) == At(ys, n - 1) && At(ys[..n], n - 2) == At(ys, n - 2);
    assert At(xs[..n], n - 1) == At(xs, n - 1) && At(xs[..n], n - 2) == At(xs, n - 2);
  }

  /** From silence, each biquad's output is the solution of its difference equation, for every stream. */
  lemma BiquadSolvesItsEquation(c: Coefficients, xs: seq<real>, n: nat)
    requires n < |xs|
    ensures Solves(c, xs, Output(Stage(c), SILENT_LINE, xs), n)
  {
    var ys := Output(Stage(c), SILENT_LINE, xs);
    StageAt(c, xs, n);
    BiquadIsEquation(c, Line(At(xs, n - 1), At(xs, n - 2), At(ys, n - 1), At(ys, n - 2)), xs[n]);
  }

  /** The streams between the stages. */
  function Peaked(c: Config, s: State, xs: seq<real>): seq<real> {
    Output(Stage(c.filters.peak), s.lines.peak, xs)
  }

  function HighPassed(c: Config, s: State, xs: seq<real>): seq<real> {
    Output(Stage(c.filters.highPass), s.lines.highPass, Peaked(c, s, xs))
  }

  function LowPassed(c: Config, s: State, xs: seq<real>): seq<real> {
    Output(Stage(c.filters.lowPass), s.lines.lowPass, HighPassed(c, s, xs))
  }

  /** The chain is its parts in series: peak filter, high pass, low pass, then shaper and compressor. */
  lemma {:induction false} ChainIsSeries(c: Config, s: State, xs: seq<real>)
    ensures Output(Chain(c), s, xs) == Output(Leveller(c), Level(s.envelope, s.gain), LowPassed(c, s, xs))
    ensures
      var t := StateAfter(Chain(c), s, xs);
      && t.lines.peak == StateAfter(Stage(c.filters.peak), s.lines.peak, xs)
      && t.lines.highPass == StateAfter(Stage(c.filters.highPass), s.lines.highPass, Peaked(c, s, xs))
      && t.lines.lowPass == StateAfter(Stage(c.filters.lowPass), s.lines.lowPass, HighPassed(c, s, xs))
      && Level(t.envelope, t.gain) == StateAfter(Leveller(c), Level(s.envelope, s.gain), LowPassed(c, s, xs))
  {
    if xs != [] {
      var before, x := xs[..|xs| - 1], xs[|xs| - 1];
      assert xs == before + [x];
      ChainIsSeries(c, s, before);
      var t := StateAfter(Chain(c), s, before);
      var y0 := Biquad(c.filters.peak, t.lines.peak, x);
      var y1 := Biquad(c.filters.highPass, t.lines.highPass, y0);
      var y2 := Biquad(c.filters.lowPass, t.lines.lowPass, y1);
      Append(Chain(c), s, before, x);
      Append(Stage(c.filters.peak), s.lines.peak, before, x);
      Append(Stage(c.filters.highPass), s.lines.highPass, Peaked(c, s, before), y0);
      Append(Stage(c.filters.lowPass), s.lines.lowPass, HighPassed(c, s, before), y1);
      Append(Leveller(c), Level(s.envelope, s.gain), LowPassed(c, s, before), y2);
    }
  }

  /** One step of a smoother towards b: attack coefficient on one side, release on the other. */
  ghost predicate MovesTowards(c: Config, a: real, b: real, attacks: bool, after: real) {
    after - b == (if attacks then c.attack else c.release) * (a - b)
  }

  /** A change in dB that leaves levels up to -24 dB alone and divides what is above by five. */
  ghost predicate Compresses(m: Math, envelope: real, change: real) {
    var level := 20.0 * m.log10(envelope + 0.000000001);
    level + change == if level <= -24.0 then level else -24.0 + (level + 24.0) / 5.0
  }

  /** The gain aimed for is such a change, as a factor. */
  lemma TargetCompresses(m: Math, envelope: real) returns (change: real)
    ensures Compresses(m, envelope, change) && TargetGain(m, envelope) == m.pow10(change / 20.0)
  {
    var level := 20.0 * m.log10(envelope + 0.000000001);
    change := if level > THRESHOLD_DB then (THRESHOLD_DB - level) * (1.0 - 1.0 / RATIO) else 0.0;
  }

  lemma MeanMoves(w: real, a: real, b: real)
    ensures Mean(w, a, b) - b == w * (a - b)
  {
  }

  lemma EnvelopeMoves(c: Config, e0: real, v: real)
    ensures MovesTowards(c, e0, Abs(v), Abs(v) > e0, Envelope(c, e0, v))
  {
    MeanMoves(if Abs(v) > e0 then c.attack else c.release, e0, Abs(v));
  }

  lemma GainMoves(c: Config, g0: real, target: real)
    ensures MovesTowards(c, g0, target, target < g0, Gain(c, g0, target))
  {
    MeanMoves(if target < g0 then c.attack else c.release, g0, target);
  }

  /** From before to after, the gain has moved towards the one aimed for. */
  ghost predicate GainFollows(c: Config, envelope: real, before: real, after: real) {
    exists change: real ::
      && Compresses(c.math, envelope, change)
      && MovesTowards(c, before, c.math.pow10(change / 20.0), c.math.pow10(change / 20.0) < before, after)
  }

  lemma GainFollowsTarget(c: Config, envelope: real, g0: real)
    ensures GainFollows(c, envelope, g0, Gain(c, g0, TargetGain(c.math, envelope)))
  {
    var change := TargetCompresses(c.math, envelope);
    GainMoves(c, g0, TargetGain(c.math, envelope));
  }

  lemma LevellerAt(c: Config, s: Level, ys: seq<real>, n: nat)
    requires n < |ys|
    ensures
      var before, after := StateAfter(Leveller(c), s, ys[..n]), StateAfter(Leveller(c), s, ys[..n + 1]);
      && (after.envelope, after.gain, Output(Leveller(c), s, ys)[n]) == Levelled(c, before.envelope, before.gain, ys[n])
  {
    Advance(Leveller(c), s, ys, n);
    OutputOfPrefix(Leveller(c), s, ys, n + 1);
    assert Output(Leveller(c), s, ys)[n] == Output(Leveller(c), s, ys)[..n + 1][n];
  }

  /**
   * The sample y is shaped to v = tanh(1.5 y) / 1.5; the envelope moves towards the magnitude of v, fast
   * when that is louder; the gain moves towards the gain aimed for, fast when that is lower; and v is
   * multiplied by the gain reached.
   */
  ghost predicate Levels(c: Config, before: Level, y: real, after: Level, out: real) {
    var v := c.math.tanh(1.5 * y) / 1.5;
    var magnitude := if v < 0.0 then -v else v;
    && MovesTowards(c, before.envelope, magnitude, magnitude > before.envelope, after.envelope)
    && GainFollows(c, after.envelope, before.gain, after.gain)
    && out == v * after.gain
  }

  lemma ShapedIs(m: Math, y: real)
    ensures Saturated(m, y) == m.tanh(1.5 * y) / 1.5
  {
  }

  lemma LevelledLevels(c: Config, before: Level, y: real)
    ensures
      var (envelope, gain, out) := Levelled(c, before.envelope, before.gain, y);
      Levels(c, before, y, Level(envelope, gain), out)
  {
    var v := Saturated(c.math, y);
    ShapedIs(c.math, y);
    EnvelopeMoves(c, before.envelope, v);
    GainFollowsTarget(c, Envelope(c, before.envelope, v), before.gain);
  }

  /** So it goes at every sample of every stream. */
  lemma LevellerEquations(c: Config, s: Level, ys: seq<real>, n: nat)
    requires n < |ys|
    ensures Levels(c, StateAfter(Leveller(c), s, ys[..n]), ys[n], StateAfter(Leveller(c), s, ys[..n + 1]), Output(Leveller(c), s, ys)[n])
  {
    LevellerAt(c, s, ys, n);
    LevelledLevels(c, StateAfter(Leveller(c), s, ys[..n]), ys[n]);
  }

  // ---- Bounds ----

  lemma ProductNonNegative(x: real, y: real)
    requires x >= 0.0 && y >= 0.0
    ensures x * y >= 0.0
  {
  }

  /** A weighted mean lies between its two values. */
  lemma MeanWithin(w: real, a: real, b: real, lo: real, hi: real)
    requires 0.0 < w < 1.0 && lo <= a <= hi && lo <= b <= hi
    ensures lo <= Mean(w, a, b) <= hi
  {
    ProductNonNegative(w, a - lo);
    ProductNonNegative(1.0 - w, b - lo);
    ProductNonNegative(w, hi - a);
    ProductNonNegative(1.0 - w, hi - b);
    assert Mean(w, a, b) - lo == w * (a - lo) + (1.0 - w) * (b - lo);
    assert hi - Mean(w, a, b) == w * (hi - a) + (1.0 - w) * (hi - b);
  }

  /** The least gain the compressor can aim for: full scale at 5:1 over a -24 dB threshold. */
  function GainFloor(m: Math): real {
    m.pow10(-0.96)
  }

  ghost predicate Inv(c: Config, s: State) {
    && 0.0 <= s.envelope <= 1.0 / SAT_DRIVE
    && GainFloor(c.math) <= s.gain <= 1.0
  }

  lemma SaturatedWithin(m: Math, x: real)
    requires Lawful(m)
    ensures Abs(Saturated(m, x)) < 1.0 / SAT_DRIVE
  {
    assert -1.0 < m.tanh(SAT_DRIVE * x) < 1.0;
  }

  lemma TargetGainWithin(m: Math, envelope: real)
    requires Lawful(m) && 0.0 <= envelope <= 1.0 / SAT_DRIVE
    ensures GainFloor(m) <= TargetGain(m, envelope) <= 1.0
  {
    var levelDb := 20.0 * m.log10(envelope + 0.000000001);
    assert levelDb <= 0.0;
    var gainDb := if levelDb > THRESHOLD_DB then (THRESHOLD_DB - levelDb) * (1.0 - 1.0 / RATIO) else 0.0;
    assert -0.96 <= gainDb / 20.0 <= 0.0;
  }

  lemma ScaledWithin(x: real, g: real)
    requires 0.0 < g <= 1.0
    ensures Abs(Scaled(x, g)) <= Abs(x)
  {
    assert Abs(x) * (1.0 - g) >= 0.0;
  }

  lemma EnvelopeWithin(c: Config, envelope: real, v: real)
    requires ValidConfig(c) && 0.0 <= envelope <= 1.0 / SAT_DRIVE && Abs(v) < 1.0 / SAT_DRIVE
    ensures 0.0 <= Envelope(c, envelope, v) <= 1.0 / SAT_DRIVE
  {
    MeanWithin(if Abs(v) > envelope then c.attack else c.release, envelope, Abs(v), 0.0, 1.0 / SAT_DRIVE);
  }

  lemma GainWithin(c: Config, gain: real, target: real)
    requires ValidConfig(c) && GainFloor(c.math) <= gain <= 1.0 && GainFloor(c.math) <= target <= 1.0
    ensures GainFloor(c.math) <= Gain(c, gain, target) <= 1.0
  {
    MeanWithin(if target < gain then c.attack else c.release, gain, target, GainFloor(c.math), 1.0);
  }

  lemma LevelledWithin(c: Config, envelope: real, gain: real, y: real)
    requires ValidConfig(c) && 0.0 <= envelope <= 1.0 / SAT_DRIVE && GainFloor(c.math) <= gain <= 1.0
    ensures
      var (envelope', gain', out) := Levelled(c, envelope, gain, y);
      && 0.0 <= envelope' <= 1.0 / SAT_DRIVE && GainFloor(c.math) <= gain' <= 1.0
      && Abs(out) < 1.0 / SAT_DRIVE
  {
    var v := Saturated(c.math, y);
    SaturatedWithin(c.math, y);
    EnvelopeWithin(c, envelope, v);
    var target := TargetGain(c.math, Envelope(c, envelope, v));
    TargetGainWithin(c.math, Envelope(c, envelope, v));
    GainWithin(c, gain, target);
    assert GainFloor(c.math) > 0.0;
    ScaledWithin(v, Gain(c, gain, target));
  }

  lemma SampleWithin(c: Config, s: State, x: real)
    requires ValidConfig(c) && Inv(c, s)
    ensures Inv(c, Sample(c, s, x).0)
    ensures Abs(Sample(c, s, x).1) < 1.0 / SAT_DRIVE
  {
    LevelledWithin(c, s.envelope, s.gain, Equalized(c, s.lines, x).1);
  }

  function Clipped(x: real): real {
    if x < -1.0 then -1.0 else if 1.0 < x then 1.0 else x
  }

  lemma ResetIsWithin(c: Config)
    requires ValidConfig(c)
    ensures Inv(c, RESET)
  {
    assert c.math.pow10(-0.96) <= c.math.pow10(0.0);
  }

  /**
   * For every stream the envelope stays in [0, 2/3] and the gain in (0, 1], never below the floor;
   * every output sample is below 2/3 in magnitude, so the hard clip that follows changes none of them.
   */
  lemma {:induction false} StreamWithin(c: Config, s: State, xs: seq<real>)
    requires ValidConfig(c) && Inv(c, s)
    ensures Inv(c, StateAfter(Chain(c), s, xs)) && StateAfter(Chain(c), s, xs).gain > 0.0
    ensures forall i :: 0 <= i < |xs| ==>
              var y := Output(Chain(c), s, xs)[i]; Abs(y) < 1.0 / SAT_DRIVE && Clipped(y) == y
  {
    assert GainFloor(c.math) > 0.0;
    if xs != [] {
      var n := |xs| - 1;
      StreamWithin(c, s, xs[..n]);
      SampleWithin(c, StateAfter(Chain(c), s, xs[..n]), xs[n]);
    }
  }

  /**
   * The end of a playback tick: the filter if it is on, then the hard clip, in place. The clip acts
   * on unfiltered frames only; on a filtered one it changes nothing.
   */
  method FinishFrame(filter: PilotFilter, enabled: bool, mixed: array<real>)
    requires filter.Valid() && (mixed as object) != (filter.lines as object)
    requires ValidConfig(filter.config) && Inv(filter.config, filter.Value())
    modifies filter, filter.lines, mixed
    ensures filter.Valid() && Inv(filter.config, filter.Value())
    ensures enabled ==> mixed[..] == Output(Chain(filter.config), old(filter.Value()), old(mixed[..]))
    ensures !enabled ==> filter.Value() == old(filter.Value())
    ensures !enabled ==> forall i :: 0 <= i < mixed.Length ==>
                           mixed[i] == if old(mixed[i]) < -1.0 then -1.0 else if old(mixed[i]) > 1.0 then 1.0 else old(mixed[i])
  {
    if enabled {
      StreamWithin(filter.config, filter.Value(), mixed[..]);
      filter.Process(mixed);
    }
    ghost var unclipped, state := mixed[..], filter.Value();
    for i := 0 to mixed.Length
      invariant filter.Valid() && filter.Value() == state
      invariant forall k :: 0 <= k < mixed.Length ==> mixed[k] == if k < i then Clipped(unclipped[k]) else unclipped[k]
    {
      mixed[i] := Clipped(mixed[i]);
    }
    if enabled {
      assert forall k :: 0 <= k < mixed.Length ==> Clipped(unclipped[k]) == unclipped[k];
      assert mixed[..] == unclipped;
    }
  }

  /** Turning the filter on resets it, so every frame from then on is within bounds. */
  method SetEnabled(filter: PilotFilter, enabled: bool) returns (on: bool)
    requires filter.Valid() && ValidConfig(filter.config) && (enabled || Inv(filter.config, filter.Value()))
    modifies filter, filter.lines
    ensures on == enabled && filter.Valid() && Inv(filter.config, filter.Value())
    ensures enabled ==> filter.Value() == RESET
    ensures !enabled ==> filter.Value() == old(filter.Value())
  {
    if enabled {
      filter.Reset();
      ResetIsWithin(filter.config);
    }
    on := enabled;
  }
}
