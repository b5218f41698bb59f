/** `BitCrusherProcessor` (public/js/worklets/bitcrusher-worklet.js): a
    sample-and-hold resampler whose phase accumulator advances by
    sampleRate / hostRate per sample, quantising the input to the grid of
    multiples of 1 / 2^(bitDepth - 1) each time the accumulator passes 1.
    One accumulator is shared by all channels of a block; each channel has
    its own held sample. */
module BitCrusher {
  import opened Numeric
  import opened Host

  /** Parameter ranges the processor declares. */
  const MinBitDepth: real := 1.0
  const MaxBitDepth: real := 16.0
  const DefaultBitDepth: real := 16.0
  const MinSampleRate: real := 1000.0
  const MaxSampleRate: real := 44100.0
  const DefaultSampleRate: real := 44100.0

  /** `lastSampleTime` and the `lastSample` array, as a map from channel
      index to the held value (channels never written have no entry). */
  datatype State = State(time: real, held: map<nat, real>)

  /** The constructor: accumulator at 0, two channels holding 0. */
  function Init(): (s: State)
    ensures Valid(s)
    ensures s.time == 0.0 && Output(s.held, 0) == 0.0 && Output(s.held, 1) == 0.0
  {
    State(0.0, map[0 := 0.0, 1 := 0.0])
  }

  /** The accumulator stays in [0, 1) and channels 0 and 1 hold a value. */
  ghost predicate Valid(s: State) {
    0.0 <= s.time < 1.0 && 0 in s.held && 1 in s.held
  }

  /** `this.lastSample[channel] || 0`: the held value, or 0 for a channel
      never written. */
  function Output(held: map<nat, real>, c: nat): real {
    if c in held then held[c] else 0.0
  }

  /** How far the accumulator advances per output sample. */
  function Ratio(sampleRate: real, hostRate: real): real
    requires hostRate > 0.0
  {
    sampleRate / hostRate
  }

  /** One channel of one block: the outputs, the accumulator and held value
      after it, and how many times the held value was refreshed. */
  datatype Run = Run(out: seq<real>, time: real, hold: real, updates: nat)

  /** Runs the inner loop over `xs` from accumulator `time` and held value
      `hold`. Each output is the previous held value or the current input
      quantised; the accumulator gives back exactly one unit per refresh; and
      with a rate ratio in [0, 1] it stays in [0, 1). */
  function CrushRun(xs: seq<real>, time: real, hold: real, ratio: real, crush: real -> real): (r: Run)
    ensures |r.out| == |xs| && r.updates <= |xs|
    ensures r.updates == 0 ==> r.hold == hold
    ensures 0 < |xs| ==> r.hold == r.out[|xs| - 1]
    ensures 0 < |xs| ==> r.out[0] == hold || r.out[0] == crush(xs[0])
    ensures forall i, j :: 0 <= i && j == i + 1 && j < |xs| ==>
      r.out[j] == r.out[i] || r.out[j] == crush(xs[j])
    ensures 0.0 <= time < 1.0 && 0.0 <= ratio <= 1.0 ==> 0.0 <= r.time < 1.0
    decreases |xs|
  {
    if |xs| == 0 then Run([], time, hold, 0)
    else
      var t := time + ratio;
      var refresh := t >= 1.0;
      var t1 := if refresh then t - 1.0 else t;
      var h1 := if refresh then crush(xs[0]) else hold;
      var rest := CrushRun(xs[1..], t1, h1, ratio, crush);
      var u := if refresh then 1 else 0;
      Run([h1] + rest.out, rest.time, rest.hold, rest.updates + u)
  }

  /** The accumulator gives back exactly one unit per refresh: after a run
      it has gained ratio per sample less the number of refreshes. */
  lemma {:induction false} RunClock(xs: seq<real>, time: real, hold: real, ratio: real, crush: real -> real)
    ensures var r := CrushRun(xs, time, hold, ratio, crush);
      r.time == time + Repeat(ratio, |xs|) - r.updates as real
    decreases |xs|
  {
    if |xs| > 0 {
      var refresh := time + ratio >= 1.0;
      var t1 := if refresh then time + ratio - 1.0 else time + ratio;
      var h1 := if refresh then crush(xs[0]) else hold;
      RunClock(xs[1..], t1, h1, ratio, crush);
      RepeatAdd(ratio, |xs[1..]|, 1);
    }
  }

  /** At a rate ratio of one the accumulator never moves, and every output
      sample is its input quantised. */
  lemma {:induction false} FullRateCrushesEverySample(xs: seq<real>, time: real, hold: real, crush: real -> real)
    requires 0.0 <= time < 1.0
    ensures CrushRun(xs, time, hold, 1.0, crush).time == time
    ensures forall i :: 0 <= i < |xs| ==> CrushRun(xs, time, hold, 1.0, crush).out[i] == crush(xs[i])
  {
    if |xs| > 0 {
      FullRateCrushesEverySample(xs[1..], time, crush(xs[0]), crush);
    }
  }

  /** With the ratio in [0, 1], a channel refreshes its held value exactly
      floor(time + length * ratio) times, and the accumulator ends at the
      fractional part of that sum. */
  lemma RefreshCount(xs: seq<real>, time: real, hold: real, ratio: real, crush: real -> real)
    requires 0.0 <= time < 1.0 && 0.0 <= ratio <= 1.0
    ensures var r := CrushRun(xs, time, hold, ratio, crush);
      && r.updates == (time + Repeat(ratio, |xs|)).Floor
      && r.time == FractionalPart(time + Repeat(ratio, |xs|))
  {
    var r := CrushRun(xs, time, hold, ratio, crush);
    RunClock(xs, time, hold, ratio, crush);
    FractionalPartOf(time + Repeat(ratio, |xs|), r.updates);
  }

  /** The state and outputs after channels c.. of a block, and the number of
      refreshes among them. */
  datatype Block = Block(state: State, out: seq<seq<real>>, updates: nat)

  /** The outer loop from channel `c` on. Channel c starts from the
      accumulator channel c - 1 ended with; a channel that refreshed keeps
      its last refreshed value; no earlier channel's held value changes. */
  function ProcessFrom(s: State, input: seq<seq<real>>, c: nat, ratio: real, crush: real -> real): (r: Block)
    requires c <= |input|
    ensures |r.out| == |input| - c
    ensures forall k :: 0 <= k < |r.out| ==> |r.out[k]| == |input[c + k]|
    ensures 0.0 <= s.time < 1.0 && 0.0 <= ratio <= 1.0 ==> 0.0 <= r.state.time < 1.0
    ensures s.held.Keys <= r.state.held.Keys
    ensures forall k :: k in s.held && k < c ==> r.state.held[k] == s.held[k]
    // What the next block starts from: each processed channel holds its
    // last output, and any other channel keeps what it held.
    ensures HoldsLast(r.state.held, r.out, input, c)
    ensures KeepsOthers(r.state.held, s.held, input, c)
    decreases |input| - c
  {
    if c == |input| then Block(s, [], 0)
    else
      var run := CrushRun(input[c], s.time, Output(s.held, c), ratio, crush);
      var held := if run.updates > 0 then s.held[c := run.hold] else s.held;
      var rest := ProcessFrom(State(run.time, held), input, c + 1, ratio, crush);
      var r := Block(rest.state, [run.out] + rest.out, run.updates + rest.updates);
      HeldAfter(s.held, held, rest.state.held, input, c, run.out, rest.out, Output(s.held, c), run.hold,
                r.out);
      r
  }

  /** Output channel k - c has the length of input channel k, and every
      non-empty channel k >= c holds the last sample of its output. */
  ghost predicate HoldsLast(held: map<nat, real>, out: seq<seq<real>>, input: seq<seq<real>>, c: nat) {
    && c + |out| == |input|
    && (forall j :: 0 <= j < |out| ==> |out[j]| == |input[c + j]|)
    && forall k: nat :: c <= k < |input| && 0 < |input[k]| ==> Output(held, k) == out[k - c][|input[k]| - 1]
  }

  /** Channels before c, past the input, or empty hold what they held. */
  ghost predicate KeepsOthers(after: map<nat, real>, before: map<nat, real>, input: seq<seq<real>>, c: nat) {
    forall k: nat :: k < c || |input| <= k || |input[k]| == 0 ==> Output(after, k) == Output(before, k)
  }

  /** The held-value step of ProcessFrom: channel c's value is left as its
      last output, the later channels' values as they say, the rest alone. */
  lemma HeldAfter(held0: map<nat, real>, held1: map<nat, real>, held2: map<nat, real>,
                  input: seq<seq<real>>, c: nat, first: seq<real>, rest: seq<seq<real>>,
                  hold: real, last: real, out: seq<seq<real>>)
    requires c < |input| && out == [first] + rest && |first| == |input[c]|
    requires hold == Output(held0, c)
    requires 0 < |first| ==> last == first[|first| - 1]
    requires |first| == 0 ==> last == hold
    requires Output(held1, c) == last
    requires forall d: nat :: d != c ==> Output(held1, d) == Output(held0, d)
    requires HoldsLast(held2, rest, input, c + 1)
    requires KeepsOthers(held2, held1, input, c + 1)
    ensures HoldsLast(held2, out, input, c)
    ensures KeepsOthers(held2, held0, input, c)
  {
    forall j | 0 <= j < |out| ensures |out[j]| == |input[c + j]| {
      if j > 0 { assert out[j] == rest[j - 1]; }
    }
    forall k: nat | c <= k < |input| && 0 < |input[k]|
      ensures Output(held2, k) == out[k - c][|input[k]| - 1]
    {
      if k > c {
        assert out[k - c] == rest[k - (c + 1)];
      }
    }
  }


  /** Over channels c.., the shared accumulator gains ratio per sample of
      every channel, less one per refresh. */
  lemma {:induction false} BlockClock(s: State, input: seq<seq<real>>, c: nat, ratio: real, crush: real -> real)
    requires c <= |input|
    ensures var r := ProcessFrom(s, input, c, ratio, crush);
      r.state.time == s.time + Repeat(ratio, TotalFrames(input[c..])) - r.updates as real
    decreases |input| - c
  {
    if c < |input| {
      var run := CrushRun(input[c], s.time, Output(s.held, c), ratio, crush);
      var held := if run.updates > 0 then s.held[c := run.hold] else s.held;
      var rest := ProcessFrom(State(run.time, held), input, c + 1, ratio, crush);
      var r := ProcessFrom(s, input, c, ratio, crush);
      assert r.state == rest.state && r.updates == run.updates + rest.updates;
      RunClock(input[c], s.time, Output(s.held, c), ratio, crush);
      BlockClock(State(run.time, held), input, c + 1, ratio, crush);
      FramesFrom(input, c);
      ClockStep(s.time, run.time, r.state.time, ratio, |input[c]|, TotalFrames(input[c + 1..]),
                TotalFrames(input[c..]), run.updates, rest.updates, r.updates);
    } else {
      assert input[c..] == [];
    }
  }

  /** Two stretches of the accumulator's clock, one after the other. */
  lemma ClockStep(t0: real, t1: real, t2: real, ratio: real, n: nat, k: nat, total: nat,
                  u: nat, v: nat, w: nat)
    requires t1 == t0 + Repeat(ratio, n) - u as real
    requires t2 == t1 + Repeat(ratio, k) - v as real
    requires total == n + k && w == u + v
    ensures t2 == t0 + Repeat(ratio, total) - w as real
  {
    RepeatAdd(ratio, n, k);
  }

  /** Rounding to the grid of a step, as a function of the sample. */
  function Quantiser(step: real): (f: real -> real)
    requires step > 0.0
    ensures forall x :: f(x) == Quantize(x, step)
  {
    x => Quantize(x, step)
  }

  /** `process(inputs, outputs, parameters)` for one block, with `hostRate`
      the context's sample rate. A block with no input channels changes
      nothing; otherwise every channel gets an output of its own length,
      and with a requested rate at most the host rate the accumulator stays
      in [0, 1). */
  function Process(s: State, input: seq<seq<real>>, bitDepth: real, sampleRate: real,
                   hostRate: real, m: MathLib): (r: (State, seq<seq<real>>))
    requires hostRate > 0.0
    ensures |input| == 0 ==> r.0 == s && r.1 == []
    ensures |r.1| == |input|
    ensures forall c :: 0 <= c < |input| ==> |r.1[c]| == |input[c]|
    ensures Valid(s) && 0.0 <= sampleRate <= hostRate ==> Valid(r.0)
    // The held values the next block starts from: each non-empty channel
    // holds its last output sample; every other channel keeps its value.
    ensures forall c: nat :: c < |input| && 0 < |input[c]| ==> Output(r.0.held, c) == r.1[c][|input[c]| - 1]
    ensures forall c: nat :: |input| <= c || |input[c]| == 0 ==> Output(r.0.held, c) == Output(s.held, c)
  {
    if |input| == 0 then (s, [])
    else
      RatioInUnit(sampleRate, hostRate);
      var b := ProcessFrom(s, input, 0, Ratio(sampleRate, hostRate), Quantiser(LevelsPerUnit(bitDepth, m)));
      (b.state, b.out)
  }

  /** After the channels of a block, run as `Process` runs them, the
      shared accumulator sits at the fractional part of its start plus the
      ratio once for every sample of every channel. */
  lemma BlockFraction(s: State, input: seq<seq<real>>, ratio: real, crush: real -> real)
    requires 0.0 <= s.time < 1.0 && 0.0 <= ratio <= 1.0
    ensures ProcessFrom(s, input, 0, ratio, crush).state.time
         == FractionalPart(s.time + Repeat(ratio, TotalFrames(input)))
  {
    var b := ProcessFrom(s, input, 0, ratio, crush);
    BlockClock(s, input, 0, ratio, crush);
    assert input[0..] == input;
    var total := s.time + Repeat(ratio, TotalFrames(input));
    assert b.state.time == total - b.updates as real;
    FractionalPartOf(total, b.updates);
  }

  /** x minus its floor. */
  function FractionalPart(x: real): real {
    x - x.Floor as real
  }

  /** An integer that leaves a remainder in [0, 1) is the floor. */
  lemma FractionalPartOf(x: real, k: int)
    requires 0.0 <= x - k as real < 1.0
    ensures k == x.Floor && FractionalPart(x) == x - k as real
  {
  }

  /** A requested rate between 0 and the host rate gives a ratio in [0, 1]. */
  lemma RatioInUnit(sampleRate: real, hostRate: real)
    requires hostRate > 0.0
    ensures 0.0 <= sampleRate <= hostRate ==> 0.0 <= Ratio(sampleRate, hostRate) <= 1.0
  {
    var q := Ratio(sampleRate, hostRate);
    assert q * hostRate == sampleRate;
    if 0.0 <= sampleRate <= hostRate {
      if q > 1.0 { ScaleStrict(1.0, q, hostRate); }
      if q < 0.0 { ScaleStrict(q, 0.0, hostRate); }
    }
  }

  /** Output channel k is input channel c + k passed sample by sample
      through `crush`. */
  ghost predicate PassedThrough(out: seq<seq<real>>, input: seq<seq<real>>, c: nat, crush: real -> real) {
    forall k, i :: 0 <= k < |out| && 0 <= i < |out[k]| && c + k < |input| && i < |input[c + k]| ==>
      out[k][i] == crush(input[c + k][i])
  }

  /** From channel c on, at a rate ratio of one every output sample is its
      input sample passed through the quantiser. */
  lemma {:induction false} FullRateFrom(s: State, input: seq<seq<real>>, c: nat, crush: real -> real)
    requires 0.0 <= s.time < 1.0 && c <= |input|
    ensures PassedThrough(ProcessFrom(s, input, c, 1.0, crush).out, input, c, crush)
    decreases |input| - c
  {
    if c < |input| {
      var run := CrushRun(input[c], s.time, Output(s.held, c), 1.0, crush);
      FullRateCrushesEverySample(input[c], s.time, Output(s.held, c), crush);
      var held := if run.updates > 0 then s.held[c := run.hold] else s.held;
      FullRateFrom(State(run.time, held), input, c + 1, crush);
      var rest := ProcessFrom(State(run.time, held), input, c + 1, 1.0, crush);
      var r := ProcessFrom(s, input, c, 1.0, crush);
      assert r.out == [run.out] + rest.out;
      PassedThroughCons(run.out, rest.out, input, c, crush);
    }
  }

  lemma PassedThroughCons(first: seq<real>, rest: seq<seq<real>>, input: seq<seq<real>>, c: nat,
                          crush: real -> real)
    requires c < |input| && |first| == |input[c]|
    requires forall i :: 0 <= i < |first| ==> first[i] == crush(input[c][i])
    requires PassedThrough(rest, input, c + 1, crush)
    ensures PassedThrough([first] + rest, input, c, crush)
  {
    var out := [first] + rest;
    forall k, i | 0 <= k < |out| && 0 <= i < |out[k]| && c + k < |input| && i < |input[c + k]|
      ensures out[k][i] == crush(input[c + k][i])
    {
      if k == 0 {
        assert out[k][i] == first[i];
      } else {
        assert out[k] == rest[k - 1];
        assert rest[k - 1][i] == crush(input[(c + 1) + (k - 1)][i]);
      }
    }
  }

  /** When the requested rate equals the host rate the processor is a plain
      quantiser: every output sample of every channel is its input sample
      rounded to the grid of 1 / 2^(bitDepth - 1). */
  lemma FullRateIsQuantiser(s: State, input: seq<seq<real>>, bitDepth: real, hostRate: real, m: MathLib)
    requires Valid(s) && hostRate > 0.0
    ensures forall c, i :: 0 <= c < |input| && 0 <= i < |input[c]| ==>
      Process(s, input, bitDepth, hostRate, hostRate, m).1[c][i] == Quantize(input[c][i], LevelsPerUnit(bitDepth, m))
  {
    if |input| > 0 {
      var step := LevelsPerUnit(bitDepth, m);
      var crush := Quantiser(step);
      assert Ratio(hostRate, hostRate) == 1.0;
      var out := Process(s, input, bitDepth, hostRate, hostRate, m).1;
      assert out == ProcessFrom(s, input, 0, 1.0, crush).out;
      FullRateFrom(s, input, 0, crush);
      forall c, i | 0 <= c < |input| && 0 <= i < |input[c]|
        ensures out[c][i] == Quantize(input[c][i], step)
      {
        assert out[c][i] == crush(input[0 + c][i]);
      }
    }
  }

  /** Whether sample n of a run whose accumulator starts at `time`
      refreshes the held value: the accumulator passes a whole number on
      that sample. */
  function Refreshes(time: real, ratio: real, n: nat): bool {
    (time + Repeat(ratio, n + 1)).Floor > (time + Repeat(ratio, n)).Floor
  }

  /** Refreshes for the `len` samples from sample n on. */
  function Flags(time: real, ratio: real, n: nat, len: nat): (f: seq<bool>)
    ensures |f| == len
    ensures forall j :: 0 <= j < len ==> f[j] == Refreshes(time, ratio, n + j)
  {
    seq(len, j requires 0 <= j < len => Refreshes(time, ratio, n + j))
  }

  /** Sample-and-hold under the refresh pattern `flags`: a flagged sample
      is crushed afresh, any other repeats the output before it, or `hold`
      at the start. */
  ghost predicate SampleAndHold(out: seq<real>, xs: seq<real>, flags: seq<bool>, hold: real,
                                crush: real -> real) {
    |out| == |xs| == |flags| &&
    forall j {:trigger xs[j]} :: 0 <= j < |xs| ==>
      out[j] == (if flags[j] then crush(xs[j]) else if j == 0 then hold else out[j - 1])
  }

  /** `out` is what the processor makes of `xs` when its first sample is
      sample n of a run from accumulator `time` and `hold` is held before
      it: a sample on which the accumulator passes a whole number is
      quantised afresh, any other repeats the value before it. */
  ghost predicate Schedule(out: seq<real>, xs: seq<real>, time: real, n: nat, hold: real,
                           ratio: real, crush: real -> real) {
    SampleAndHold(out, xs, Flags(time, ratio, n, |xs|), hold, crush)
  }

  /** Which samples of a channel refresh: with the ratio in [0, 1], sample
      j takes a fresh quantised value exactly when the accumulator passes a
      whole number between time + j * ratio and time + (j + 1) * ratio. */
  lemma {:induction false} RefreshSchedule(xs: seq<real>, time: real, hold: real, ratio: real, crush: real -> real)
    requires 0.0 <= time < 1.0 && 0.0 <= ratio <= 1.0
    ensures Schedule(CrushRun(xs, time, hold, ratio, crush).out, xs, time, 0, hold, ratio, crush)
    decreases |xs|
  {
    if |xs| > 0 {
      var t1 := Advance(time, ratio);
      var h1 := if time + ratio >= 1.0 then crush(xs[0]) else hold;
      var rest := CrushRun(xs[1..], t1, h1, ratio, crush);
      assert CrushRun(xs, time, hold, ratio, crush).out == [h1] + rest.out;
      RefreshSchedule(xs[1..], t1, h1, ratio, crush);
      AdvanceFlags(time, ratio, |xs|);
      HoldCons(rest.out, xs, Flags(time, ratio, 0, |xs|), hold, crush);
    }
  }

  /** One step of sample-and-hold: the first output, then the rest held
      from it. */
  lemma HoldCons(rest: seq<real>, xs: seq<real>, flags: seq<bool>, hold: real, crush: real -> real)
    requires 0 < |xs| == |flags|
    requires SampleAndHold(rest, xs[1..], flags[1..], if flags[0] then crush(xs[0]) else hold, crush)
    ensures SampleAndHold([if flags[0] then crush(xs[0]) else hold] + rest, xs, flags, hold, crush)
  {
    var h1 := if flags[0] then crush(xs[0]) else hold;
    var out := [h1] + rest;
    forall j | 0 <= j < |xs|
      ensures out[j] == (if flags[j] then crush(xs[j]) else if j == 0 then hold else out[j - 1])
    {
      if j > 0 {
        var i := j - 1;
        assert xs[1..][i] == xs[j] && flags[1..][i] == flags[j];
        assert out[j] == rest[i];
        assert out[i] == if i == 0 then h1 else rest[i - 1];
      }
    }
  }

  /** The accumulator after one sample, as the inner loop leaves it. */
  function Advance(time: real, ratio: real): (t: real)
    requires 0.0 <= time < 1.0 && 0.0 <= ratio <= 1.0
    ensures 0.0 <= t < 1.0
  {
    if time + ratio >= 1.0 then time + ratio - 1.0 else time + ratio
  }

  /** The first sample refreshes exactly when the accumulator reaches 1,
      and the later ones as they would from the accumulator one sample on. */
  lemma AdvanceFlags(time: real, ratio: real, len: nat)
    requires 0.0 <= time < 1.0 && 0.0 <= ratio <= 1.0 && 0 < len
    ensures Flags(time, ratio, 0, len)[0] == (time + ratio >= 1.0)
    ensures Flags(Advance(time, ratio), ratio, 0, len - 1) == Flags(time, ratio, 0, len)[1..]
  {
    FirstRefresh(time, ratio);
    var f, g := Flags(time, ratio, 0, len), Flags(Advance(time, ratio), ratio, 0, len - 1);
    forall i | 0 <= i < len - 1
      ensures g[i] == f[1..][i]
    {
      LaterRefresh(time, ratio, i + 1);
    }
  }

  /** The first sample refreshes exactly when the accumulator reaches 1. */
  lemma FirstRefresh(time: real, ratio: real)
    requires 0.0 <= time < 1.0 && 0.0 <= ratio <= 1.0
    ensures Refreshes(time, ratio, 0) == (time + ratio >= 1.0)
  {
    assert Repeat(ratio, 1) == ratio && Repeat(ratio, 0) == 0.0;
  }

  /** Sample j from `time` is sample j - 1 from the accumulator one
      sample on. */
  lemma LaterRefresh(time: real, ratio: real, j: nat)
    requires 0.0 <= time < 1.0 && 0.0 <= ratio <= 1.0 && 1 <= j
    ensures Refreshes(Advance(time, ratio), ratio, j - 1) == Refreshes(time, ratio, j)
  {
    var u := if time + ratio >= 1.0 then 1 else 0;
    var a, b := time + Repeat(ratio, j), time + Repeat(ratio, j + 1);
    assert Advance(time, ratio) + Repeat(ratio, j - 1) == a - u as real;
    assert Advance(time, ratio) + Repeat(ratio, j) == b - u as real;
    FloorShift(a, u);
    FloorShift(b, u);
  }

  /** Subtracting a whole number moves the floor by that number. */
  lemma FloorShift(x: real, u: int)
    ensures (x - u as real).Floor == x.Floor - u
  {
  }

  /** Starting at the fractional part of time + n * ratio is starting n
      samples later. */
  lemma ShiftedStart(time: real, ratio: real, n: nat, m: nat)
    ensures Refreshes(FractionalPart(time + Repeat(ratio, n)), ratio, m) == Refreshes(time, ratio, n + m)
  {
    var f := (time + Repeat(ratio, n)).Floor;
    RepeatAdd(ratio, n, m);
    RepeatAdd(ratio, n, m + 1);
    FloorShift(time + Repeat(ratio, n + m), f);
    FloorShift(time + Repeat(ratio, n + m + 1), f);
  }

  lemma ShiftFlags(time: real, ratio: real, n: nat, m: nat, len: nat)
    ensures Flags(FractionalPart(time + Repeat(ratio, n)), ratio, m, len) == Flags(time, ratio, n + m, len)
  {
    var f, g := Flags(FractionalPart(time + Repeat(ratio, n)), ratio, m, len), Flags(time, ratio, n + m, len);
    forall j | 0 <= j < len
      ensures f[j] == g[j]
    {
      ShiftedStart(time, ratio, n, m + j);
      assert n + (m + j) == n + m + j;
    }
  }

  /** Which samples of a block refresh: the accumulator runs on across the
      channels, so sample j of channel c + k is sample
      TotalFrames(channels c .. c + k - 1) + j of one run from the block's
      starting accumulator, and before its first refresh the channel repeats
      its own held value. */
  lemma {:induction false} BlockSchedule(s: State, input: seq<seq<real>>, c: nat, ratio: real, crush: real -> real)
    requires 0.0 <= s.time < 1.0 && 0.0 <= ratio <= 1.0 && c <= |input|
    ensures ChannelsScheduled(ProcessFrom(s, input, c, ratio, crush).out, input, c, s.time, s.held, ratio, crush)
    decreases |input| - c
  {
    if c < |input| {
      var run := CrushRun(input[c], s.time, Output(s.held, c), ratio, crush);
      var held := if run.updates > 0 then s.held[c := run.hold] else s.held;
      var s1 := State(run.time, held);
      var rest := ProcessFrom(s1, input, c + 1, ratio, crush);
      assert ProcessFrom(s, input, c, ratio, crush).out == [run.out] + rest.out;
      RefreshSchedule(input[c], s.time, Output(s.held, c), ratio, crush);
      BlockSchedule(s1, input, c + 1, ratio, crush);
      ChannelsCons(run.out, rest.out, input, c, s.time, s.held, s1, ratio, crush);
    }
  }

  /** Output channels c.. of a block, channel c + k following Schedule
      from sample TotalFrames(channels c .. c + k - 1) of one accumulator
      run from `time`, holding its own value from `held` at the start. */
  ghost predicate ChannelsScheduled(out: seq<seq<real>>, input: seq<seq<real>>, c: nat, time: real,
                                    held: map<nat, real>, ratio: real, crush: real -> real) {
    c + |out| == |input| &&
    forall k :: 0 <= k < |out| ==>
      Schedule(out[k], input[c + k], time, TotalFrames(input[c..c + k]), Output(held, c + k), ratio, crush)
  }

  /** One step of BlockSchedule: channel c, then the channels after it run
      from where channel c left the accumulator, with only channel c's held
      value changed. */
  lemma ChannelsCons(first: seq<real>, rest: seq<seq<real>>, input: seq<seq<real>>, c: nat, time: real,
                     held: map<nat, real>, s1: State, ratio: real, crush: real -> real)
    requires c < |input| && 0.0 <= time < 1.0 && 0.0 <= ratio <= 1.0
    requires Schedule(first, input[c], time, 0, Output(held, c), ratio, crush)
    requires forall d :: d != c ==> Output(s1.held, d) == Output(held, d)
    requires s1.time == CrushRun(input[c], time, Output(held, c), ratio, crush).time
    requires ChannelsScheduled(rest, input, c + 1, s1.time, s1.held, ratio, crush)
    ensures ChannelsScheduled([first] + rest, input, c, time, held, ratio, crush)
  {
    EndsAtFraction(input[c], time, Output(held, c), ratio, crush);
    var out := [first] + rest;
    forall k | 0 <= k < |out|
      ensures Schedule(out[k], input[c + k], time, TotalFrames(input[c..c + k]), Output(held, c + k), ratio, crush)
    {
      if k == 0 {
        NoFramesBefore(input, c);
      } else {
        assert out[k] == rest[k - 1] && c + 1 + (k - 1) == c + k;
        LaterChannel(out[k], input, c, k, time, held, s1, ratio, crush);
      }
    }
  }

  /** After a channel the accumulator sits at the fractional part of its
      start plus the ratio once per sample. */
  lemma EndsAtFraction(xs: seq<real>, time: real, hold: real, ratio: real, crush: real -> real)
    requires 0.0 <= time < 1.0 && 0.0 <= ratio <= 1.0
    ensures CrushRun(xs, time, hold, ratio, crush).time == FractionalPart(time + Repeat(ratio, |xs|))
  {
    RefreshCount(xs, time, hold, ratio, crush);
  }

  /** No channel lies before channel c among the channels from c on. */
  lemma NoFramesBefore(input: seq<seq<real>>, c: nat)
    requires c <= |input|
    ensures TotalFrames(input[c..c]) == 0
  {
    assert input[c..c] == [];
  }

  /** Channel c + k (k > 0) follows the same schedule whether counted from
      the accumulator after channel c or from the one before it. */
  lemma LaterChannel(x: seq<real>, input: seq<seq<real>>, c: nat, k: nat, time: real,
                     held: map<nat, real>, s1: State, ratio: real, crush: real -> real)
    requires 0 < k && c + k < |input|
    requires s1.time == FractionalPart(time + Repeat(ratio, |input[c]|))
    requires Output(s1.held, c + k) == Output(held, c + k)
    requires Schedule(x, input[c + k], s1.time, TotalFrames(input[c + 1..c + k]), Output(s1.held, c + k), ratio, crush)
    ensures Schedule(x, input[c + k], time, TotalFrames(input[c..c + k]), Output(held, c + k), ratio, crush)
  {
    var n, m := |input[c]|, TotalFrames(input[c + 1..c + k]);
    FramesSplit(input, c, k);
    ShiftFlags(time, ratio, n, m, |input[c + k]|);
  }

  /** The frames of channels c .. c + k - 1 are channel c's and those of the
      channels after it. */
  lemma FramesSplit(input: seq<seq<real>>, c: nat, k: nat)
    requires 0 < k && c + k <= |input|
    ensures TotalFrames(input[c..c + k]) == |input[c]| + TotalFrames(input[c + 1..c + k])
  {
    assert input[c..c + k][1..] == input[c + 1..c + k];
  }

  /** Which samples of a block `process` refreshes: with a requested rate
      between 0 and the host rate, sample j of channel c is sample
      TotalFrames(channels before c) + j of one accumulator run from the
      block's starting accumulator; there it is quantised to the grid of
      1 / 2^(bitDepth - 1), elsewhere it repeats the sample before it, or
      the channel's held value (0 if never written) at j = 0. */
  lemma ProcessSchedule(s: State, input: seq<seq<real>>, bitDepth: real, sampleRate: real,
                        hostRate: real, m: MathLib)
    requires Valid(s) && hostRate > 0.0 && 0.0 <= sampleRate <= hostRate
    ensures forall c :: 0 <= c < |input| ==>
      Schedule(Process(s, input, bitDepth, sampleRate, hostRate, m).1[c], input[c], s.time,
               TotalFrames(input[..c]), Output(s.held, c), Ratio(sampleRate, hostRate),
               Quantiser(LevelsPerUnit(bitDepth, m)))
  {
    if |input| > 0 {
      RatioInUnit(sampleRate, hostRate);
      var ratio, crush := Ratio(sampleRate, hostRate), Quantiser(LevelsPerUnit(bitDepth, m));
      var out := Process(s, input, bitDepth, sampleRate, hostRate, m).1;
      assert out == ProcessFrom(s, input, 0, ratio, crush).out;
      BlockSchedule(s, input, 0, ratio, crush);
      forall c | 0 <= c < |input|
        ensures Schedule(out[c], input[c], s.time, TotalFrames(input[..c]), Output(s.held, c), ratio, crush)
      {
        assert input[0..0 + c] == input[..c] && 0 + c == c;
      }
    }
  }

  /** The held value carries from one block to the next: in the block after
      a block in which channel c had samples, channel c's first sample, when
      it does not refresh, repeats the last output of the block before. */
  lemma HeldAcrossBlocks(s: State, b1: seq<seq<real>>, b2: seq<seq<real>>, bitDepth: real,
                         sampleRate: real, hostRate: real, m: MathLib, c: nat)
    requires Valid(s) && hostRate > 0.0 && 0.0 <= sampleRate <= hostRate
    requires c < |b1| && c < |b2| && 0 < |b1[c]| && 0 < |b2[c]|
    ensures var p1 := Process(s, b1, bitDepth, sampleRate, hostRate, m);
      var p2 := Process(p1.0, b2, bitDepth, sampleRate, hostRate, m);
      !Refreshes(p1.0.time, Ratio(sampleRate, hostRate), TotalFrames(b2[..c])) ==>
        p2.1[c][0] == p1.1[c][|b1[c]| - 1]
  {
    var p1 := Process(s, b1, bitDepth, sampleRate, hostRate, m);
    ProcessSchedule(p1.0, b2, bitDepth, sampleRate, hostRate, m);
    var ratio, n := Ratio(sampleRate, hostRate), TotalFrames(b2[..c]);
    var flags := Flags(p1.0.time, ratio, n, |b2[c]|);
    assert flags[0] == Refreshes(p1.0.time, ratio, n + 0);
    var x := b2[c][0];
  }
}
