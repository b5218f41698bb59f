/** `WowFlutterProcessor` (js/worklets/wow-flutter-worklet.js): a delay of
    about 100 samples whose length is modulated by a slow "wow" and a fast
    "flutter" sine. Each block advances both phases by a random increment,
    then every sample of the first two channels is written into that
    channel's ring buffer at a shared write index and read back, linearly
    interpolated, `totalDelay` cells behind it. */
module WowFlutter {
  import opened Numeric
  import opened Host

  /** Length of each `Float32Array` delay line. */
  const Capacity: nat := 8192

  /** Delay, in samples, with both depths at zero. */
  const BaseDelay: real := 100.0

  /** `wowPhase`, `flutterPhase`, the two `delayBuffer` lines and the shared
      `delayIndex`. */
  datatype State = State(wowPhase: real, flutterPhase: real, lines: seq<seq<real>>, delayIndex: nat)

  /** Two full lines and a write index inside them. */
  ghost predicate Valid(s: State) {
    && |s.lines| == 2
    && |s.lines[0]| == Capacity && |s.lines[1]| == Capacity
    && s.delayIndex < Capacity
  }

  /** Both phases in [0, 2 pi]. */
  ghost predicate PhasesInRange(s: State, pi: real) {
    0.0 <= s.wowPhase <= 2.0 * pi && 0.0 <= s.flutterPhase <= 2.0 * pi
  }

  function Zeros(n: nat): (z: seq<real>)
    ensures |z| == n && forall i :: 0 <= i < n ==> z[i] == 0.0
  {
    seq(n, i => 0.0)
  }

  /** The constructor: phases at 0, silent lines, index 0. */
  function Init(): (s: State)
    ensures Valid(s) && s.delayIndex == 0
    ensures forall pi :: 0.0 < pi ==> PhasesInRange(s, pi)
  {
    State(0.0, 0.0, [Zeros(Capacity), Zeros(Capacity)], 0)
  }

  /** `((lo + Math.random() * span) * 2 * Math.PI) / sampleRate`: a random
      frequency in [lo, lo + span) Hz as a phase step per sample. */
  function Increment(lo: real, span: real, r: Unit, pi: real, rate: real): (inc: real)
    requires 0.0 < rate
    ensures 0.0 < lo && 0.0 <= span && 0.0 < pi && lo + span <= rate ==> 0.0 < inc <= 2.0 * pi
  {
    var c := lo + r * span;
    if 0.0 < lo && 0.0 <= span && 0.0 < pi && lo + span <= rate then
      UnitScale(r, span);
      ProductNonneg(r, span);
      assert lo <= c <= rate;
      PhaseStepBound(c, 2.0 * pi, rate);
      (c * 2.0 * pi) / rate
    else (c * 2.0 * pi) / rate
  }

  lemma PhaseStepBound(c: real, t: real, rate: real)
    requires 0.0 < c <= rate && 0.0 < t
    ensures 0.0 < (c * t) / rate <= t
  {
    ScaleWeak(c, rate, t);
    assert c * t <= t * rate;
    QuotientAtMost(c * t, rate, t);
  }

  lemma QuotientAtMost(a: real, n: real, k: real)
    requires n > 0.0 && 0.0 < a <= k * n
    ensures 0.0 < a / n <= k
  {
    var q := a / n;
    assert q * n == a;
    if q > k { ScaleStrict(k, q, n); }
    if q <= 0.0 { ScaleWeak(q, 0.0, n); }
  }

  /** Adds a phase step and takes off one turn when the sum passes 2 pi. A
      phase in [0, 2 pi] stays there for any step of at most one turn. */
  function Advance(phase: real, inc: real, pi: real): (p: real)
    ensures 0.0 <= phase <= 2.0 * pi && 0.0 <= inc <= 2.0 * pi ==> 0.0 <= p <= 2.0 * pi
    ensures p == phase + inc || p == phase + inc - 2.0 * pi
  {
    var q := phase + inc;
    if q > 2.0 * pi then q - 2.0 * pi else q
  }

  /** `Math.sin(phase) * depth * scale`: no swing at zero depth, and at
      most `scale` samples either way for a depth in [0, 1]. */
  function Modulation(sine: real, depth: real, scale: real): (m: real)
    requires 0.0 < scale
    ensures depth == 0.0 ==> m == 0.0
    ensures -1.0 <= sine <= 1.0 && 0.0 <= depth <= 1.0 ==> -scale <= m <= scale
  {
    var u := sine * depth;
    assert depth == 0.0 ==> u == 0.0;
    if -1.0 <= sine <= 1.0 && 0.0 <= depth <= 1.0 then
      UnitScale(sine, depth);
      assert -1.0 <= u <= 1.0;
      UnitScale(u, scale);
      u * scale
    else u * scale
  }

  /** `Math.max(1, 100 + wowMod + flutterMod)`, with the wow swinging up to
      50 samples and the flutter up to 10. */
  function TotalDelay(wowSin: real, flutterSin: real, wowDepth: real, flutterDepth: real): (d: real)
    ensures 1.0 <= d
    ensures wowDepth == 0.0 && flutterDepth == 0.0 ==> d == BaseDelay
    ensures (&& -1.0 <= wowSin <= 1.0 && -1.0 <= flutterSin <= 1.0
             && 0.0 <= wowDepth <= 1.0 && 0.0 <= flutterDepth <= 1.0) ==> 40.0 <= d <= 160.0
  {
    Max(1.0, BaseDelay + Modulation(wowSin, wowDepth, 50.0) + Modulation(flutterSin, flutterDepth, 10.0))
  }

  /** `(delayIndex - totalDelay + length) % length`: the position `delay`
      cells behind the write index, wrapped into the line. */
  function ReadPosition(d: nat, delay: real): (p: real)
    requires d < Capacity && 1.0 <= delay <= Capacity as real
    ensures 0.0 <= p < Capacity as real
    ensures p == d as real - delay || p == d as real - delay + Capacity as real
  {
    FRemBelowTwice(d as real - delay + Capacity as real, Capacity as real);
    FRem(d as real - delay + Capacity as real, Capacity as real)
  }

  /** `sample1 + fracIndex * (sample2 - sample1)`: for a fraction in [0, 1]
      a point between the two samples, and the first one at fraction 0. */
  function Interp(a: real, b: real, f: real): (r: real)
    ensures 0.0 <= f <= 1.0 ==> Min(a, b) <= r <= Max(a, b)
    ensures f == 0.0 ==> r == a
  {
    ScaleBetween(f, b - a);
    a + Scale(f, b - a)
  }

  /** `(delayIndex + 1) % length` for an index inside the line. */
  function Next(d: nat): (n: nat)
    requires d < Capacity
    ensures n < Capacity && n == (d + 1) % Capacity
  {
    if d + 1 < Capacity then d + 1 else 0
  }

  /** One sample of one channel: the line after the write, the read, and
      the next write index. */
  datatype Tap = Tap(out: real, line: seq<real>, index: nat)

  /** The body of the inner loop: write `x` at the index, read `delay` cells
      back between the two neighbouring cells, and step the index. */
  function Step(line: seq<real>, d: nat, x: real, delay: real): (r: Tap)
    requires |line| == Capacity && d < Capacity && 1.0 <= delay <= Capacity as real
    ensures r.line == line[d := x]
    ensures r.index == Next(d)
    ensures var i := Floor(ReadPosition(d, delay));
      && 0 <= i < Capacity
      && Min(r.line[i], r.line[(i + 1) % Capacity]) <= r.out <= Max(r.line[i], r.line[(i + 1) % Capacity])
  {
    var l := line[d := x];
    var p := ReadPosition(d, delay);
    var i := Floor(p);
    Tap(Interp(l[i], l[(i + 1) % Capacity], p - i as real), l, Next(d))
  }

  /** One channel of a block. */
  datatype Channel = Channel(out: seq<real>, line: seq<real>, index: nat)

  /** The inner loop over one channel's samples, starting at write index
      `d`. Cells outside the written stretch keep their contents. */
  function RunChannel(line: seq<real>, d: nat, xs: seq<real>, delay: real): (r: Channel)
    requires |line| == Capacity && d < Capacity && 1.0 <= delay <= Capacity as real
    ensures |r.out| == |xs| && |r.line| == Capacity
    ensures r.index == (d + |xs|) % Capacity
    ensures d + |xs| <= Capacity ==>
      forall t :: 0 <= t < Capacity && (t < d || d + |xs| <= t) ==> r.line[t] == line[t]
    decreases |xs|
  {
    if |xs| == 0 then Channel([], line, d)
    else
      var one := Step(line, d, xs[0], delay);
      var rest := RunChannel(one.line, one.index, xs[1..], delay);
      WrapAdd(d + 1, |xs| - 1);
      assert d + |xs| <= Capacity ==>
        forall t :: 0 <= t < Capacity && (t < d || d + |xs| <= t) ==> rest.line[t] == line[t] by {
        if d + |xs| <= Capacity && 1 < |xs| {
          assert one.index == d + 1;
          assert rest.line == RunChannel(one.line, d + 1, xs[1..], delay).line;
        }
      }
      Channel([one.out] + rest.out, rest.line, rest.index)
  }

  /** Moving an index on by `b` cells after wrapping it, or before, lands
      on the same cell. */
  lemma WrapAdd(a: nat, b: nat)
    ensures (a % Capacity + b) % Capacity == (a + b) % Capacity
  {
    var q := a / Capacity;
    assert a == q * Capacity + a % Capacity;
    WrapShift(a % Capacity + b, q);
  }

  lemma {:induction false} WrapShift(x: nat, q: nat)
    ensures (x + q * Capacity) % Capacity == x % Capacity
  {
    if q > 0 {
      WrapShift(x, q - 1);
      assert x + q * Capacity == (x + (q - 1) * Capacity) + Capacity;
    }
  }

  /** The cell written `j` samples before the newest one, when the next
      write goes to cell `d`. */
  function Back(d: nat, j: nat): (c: nat)
    requires d < Capacity && j < Capacity
    ensures c < Capacity
  {
    if j < d then d - 1 - j else d - 1 - j + Capacity
  }

  /** The line holds the last `Capacity` samples of the history `h`, the
      newest just behind the write index. */
  ghost predicate Holds(line: seq<real>, d: nat, h: seq<real>) {
    && |line| == Capacity && d < Capacity && Capacity <= |h|
    && forall j :: 0 <= j < Capacity ==> line[Back(d, j)] == h[|h| - 1 - j]
  }

  /** Each output is the sample that arrived 100 samples before it in the
      history `h` followed by the channel's input `xs`. */
  ghost predicate Delayed(out: seq<real>, h: seq<real>, xs: seq<real>) {
    && |out| == |xs| && 100 <= |h|
    && forall j :: 0 <= j < |xs| ==> out[j] == (h + xs)[|h| + j - 100]
  }

  /** A silent line holds a silent history. */
  lemma InitHolds(c: nat)
    requires c < 2
    ensures Holds(Init().lines[c], 0, Zeros(Capacity))
  {
  }

  /** At zero depth one sample keeps the line holding its history and reads
      the sample 100 steps back. */
  lemma {:induction false} StepKeepsHistory(line: seq<real>, d: nat, h: seq<real>, x: real)
    requires Holds(line, d, h)
    ensures Holds(Step(line, d, x, BaseDelay).line, Step(line, d, x, BaseDelay).index, h + [x])
    ensures Step(line, d, x, BaseDelay).out == h[|h| - 100]
  {
    var t := Step(line, d, x, BaseDelay);
    var h1 := h + [x];
    forall j | 0 <= j < Capacity
      ensures t.line[Back(t.index, j)] == h1[|h1| - 1 - j]
    {
      if j > 0 {
        assert Back(t.index, j) == Back(d, j - 1);
      }
    }
    var p := ReadPosition(d, BaseDelay);
    var b := Back(d, 99);
    assert p == b as real;
    assert Floor(p) == b;
    assert t.out == t.line[b];
  }

  /** At zero depth a channel keeps its line holding its history, and its
      output is its input delayed by 100 samples. */
  lemma {:induction false} RunKeepsHistory(line: seq<real>, d: nat, h: seq<real>, xs: seq<real>)
    requires Holds(line, d, h)
    ensures Holds(RunChannel(line, d, xs, BaseDelay).line, RunChannel(line, d, xs, BaseDelay).index, h + xs)
    ensures Delayed(RunChannel(line, d, xs, BaseDelay).out, h, xs)
    decreases |xs|
  {
    if |xs| == 0 {
      assert h + xs == h;
    } else {
      var one := Step(line, d, xs[0], BaseDelay);
      var h1 := h + [xs[0]];
      StepKeepsHistory(line, d, h, xs[0]);
      RunKeepsHistory(one.line, one.index, h1, xs[1..]);
      assert h1 + xs[1..] == h + xs;
      var r := RunChannel(line, d, xs, BaseDelay);
      forall j | 0 <= j < |xs|
        ensures r.out[j] == (h + xs)[|h| + j - 100]
      {
        if j > 0 {
          assert r.out[j] == (h1 + xs[1..])[|h1| + (j - 1) - 100];
        }
      }
    }
  }

  /** The state and outputs of a block. */
  datatype Block = Block(state: State, out: seq<seq<real>>, cursor: nat)

  /** `Math.min(input.length, 2)`. */
  function Processed(n: nat): nat {
    if n < 2 then n else 2
  }

  /** The two phase updates at the head of a block, one draw each; the
      delay line is left alone. */
  function NextPhases(s: State, rate: real, m: MathLib, draw: RandomStream, k: nat): (r: State)
    requires 0.0 < rate
    ensures r.lines == s.lines && r.delayIndex == s.delayIndex
    ensures PhasesInRange(s, m.pi) && 25.0 <= rate ==> PhasesInRange(r, m.pi)
  {
    s.(wowPhase := Advance(s.wowPhase, Increment(0.5, 1.5, draw(k), m.pi, rate), m.pi),
       flutterPhase := Advance(s.flutterPhase, Increment(5.0, 20.0, draw(k + 1), m.pi, rate), m.pi))
  }

  /** The delay of a block, fixed by the phases after their update. */
  function BlockDelay(s: State, wowDepth: real, flutterDepth: real, m: MathLib): (delay: real)
    requires 0.0 <= wowDepth <= 1.0 && 0.0 <= flutterDepth <= 1.0
    ensures 40.0 <= delay <= 160.0
    ensures wowDepth == 0.0 && flutterDepth == 0.0 ==> delay == BaseDelay
  {
    TotalDelay(m.sin(s.wowPhase), m.sin(s.flutterPhase), wowDepth, flutterDepth)
  }

  /** The channel loop of a block at a fixed delay: the new lines and
      write index, and one output per processed channel. */
  datatype Pass = Pass(lines: seq<seq<real>>, index: nat, out: seq<seq<real>>)

  /** The channel loop as written: the first two channels run one after
      the other, the second starting where the first left the shared write
      index, which so moves on by the frames of both. */
  function Sequential(s: State, input: seq<seq<real>>, delay: real): (r: Pass)
    requires Valid(s) && 0 < |input| && 1.0 <= delay <= Capacity as real
    ensures Valid(s.(lines := r.lines, delayIndex := r.index))
    ensures |r.out| == Processed(|input|)
    ensures forall c :: 0 <= c < |r.out| ==> |r.out[c]| == |input[c]|
    ensures |input| == 1 ==> r.index == (s.delayIndex + |input[0]|) % Capacity && r.lines[1] == s.lines[1]
    ensures 2 <= |input| ==> r.index == (s.delayIndex + |input[0]| + |input[1]|) % Capacity
    ensures s.delayIndex + |input[0]| <= Capacity ==>
      forall t :: 0 <= t < Capacity && (t < s.delayIndex || s.delayIndex + |input[0]| <= t) ==>
        r.lines[0][t] == s.lines[0][t]
  {
    var c0 := RunChannel(s.lines[0], s.delayIndex, input[0], delay);
    if |input| == 1 then Pass([c0.line, s.lines[1]], c0.index, [c0.out])
    else
      var c1 := RunChannel(s.lines[1], c0.index, input[1], delay);
      assert c1.index == (s.delayIndex + |input[0]| + |input[1]|) % Capacity by {
        var a := s.delayIndex + |input[0]|;
        assert c0.index == a % Capacity;
        assert c1.index == (a % Capacity + |input[1]|) % Capacity;
        WrapAdd(a, |input[1]|);
      }
      Pass([c0.line, c1.line], c1.index, [c0.out, c1.out])
  }

  /** The corrected channel loop: both channels start from the same write
      index, which then moves on once per frame. */
  function SideBySide(s: State, input: seq<seq<real>>, delay: real): (r: Pass)
    requires Valid(s) && 0 < |input| && 1.0 <= delay <= Capacity as real
    ensures Valid(s.(lines := r.lines, delayIndex := r.index))
    ensures |r.out| == Processed(|input|)
    ensures forall c :: 0 <= c < |r.out| ==> |r.out[c]| == |input[c]|
    ensures r.index == (s.delayIndex + |input[0]|) % Capacity
  {
    var c0 := RunChannel(s.lines[0], s.delayIndex, input[0], delay);
    if |input| == 1 then Pass([c0.line, s.lines[1]], c0.index, [c0.out])
    else
      var c1 := RunChannel(s.lines[1], s.delayIndex, input[1], delay);
      Pass([c0.line, c1.line], c0.index, [c0.out, c1.out])
  }

  /** `process(inputs, outputs, parameters)` as written: with no input the
      state stays as it was and nothing is drawn; otherwise two draws move
      the phases, which fix the delay for the whole block, and the channel
      loop runs. */
  function Process(s: State, input: seq<seq<real>>, wowDepth: real, flutterDepth: real,
                   rate: real, m: MathLib, draw: RandomStream, k: nat): (r: Block)
    requires Valid(s) && 0.0 < rate
    requires 0.0 <= wowDepth <= 1.0 && 0.0 <= flutterDepth <= 1.0
    ensures |input| == 0 ==> r == Block(s, [], k)
    ensures 0 < |input| ==> r.cursor == k + 2
    ensures Valid(r.state)
    ensures |r.out| == Processed(|input|)
    ensures forall c :: 0 <= c < |r.out| ==> |r.out[c]| == |input[c]|
    ensures PhasesInRange(s, m.pi) && 25.0 <= rate ==> PhasesInRange(r.state, m.pi)
  {
    if |input| == 0 then Block(s, [], k)
    else
      var moved := NextPhases(s, rate, m, draw, k);
      var p := Sequential(moved, input, BlockDelay(moved, wowDepth, flutterDepth, m));
      Block(moved.(lines := p.lines, delayIndex := p.index), p.out, k + 2)
  }

  /** The corrected block, with the channel loop of `SideBySide`. */
  function ProcessFixed(s: State, input: seq<seq<real>>, wowDepth: real, flutterDepth: real,
                        rate: real, m: MathLib, draw: RandomStream, k: nat): (r: Block)
    requires Valid(s) && 0.0 < rate
    requires 0.0 <= wowDepth <= 1.0 && 0.0 <= flutterDepth <= 1.0
    ensures |input| == 0 ==> r == Block(s, [], k)
    ensures 0 < |input| ==> r.cursor == k + 2
    ensures Valid(r.state)
    ensures |r.out| == Processed(|input|)
    ensures forall c :: 0 <= c < |r.out| ==> |r.out[c]| == |input[c]|
    ensures PhasesInRange(s, m.pi) && 25.0 <= rate ==> PhasesInRange(r.state, m.pi)
  {
    if |input| == 0 then Block(s, [], k)
    else
      var moved := NextPhases(s, rate, m, draw, k);
      var p := SideBySide(moved, input, BlockDelay(moved, wowDepth, flutterDepth, m));
      Block(moved.(lines := p.lines, delayIndex := p.index), p.out, k + 2)
  }

  /** With one channel at zero depth the processor as written is a pure
      100-sample delay. */
  lemma MonoIsDelay(s: State, h: seq<real>, input: seq<seq<real>>, rate: real, m: MathLib,
                    draw: RandomStream, k: nat)
    requires Valid(s) && 0.0 < rate && |input| == 1
    requires Holds(s.lines[0], s.delayIndex, h)
    ensures var r := Process(s, input, 0.0, 0.0, rate, m, draw, k);
      Holds(r.state.lines[0], r.state.delayIndex, h + input[0]) && Delayed(r.out[0], h, input[0])
  {
    RunKeepsHistory(s.lines[0], s.delayIndex, h, input[0]);
  }

  /** At zero depth the corrected processor delays every channel by 100
      samples of that channel's own history, mono or stereo. */
  lemma FixedIsDelay(s: State, h0: seq<real>, h1: seq<real>, input: seq<seq<real>>, rate: real,
                     m: MathLib, draw: RandomStream, k: nat)
    requires Valid(s) && 0.0 < rate && 0 < |input|
    requires Holds(s.lines[0], s.delayIndex, h0)
    requires 2 <= |input| ==> Holds(s.lines[1], s.delayIndex, h1) && |input[1]| == |input[0]|
    ensures var r := ProcessFixed(s, input, 0.0, 0.0, rate, m, draw, k);
      && Holds(r.state.lines[0], r.state.delayIndex, h0 + input[0])
      && Delayed(r.out[0], h0, input[0])
      && (2 <= |input| ==>
            Holds(r.state.lines[1], r.state.delayIndex, h1 + input[1]) && Delayed(r.out[1], h1, input[1]))
  {
    RunKeepsHistory(s.lines[0], s.delayIndex, h0, input[0]);
    if 2 <= |input| {
      RunKeepsHistory(s.lines[1], s.delayIndex, h1, input[1]);
    }
  }

  function Ones(n: nat): (o: seq<real>)
    ensures |o| == n && forall i :: 0 <= i < n ==> o[i] == 1.0
  {
    seq(n, i => 1.0)
  }

  /** Two stereo blocks of 100 samples of 1.0 at zero depth, as written:
      the first output of the second block reads a cell of line 0 that only
      channel 1 was ever written at, in line 1, and gives 0.0 although
      channel 0 has by then carried 1.0 for 200 samples. */
  lemma StereoStaleRead(rate: real, m: MathLib, draw: RandomStream)
    requires 0.0 < rate
    ensures var x := Ones(100);
      var b1 := Process(Init(), [x, x], 0.0, 0.0, rate, m, draw, 0);
      Process(b1.state, [x, x], 0.0, 0.0, rate, m, draw, b1.cursor).out[0][0] == 0.0
  {
    var x := Ones(100);
    var b1 := Process(Init(), [x, x], 0.0, 0.0, rate, m, draw, 0);
    FirstStereoBlock(rate, m, draw);
    SecondStereoBlock(b1.state, rate, m, draw, b1.cursor);
  }

  /** After the first stereo block, line 0 was written at cells 0 to 99
      only and the write index stands at 200. */
  lemma FirstStereoBlock(rate: real, m: MathLib, draw: RandomStream)
    requires 0.0 < rate
    ensures var b1 := Process(Init(), [Ones(100), Ones(100)], 0.0, 0.0, rate, m, draw, 0);
      b1.state.delayIndex == 200 && b1.state.lines[0][100] == 0.0
  {
    var x := Ones(100);
    var moved := NextPhases(Init(), rate, m, draw, 0);
    var p := Sequential(moved, [x, x], BaseDelay);
    assert p.lines[0][100] == moved.lines[0][100];
    assert p.index == 200 by {
      assert moved.delayIndex + |x| + |x| == 200;
      assert 200 % Capacity == 200;
    }
  }

  /** A stereo block that starts writing at 200 reads cell 100 of line 0
      first. */
  lemma SecondStereoBlock(s: State, rate: real, m: MathLib, draw: RandomStream, k: nat)
    requires Valid(s) && 0.0 < rate && s.delayIndex == 200 && s.lines[0][100] == 0.0
    ensures Process(s, [Ones(100), Ones(100)], 0.0, 0.0, rate, m, draw, k).out[0][0] == 0.0
  {
    var input := [Ones(100), Ones(100)];
    var moved := NextPhases(s, rate, m, draw, k);
    assert Process(s, input, 0.0, 0.0, rate, m, draw, k).out == Sequential(moved, input, BaseDelay).out;
    FirstOutput(moved, input, BaseDelay);
    assert input[0][0] == 1.0;
    ReadsHundredBack(s.lines[0]);
  }

  /** The first output of a block is the first step of channel 0. */
  lemma FirstOutput(s: State, input: seq<seq<real>>, delay: real)
    requires Valid(s) && 0 < |input| && 0 < |input[0]| && 1.0 <= delay <= Capacity as real
    ensures Sequential(s, input, delay).out[0][0] == Step(s.lines[0], s.delayIndex, input[0][0], delay).out
  {
    assert Sequential(s, input, delay).out[0] == RunChannel(s.lines[0], s.delayIndex, input[0], delay).out;
  }

  /** Writing at cell 200 with the base delay reads cell 100. */
  lemma ReadsHundredBack(line: seq<real>)
    requires |line| == Capacity
    ensures Step(line, 200, 1.0, BaseDelay).out == line[100]
  {
    var t := Step(line, 200, 1.0, BaseDelay);
    assert ReadPosition(200, BaseDelay) == 100.0;
    assert t.out == t.line[100];
  }

  /** The same two blocks through the corrected processor: channel 0 gets
      back the 1.0 it was fed 100 samples earlier. */
  lemma StereoFixedDelay(rate: real, m: MathLib, draw: RandomStream)
    requires 0.0 < rate
    ensures var x := Ones(100);
      var b1 := ProcessFixed(Init(), [x, x], 0.0, 0.0, rate, m, draw, 0);
      ProcessFixed(b1.state, [x, x], 0.0, 0.0, rate, m, draw, b1.cursor).out[0][0] == 1.0
  {
    var x := Ones(100);
    var h := Zeros(Capacity) + x;
    var b1 := ProcessFixed(Init(), [x, x], 0.0, 0.0, rate, m, draw, 0);
    FixedFirstBlock(rate, m, draw);
    var b2 := ProcessFixed(b1.state, [x, x], 0.0, 0.0, rate, m, draw, b1.cursor);
    assert Delayed(b2.out[0], h, x) by {
      FixedIsDelay(b1.state, h, h, [x, x], rate, m, draw, b1.cursor);
    }
    assert b2.out[0][0] == (h + x)[Capacity];
    assert (h + x)[Capacity] == x[0];
  }

  /** After the first block from silence, both lines hold 8192 zeros
      followed by that block's samples. */
  lemma FixedFirstBlock(rate: real, m: MathLib, draw: RandomStream)
    requires 0.0 < rate
    ensures var x := Ones(100);
      var b1 := ProcessFixed(Init(), [x, x], 0.0, 0.0, rate, m, draw, 0);
      && Holds(b1.state.lines[0], b1.state.delayIndex, Zeros(Capacity) + x)
      && Holds(b1.state.lines[1], b1.state.delayIndex, Zeros(Capacity) + x)
  {
    var zs := Zeros(Capacity);
    InitHolds(0);
    InitHolds(1);
    FixedIsDelay(Init(), zs, zs, [Ones(100), Ones(100)], rate, m, draw, 0);
  }
}
