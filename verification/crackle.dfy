/** `VinylCrackleProcessor` (js/worklets/vinyl-crackle-worklet.js): a table
    of 1000 random clicks built once; while the intensity is positive, each
    sample may start a click (chance density * intensity / 1000) that lasts
    floor(1 + 10 intensity) samples at 0.1 * intensity of a table entry,
    and every sample gets a small uniform hiss of up to 0.01 * intensity.
    One state is shared by all channels of a block. */
module Crackle {
  import opened Numeric
  import opened Host

  /** Entries in the click table. */
  const TableSize: nat := 1000

  /** `crackleBuffer`, `lastCrackle` and `crackleLength`. The source's
      `bufferIndex` is never read and is left out. */
  datatype State = State(table: seq<real>, lastCrackle: real, crackleLength: int)

  /** A full table of values in [-1, 1), the current click taken from such a
      table (or the initial 0), and a countdown of at most 11 samples. */
  ghost predicate Valid(s: State) {
    && |s.table| == TableSize
    && (forall i :: 0 <= i < |s.table| ==> -1.0 <= s.table[i] < 1.0)
    && -1.0 <= s.lastCrackle <= 1.0
    && 0 <= s.crackleLength <= 11
  }

  /** The constructor: fills the table with `(Math.random() - 0.5) * 2`,
      one draw per entry. */
  method Init(draw: RandomStream, k: nat) returns (s: State, cursor: nat)
    ensures Valid(s) && s.lastCrackle == 0.0 && s.crackleLength == 0
    ensures forall i :: 0 <= i < TableSize ==> s.table[i] == (draw(k + i) - 0.5) * 2.0
    ensures cursor == k + TableSize
  {
    var table: seq<real> := [];
    var i := 0;
    while i < TableSize
      invariant 0 <= i <= TableSize && |table| == i
      invariant forall j :: 0 <= j < i ==> table[j] == (draw(k + j) - 0.5) * 2.0
      invariant forall j :: 0 <= j < i ==> -1.0 <= table[j] < 1.0
    {
      table := table + [(draw(k + i) - 0.5) * 2.0];
      i := i + 1;
    }
    s := State(table, 0.0, 0);
    cursor := k + TableSize;
  }

  /** Probability that a sample starts a click. */
  function Chance(density: real, intensity: real): real {
    density * intensity * 0.001
  }

  /** `Math.floor(1 + intensity * 10)`: 1 to 11 samples. */
  function ClickLength(intensity: real): (n: int)
    ensures 0.0 <= intensity <= 1.0 ==> 1 <= n <= 11
  {
    Floor(1.0 + intensity * 10.0)
  }

  /** `Math.floor(Math.random() * length)`: always a valid index. */
  function TableIndex(r: Unit, n: nat): (i: nat)
    requires n > 0
    ensures i < n
  {
    ScaleStrict(r, 1.0, n as real);
    Floor(r * n as real)
  }

  /** The click added to a sample: 0.1 * intensity of the current click
      while the countdown runs. */
  function ClickTerm(s: State, intensity: real): real {
    if s.crackleLength > 0 then s.lastCrackle * intensity * 0.1 else 0.0
  }

  /** The hiss added to a sample from draw `r`. */
  function HissTerm(r: Unit, intensity: real): real {
    (r - 0.5) * intensity * 0.02
  }

  datatype Sample = Sample(out: real, state: State, cursor: nat)

  /** The body of the inner loop for one sample `x`. At zero intensity the
      sample passes untouched and nothing is drawn; otherwise it draws two
      or three numbers and the table never changes. */
  function StepSample(s: State, x: real, intensity: real, density: real,
                      draw: RandomStream, k: nat): (r: Sample)
    requires Valid(s)
    ensures intensity <= 0.0 ==> r == Sample(x, s, k)
    ensures 0.0 < intensity ==> r.cursor == k + 2 || r.cursor == k + 3
    ensures r.state.table == s.table
    ensures 0.0 <= intensity <= 1.0 ==> Valid(r.state)
  {
    if intensity <= 0.0 then Sample(x, s, k)
    else
      var (s1, k1) :=
        if draw(k) < Chance(density, intensity) then
          (s.(lastCrackle := s.table[TableIndex(draw(k + 1), |s.table|)],
              crackleLength := ClickLength(intensity)), k + 2)
        else (s, k + 1);
      var s2 := if s1.crackleLength > 0 then s1.(crackleLength := s1.crackleLength - 1) else s1;
      Sample(x + ClickTerm(s1, intensity) + HissTerm(draw(k1), intensity), s2, k1 + 1)
  }

  /** The state after the trigger test of a sample at positive intensity. */
  function Armed(s: State, intensity: real, density: real, draw: RandomStream, k: nat): State
    requires Valid(s)
  {
    if draw(k) < Chance(density, intensity) then
      s.(lastCrackle := s.table[TableIndex(draw(k + 1), |s.table|)], crackleLength := ClickLength(intensity))
    else s
  }

  /** A click starts exactly when the first draw is below the chance; it then
      takes the table entry the second draw points at and its full length,
      of which this sample uses one. Without a new click the countdown goes
      down by one and stops at zero. */
  lemma TriggerExactly(s: State, x: real, intensity: real, density: real, draw: RandomStream, k: nat)
    requires Valid(s) && 0.0 < intensity
    ensures var r := StepSample(s, x, intensity, density, draw, k);
      && (draw(k) < Chance(density, intensity) ==>
            && r.state.lastCrackle == s.table[TableIndex(draw(k + 1), |s.table|)]
            && r.state.crackleLength == ClickLength(intensity) - 1
            && r.cursor == k + 3)
      && (Chance(density, intensity) <= draw(k) ==>
            && r.state.lastCrackle == s.lastCrackle
            && r.state.crackleLength == (if s.crackleLength > 0 then s.crackleLength - 1 else 0)
            && r.cursor == k + 2)
  {
    if draw(k) < Chance(density, intensity) {
      assert ClickLength(intensity) > 0 by {
        assert 1.0 + intensity * 10.0 > 1.0;
      }
    }
  }

  /** No sample moves by more than 0.11 * intensity: at most 0.1 * intensity
      of click and 0.01 * intensity of hiss. */
  lemma StepBound(s: State, x: real, intensity: real, density: real, draw: RandomStream, k: nat)
    requires Valid(s) && 0.0 < intensity
    ensures Abs(StepSample(s, x, intensity, density, draw, k).out - x) <= 0.11 * intensity
  {
    var s1 := Armed(s, intensity, density, draw, k);
    var k1 := if draw(k) < Chance(density, intensity) then k + 2 else k + 1;
    ClickBound(s1, intensity);
    HissBound(draw(k1), intensity);
  }

  lemma ClickBound(s: State, intensity: real)
    requires -1.0 <= s.lastCrackle <= 1.0 && 0.0 < intensity
    ensures -0.1 * intensity <= ClickTerm(s, intensity) <= 0.1 * intensity
  {
    if s.crackleLength > 0 {
      UnitScale(s.lastCrackle, intensity);
    }
  }

  lemma HissBound(r: Unit, intensity: real)
    requires 0.0 < intensity
    ensures -0.01 * intensity <= HissTerm(r, intensity) <= 0.01 * intensity
  {
    ScaleWeak(r - 0.5, 0.5, intensity);
    ScaleWeak(-0.5, r - 0.5, intensity);
  }

  /** One channel of a block. */
  datatype Run = Run(out: seq<real>, state: State, cursor: nat)

  /** Each output sample lies within `bound` of its input sample. */
  ghost predicate Near(out: seq<real>, xs: seq<real>, bound: real) {
    |out| == |xs| && forall i :: 0 <= i < |xs| ==> Abs(out[i] - xs[i]) <= bound
  }

  /** The inner loop over one channel: no sample moves by more than
      0.11 * intensity, and the table is kept. */
  function RunChannel(s: State, xs: seq<real>, intensity: real, density: real,
                      draw: RandomStream, k: nat): (r: Run)
    requires Valid(s) && 0.0 <= intensity <= 1.0
    ensures Near(r.out, xs, 0.11 * intensity)
    ensures Valid(r.state) && r.state.table == s.table
    ensures k <= r.cursor
    decreases |xs|
  {
    if |xs| == 0 then Run([], s, k)
    else
      var one := StepSample(s, xs[0], intensity, density, draw, k);
      var rest := RunChannel(one.state, xs[1..], intensity, density, draw, one.cursor);
      NearCons(one.out, xs[0], rest.out, xs[1..], intensity, s, density, draw, k);
      HeadAndTail(xs, xs[0], xs[1..]);
      Run([one.out] + rest.out, rest.state, rest.cursor)
  }

  lemma NearCons(y: real, x: real, out: seq<real>, xs: seq<real>, intensity: real,
                 s: State, density: real, draw: RandomStream, k: nat)
    requires Valid(s) && 0.0 <= intensity <= 1.0
    requires y == StepSample(s, x, intensity, density, draw, k).out
    requires Near(out, xs, 0.11 * intensity)
    ensures Near([y] + out, [x] + xs, 0.11 * intensity)
  {
    if 0.0 < intensity {
      StepBound(s, x, intensity, density, draw, k);
    }
    var out', xs' := [y] + out, [x] + xs;
    forall i | 0 <= i < |xs'|
      ensures Abs(out'[i] - xs'[i]) <= 0.11 * intensity
    {
      if i > 0 {
        assert out'[i] == out[i - 1] && xs'[i] == xs[i - 1];
      }
    }
  }

  /** At zero intensity a channel is passed through and the state, including
      a click in progress, is kept as it is. */
  lemma {:induction false} SilentAtZeroIntensity(s: State, xs: seq<real>, density: real,
                                                 draw: RandomStream, k: nat)
    requires Valid(s)
    ensures RunChannel(s, xs, 0.0, density, draw, k) == Run(xs, s, k)
    decreases |xs|
  {
    if |xs| > 0 {
      SilentAtZeroIntensity(s, xs[1..], density, draw, k);
      HeadAndTail(xs, xs[0], xs[1..]);
    }
  }

  /** When no new click can start, a click in progress ends after its
      remaining count of samples. */
  lemma {:induction false} ClickFades(s: State, xs: seq<real>, intensity: real, density: real,
                                      draw: RandomStream, k: nat)
    requires Valid(s) && 0.0 < intensity <= 1.0 && Chance(density, intensity) <= 0.0
    requires s.crackleLength <= |xs|
    ensures RunChannel(s, xs, intensity, density, draw, k).state.crackleLength == 0
    decreases |xs|
  {
    if |xs| > 0 {
      var one := StepSample(s, xs[0], intensity, density, draw, k);
      TriggerExactly(s, xs[0], intensity, density, draw, k);
      ClickFades(one.state, xs[1..], intensity, density, draw, one.cursor);
    }
  }

  /** The state and outputs after channels c.. of a block. */
  datatype Block = Block(out: seq<seq<real>>, state: State, cursor: nat)

  function ProcessFrom(s: State, input: seq<seq<real>>, c: nat, intensity: real, density: real,
                       draw: RandomStream, k: nat): (r: Block)
    requires Valid(s) && 0.0 <= intensity <= 1.0 && c <= |input|
    ensures |r.out| == |input| - c
    ensures ChannelsNear(r.out, input, c, 0.11 * intensity)
    ensures Valid(r.state) && r.state.table == s.table
    ensures intensity == 0.0 ==> r == Block(input[c..], s, k)
    decreases |input| - c
  {
    if c == |input| then Block([], s, k)
    else
      var run := RunChannel(s, input[c], intensity, density, draw, k);
      var rest := ProcessFrom(run.state, input, c + 1, intensity, density, draw, run.cursor);
      SilentAtZeroIntensity(s, input[c], density, draw, k);
      assert input[c..][1..] == input[c + 1..];
      HeadAndTail(input[c..], input[c], input[c + 1..]);
      ChannelsNearCons(run.out, rest.out, input, c, 0.11 * intensity);
      Block([run.out] + rest.out, rest.state, rest.cursor)
  }

  /** Output channel j lies within `bound` of input channel c + j. */
  ghost predicate ChannelsNear(out: seq<seq<real>>, input: seq<seq<real>>, c: nat, bound: real) {
    && c + |out| == |input|
    && forall j :: 0 <= j < |out| ==> Near(out[j], input[c + j], bound)
  }

  lemma ChannelsNearCons(first: seq<real>, rest: seq<seq<real>>, input: seq<seq<real>>, c: nat, bound: real)
    requires c < |input| && Near(first, input[c], bound)
    requires ChannelsNear(rest, input, c + 1, bound)
    ensures ChannelsNear([first] + rest, input, c, bound)
  {
    var out := [first] + rest;
    forall j | 0 <= j < |out| ensures Near(out[j], input[c + j], bound) {
      if j > 0 {
        assert out[j] == rest[j - 1];
      }
    }
  }

  /** `process(inputs, outputs, parameters)` for one block. With no input
      channels, or at zero intensity, the block passes through and the state
      and random cursor stay as they were. Otherwise no output sample lies
      more than 0.11 * intensity from its input sample. */
  function Process(s: State, input: seq<seq<real>>, intensity: real, density: real,
                   draw: RandomStream, k: nat): (r: Block)
    requires Valid(s) && 0.0 <= intensity <= 1.0
    ensures |input| == 0 ==> r == Block([], s, k)
    ensures intensity == 0.0 ==> r == Block(input, s, k)
    ensures |r.out| == |input|
    ensures forall c :: 0 <= c < |input| ==> Near(r.out[c], input[c], 0.11 * intensity)
    ensures Valid(r.state) && r.state.table == s.table
  {
    if |input| == 0 then Block([], s, k)
    else
      assert input[0..] == input;
      ProcessFrom(s, input, 0, intensity, density, draw, k)
  }

  // ---------------------------------------------------------------------
  // One state for all channels: a block is one run over its channels laid
  // end to end, and consecutive blocks continue that run.

  /** A non-empty run is its first sample followed by the run of the rest. */
  lemma RunCons(s: State, xs: seq<real>, intensity: real, density: real, draw: RandomStream, k: nat)
    requires Valid(s) && 0.0 <= intensity <= 1.0 && 0 < |xs|
    ensures var one := StepSample(s, xs[0], intensity, density, draw, k);
      var rest := RunChannel(one.state, xs[1..], intensity, density, draw, one.cursor);
      RunChannel(s, xs, intensity, density, draw, k) == Run([one.out] + rest.out, rest.state, rest.cursor)
  {
  }

  /** Running one stretch of samples and then another from where the first
      left the state and the random cursor is one run over both. */
  lemma {:induction false} RunAppend(s: State, xs: seq<real>, ys: seq<real>, intensity: real,
                                     density: real, draw: RandomStream, k: nat)
    requires Valid(s) && 0.0 <= intensity <= 1.0
    ensures var a := RunChannel(s, xs, intensity, density, draw, k);
      var b := RunChannel(a.state, ys, intensity, density, draw, a.cursor);
      RunChannel(s, xs + ys, intensity, density, draw, k) == Run(a.out + b.out, b.state, b.cursor)
    decreases |xs|
  {
    if |xs| == 0 {
      assert xs + ys == ys;
    } else {
      var one := StepSample(s, xs[0], intensity, density, draw, k);
      var a' := RunChannel(one.state, xs[1..], intensity, density, draw, one.cursor);
      var b := RunChannel(a'.state, ys, intensity, density, draw, a'.cursor);
      RunAppend(one.state, xs[1..], ys, intensity, density, draw, one.cursor);
      HeadOfAppend(xs, ys);
      RunCons(s, xs, intensity, density, draw, k);
      RunCons(s, xs + ys, intensity, density, draw, k);
      ConsAppend(one.out, a'.out, b.out);
    }
  }

  /** Channels c.. of a block are processed as one run over their samples
      laid end to end: the click in progress, its countdown and the random
      cursor pass from each channel to the next. */
  lemma {:induction false} ProcessFromIsOneRun(s: State, input: seq<seq<real>>, c: nat, intensity: real,
                                               density: real, draw: RandomStream, k: nat)
    requires Valid(s) && 0.0 <= intensity <= 1.0 && c <= |input|
    ensures var r := ProcessFrom(s, input, c, intensity, density, draw, k);
      var one := RunChannel(s, Flatten(input[c..]), intensity, density, draw, k);
      Flatten(r.out) == one.out && r.state == one.state && r.cursor == one.cursor
    decreases |input| - c
  {
    if c == |input| {
      assert input[c..] == [];
    } else {
      var run := RunChannel(s, input[c], intensity, density, draw, k);
      var rest := ProcessFrom(run.state, input, c + 1, intensity, density, draw, run.cursor);
      ProcessFromIsOneRun(run.state, input, c + 1, intensity, density, draw, run.cursor);
      FlattenFrom(input, c);
      RunAppend(s, input[c], Flatten(input[c + 1..]), intensity, density, draw, k);
      var r := ProcessFrom(s, input, c, intensity, density, draw, k);
      assert r.out == [run.out] + rest.out;
      FlattenCons(run.out, rest.out);
    }
  }

  /** A block is one run over its channels laid end to end, so a click
      running at the end of one channel goes on into the next. */
  lemma ProcessIsOneRun(s: State, input: seq<seq<real>>, intensity: real, density: real,
                        draw: RandomStream, k: nat)
    requires Valid(s) && 0.0 <= intensity <= 1.0
    ensures var r := Process(s, input, intensity, density, draw, k);
      var one := RunChannel(s, Flatten(input), intensity, density, draw, k);
      Flatten(r.out) == one.out && r.state == one.state && r.cursor == one.cursor
  {
    if |input| > 0 {
      ProcessFromIsOneRun(s, input, 0, intensity, density, draw, k);
      assert input[0..] == input;
    }
  }

  /** Two blocks, the second started from the state and cursor the first
      left, are one run over the samples of both: a click goes on across
      the block boundary. */
  lemma BlocksAreOneStream(s: State, b1: seq<seq<real>>, b2: seq<seq<real>>, intensity: real,
                           density: real, draw: RandomStream, k: nat)
    requires Valid(s) && 0.0 <= intensity <= 1.0
    ensures var p1 := Process(s, b1, intensity, density, draw, k);
      var p2 := Process(p1.state, b2, intensity, density, draw, p1.cursor);
      var one := RunChannel(s, Flatten(b1) + Flatten(b2), intensity, density, draw, k);
      Flatten(p1.out) + Flatten(p2.out) == one.out && p2.state == one.state && p2.cursor == one.cursor
  {
    var p1 := Process(s, b1, intensity, density, draw, k);
    ProcessIsOneRun(s, b1, intensity, density, draw, k);
    ProcessIsOneRun(p1.state, b2, intensity, density, draw, p1.cursor);
    RunAppend(s, Flatten(b1), Flatten(b2), intensity, density, draw, k);
  }

  /** When no new click can start, a click in progress ends within a block
      holding at least its remaining count of samples over all channels,
      even when it runs from one channel into the next. */
  lemma ClickFadesAcrossChannels(s: State, input: seq<seq<real>>, intensity: real, density: real,
                                 draw: RandomStream, k: nat)
    requires Valid(s) && 0.0 < intensity <= 1.0 && Chance(density, intensity) <= 0.0
    requires s.crackleLength <= TotalFrames(input)
    ensures Process(s, input, intensity, density, draw, k).state.crackleLength == 0
  {
    ProcessIsOneRun(s, input, intensity, density, draw, k);
    ClickFades(s, Flatten(input), intensity, density, draw, k);
  }
}
