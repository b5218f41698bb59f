/** `DropoutProcessor` (public/js/worklets/dropout-worklet.js): every
    1000th sample, while no dropout is running, one random draw decides
    whether a dropout starts; a dropout attenuates floor(10 + 500 intensity)
    consecutive samples, each by its own random gain in [0.1, 0.3). One
    state is shared by all channels of a block, so channel 1 continues
    where channel 0 left off. */
module Dropout {
  import opened Numeric
  import opened Host

  /** Samples between two trigger checks. */
  const CheckInterval: nat := 1000

  /** `dropoutState`, `dropoutCounter`, `dropoutLength`, `randomCounter`. */
  datatype State = State(bursting: bool, counter: int, length: int, randomCounter: nat)

  /** The constructor's state. */
  function Init(): (s: State)
    ensures Valid(s) && !s.bursting && s.randomCounter == 0
  {
    State(false, 0, 0, 0)
  }

  /** A running dropout has samples left and is at most 510 samples long. */
  ghost predicate Valid(s: State) {
    s.bursting ==> 0 <= s.counter < s.length <= 510
  }

  /** Probability that a check starts a dropout. */
  function TriggerChance(intensity: real, frequency: real): real {
    intensity * frequency * 0.001
  }

  /** `Math.floor(10 + intensity * 500)`: between 10 and 510 samples. */
  function BurstLength(intensity: real): (n: int)
    ensures 0.0 <= intensity <= 1.0 ==> 10 <= n <= 510
  {
    Floor(10.0 + intensity * 500.0)
  }

  /** The trigger check on a state whose sample counter has already been
      advanced: only an idle processor on a multiple of 1000 draws, and it
      starts a dropout when the draw is below the chance. Returns the new
      state and the cursor after the draws made. */
  function Check(s: State, intensity: real, frequency: real, draw: RandomStream, k: nat): (r: (State, nat))
    ensures !s.bursting && s.randomCounter % CheckInterval == 0 ==> r.1 == k + 1
    ensures s.bursting || s.randomCounter % CheckInterval != 0 ==> r == (s, k)
  {
    if !s.bursting && s.randomCounter % CheckInterval == 0 then
      if draw(k) < TriggerChance(intensity, frequency) then
        (s.(bursting := true, counter := 0, length := BurstLength(intensity)), k + 1)
      else
        (s, k + 1)
    else
      (s, k)
  }

  /** One sample: its output, the gain applied, the state after it and the
      cursor after the draws it made. */
  datatype Sample = Sample(out: real, gain: real, state: State, cursor: nat)

  /** The body of the inner loop for one sample `x`: the output is the
      input times a gain that is 1 (pass-through) or in [0.1, 0.3)
      (dropout), the sample counter advances by one, and at most two draws
      are made. */
  function StepSample(s: State, x: real, intensity: real, frequency: real,
                      draw: RandomStream, k: nat): (r: Sample)
    ensures r.out == x * r.gain
    ensures r.gain == 1.0 || 0.1 <= r.gain < 0.3
    ensures r.state.randomCounter == s.randomCounter + 1
    ensures k <= r.cursor <= k + 2
    ensures Valid(s) && 0.0 <= intensity <= 1.0 ==> Valid(r.state)
  {
    var (s1, k1) := Check(s.(randomCounter := s.randomCounter + 1), intensity, frequency, draw, k);
    if s1.bursting then
      var gain := 0.1 + draw(k1) * 0.2;
      var counter := s1.counter + 1;
      Sample(x * gain, gain, s1.(counter := counter, bursting := !(counter >= s1.length)), k1 + 1)
    else
      Sample(x, 1.0, s1, k1)
  }

  /** Between checks an idle processor is a wire and makes no draw. */
  lemma IdleBetweenChecks(s: State, x: real, intensity: real, frequency: real, draw: RandomStream, k: nat)
    requires !s.bursting && (s.randomCounter + 1) % CheckInterval != 0
    ensures var r := StepSample(s, x, intensity, frequency, draw, k);
      r.out == x && r.state == s.(randomCounter := s.randomCounter + 1) && r.cursor == k
  {
  }

  /** An idle processor starts a dropout exactly when the sample is a
      multiple of 1000 and the draw is below the chance; the dropout then
      has its full length and has already used its first sample. */
  lemma TriggerExactly(s: State, x: real, intensity: real, frequency: real, draw: RandomStream, k: nat)
    requires !s.bursting
    ensures var r := StepSample(s, x, intensity, frequency, draw, k);
      && (r.gain != 1.0 <==>
            (s.randomCounter + 1) % CheckInterval == 0 && draw(k) < TriggerChance(intensity, frequency))
      && (r.gain != 1.0 ==>
            r.state.length == BurstLength(intensity) && r.state.counter == 1 && r.cursor == k + 2)
  {
  }

  /** A running dropout attenuates, counts one more sample, and ends when
      the count reaches its length. */
  lemma BurstStep(s: State, x: real, intensity: real, frequency: real, draw: RandomStream, k: nat)
    requires s.bursting
    ensures var r := StepSample(s, x, intensity, frequency, draw, k);
      && r.gain != 1.0 && r.cursor == k + 1
      && r.state.counter == s.counter + 1 && r.state.length == s.length
      && (r.state.bursting <==> s.counter + 1 < s.length)
  {
  }

  /** One channel of a block: the outputs, the gain each sample got, and the
      state and cursor after the channel. */
  datatype Run = Run(out: seq<real>, gains: seq<real>, state: State, cursor: nat)

  /** Every gain is 1 or in [0.1, 0.3). */
  ghost predicate Gains(out: seq<real>, xs: seq<real>, gains: seq<real>) {
    && |out| == |xs| == |gains|
    && forall i :: 0 <= i < |xs| ==> out[i] == xs[i] * gains[i] && (gains[i] == 1.0 || 0.1 <= gains[i] < 0.3)
  }

  function RunChannel(s: State, xs: seq<real>, intensity: real, frequency: real,
                      draw: RandomStream, k: nat): (r: Run)
    ensures Gains(r.out, xs, r.gains)
    ensures r.state.randomCounter == s.randomCounter + |xs|
    ensures k <= r.cursor
    ensures Valid(s) && 0.0 <= intensity <= 1.0 ==> Valid(r.state)
    decreases |xs|
  {
    if |xs| == 0 then Run([], [], s, k)
    else
      var one := StepSample(s, xs[0], intensity, frequency, draw, k);
      var rest := RunChannel(one.state, xs[1..], intensity, frequency, draw, one.cursor);
      GainsCons(one.out, xs[0], one.gain, rest.out, xs[1..], rest.gains);
      HeadAndTail(xs, xs[0], xs[1..]);
      Run([one.out] + rest.out, [one.gain] + rest.gains, rest.state, rest.cursor)
  }

  lemma GainsCons(y: real, x: real, g: real, out: seq<real>, xs: seq<real>, gains: seq<real>)
    requires y == x * g && (g == 1.0 || 0.1 <= g < 0.3)
    requires Gains(out, xs, gains)
    ensures Gains([y] + out, [x] + xs, [g] + gains)
  {
    var out', xs', gains' := [y] + out, [x] + xs, [g] + gains;
    forall i | 0 <= i < |xs'|
      ensures out'[i] == xs'[i] * gains'[i] && (gains'[i] == 1.0 || 0.1 <= gains'[i] < 0.3)
    {
      if i > 0 {
        assert out'[i] == out[i - 1] && xs'[i] == xs[i - 1] && gains'[i] == gains[i - 1];
      }
    }
  }

  /** With a zero chance an idle processor stays idle and passes every
      sample through unchanged. */
  lemma {:induction false} SilentWhenChanceIsZero(s: State, xs: seq<real>, intensity: real,
                                                  frequency: real, draw: RandomStream, k: nat)
    requires !s.bursting && TriggerChance(intensity, frequency) <= 0.0
    ensures RunChannel(s, xs, intensity, frequency, draw, k).out == xs
    ensures !RunChannel(s, xs, intensity, frequency, draw, k).state.bursting
    decreases |xs|
  {
    if |xs| > 0 {
      var one := StepSample(s, xs[0], intensity, frequency, draw, k);
      IdleStep(s, xs[0], intensity, frequency, draw, k);
      var rest := RunChannel(one.state, xs[1..], intensity, frequency, draw, one.cursor);
      SilentWhenChanceIsZero(one.state, xs[1..], intensity, frequency, draw, one.cursor);
      var r := RunChannel(s, xs, intensity, frequency, draw, k);
      assert r.out == [one.out] + rest.out && r.state == rest.state;
      HeadAndTail(xs, one.out, rest.out);
    }
  }

  /** With a zero chance an idle sample passes through and leaves the
      processor idle. */
  lemma IdleStep(s: State, x: real, intensity: real, frequency: real, draw: RandomStream, k: nat)
    requires !s.bursting && TriggerChance(intensity, frequency) <= 0.0
    ensures var r := StepSample(s, x, intensity, frequency, draw, k); r.out == x && !r.state.bursting
  {
  }

  /** A running dropout with `length - counter` samples left attenuates
      exactly that many samples and then lets the processor go idle. */
  lemma {:induction false} BurstLasts(s: State, xs: seq<real>, intensity: real, frequency: real,
                                      draw: RandomStream, k: nat)
    requires Valid(s) && s.bursting && |xs| == s.length - s.counter
    ensures forall i :: 0 <= i < |xs| ==> RunChannel(s, xs, intensity, frequency, draw, k).gains[i] != 1.0
    ensures !RunChannel(s, xs, intensity, frequency, draw, k).state.bursting
    decreases |xs|
  {
    var r := RunChannel(s, xs, intensity, frequency, draw, k);
    var one := StepSample(s, xs[0], intensity, frequency, draw, k);
    if |xs| > 1 {
      BurstLasts(one.state, xs[1..], intensity, frequency, draw, one.cursor);
      var rest := RunChannel(one.state, xs[1..], intensity, frequency, draw, one.cursor);
      assert r.gains == [one.gain] + rest.gains;
      forall i | 0 <= i < |xs| ensures r.gains[i] != 1.0 {
        if i > 0 { assert r.gains[i] == rest.gains[i - 1]; }
      }
    }
  }

  /** The state and outputs after channels c.. of a block, with the gain
      each output sample got. */
  datatype Block = Block(out: seq<seq<real>>, gains: seq<seq<real>>, state: State, cursor: nat)

  /** Output channel j is input channel c + j times its gains. */
  ghost predicate BlockGains(out: seq<seq<real>>, input: seq<seq<real>>, c: nat, gains: seq<seq<real>>) {
    && |out| == |gains| && c + |out| == |input|
    && forall j :: 0 <= j < |out| ==> Gains(out[j], input[c + j], gains[j])
  }

  function ProcessFrom(s: State, input: seq<seq<real>>, c: nat, intensity: real, frequency: real,
                       draw: RandomStream, k: nat): (r: Block)
    requires c <= |input|
    ensures |r.out| == |input| - c
    ensures BlockGains(r.out, input, c, r.gains)
    ensures r.state.randomCounter == s.randomCounter + TotalFrames(input[c..])
    ensures k <= r.cursor
    ensures Valid(s) && 0.0 <= intensity <= 1.0 ==> Valid(r.state)
    decreases |input| - c
  {
    if c == |input| then Block([], [], s, k)
    else
      var run := RunChannel(s, input[c], intensity, frequency, draw, k);
      var rest := ProcessFrom(run.state, input, c + 1, intensity, frequency, draw, run.cursor);
      assert input[c..][1..] == input[c + 1..];
      var r := Block([run.out] + rest.out, [run.gains] + rest.gains, rest.state, rest.cursor);
      assert forall j :: 1 <= j < |r.out| ==> r.out[j] == rest.out[j - 1] && r.gains[j] == rest.gains[j - 1];
      r
  }

  /** With a zero chance an idle processor stays idle across channels c..
      and passes each one through unchanged. */
  lemma {:induction false} SilentFrom(s: State, input: seq<seq<real>>, c: nat, intensity: real,
                                      frequency: real, draw: RandomStream, k: nat)
    requires c <= |input| && !s.bursting && TriggerChance(intensity, frequency) <= 0.0
    ensures ProcessFrom(s, input, c, intensity, frequency, draw, k).out == input[c..]
    ensures !ProcessFrom(s, input, c, intensity, frequency, draw, k).state.bursting
    decreases |input| - c
  {
    if c < |input| {
      var run := RunChannel(s, input[c], intensity, frequency, draw, k);
      var rest := ProcessFrom(run.state, input, c + 1, intensity, frequency, draw, run.cursor);
      SilentWhenChanceIsZero(s, input[c], intensity, frequency, draw, k);
      SilentFrom(run.state, input, c + 1, intensity, frequency, draw, run.cursor);
      var r := ProcessFrom(s, input, c, intensity, frequency, draw, k);
      assert r.out == [run.out] + rest.out && r.state == rest.state;
      HeadAndTail(input[c..], run.out, rest.out);
    }
  }

  /** `process(inputs, outputs, parameters)` for one block, drawing from
      `draw` at cursor `k`. A block without input channels changes nothing;
      otherwise every output sample is its input sample times 1 or a gain in
      [0.1, 0.3), and the sample counter advances by the samples of all
      channels together. */
  function Process(s: State, input: seq<seq<real>>, intensity: real, frequency: real,
                   draw: RandomStream, k: nat): (r: Block)
    ensures |input| == 0 ==> r == Block([], [], s, k)
    ensures |r.out| == |input| && |r.gains| == |input|
    ensures forall c :: 0 <= c < |input| ==> Gains(r.out[c], input[c], r.gains[c])
    ensures r.state.randomCounter == s.randomCounter + TotalFrames(input)
    ensures Valid(s) && 0.0 <= intensity <= 1.0 ==> Valid(r.state)
  {
    if |input| == 0 then Block([], [], s, k)
    else
      assert input[0..] == input;
      ProcessFrom(s, input, 0, intensity, frequency, draw, k)
  }

  /** With a zero chance (intensity or frequency 0) an idle processor passes
      the whole block through unchanged and stays idle. */
  lemma SilentBlock(s: State, input: seq<seq<real>>, intensity: real, frequency: real,
                    draw: RandomStream, k: nat)
    requires !s.bursting && TriggerChance(intensity, frequency) <= 0.0
    ensures Process(s, input, intensity, frequency, draw, k).out == input
    ensures !Process(s, input, intensity, frequency, draw, k).state.bursting
  {
    if |input| > 0 {
      SilentFrom(s, input, 0, intensity, frequency, draw, k);
      assert input[0..] == input;
    }
  }

  // ---------------------------------------------------------------------
  // One state for all channels: a block is one run over its channels laid
  // end to end, and consecutive blocks continue that run.

  /** Running one stretch of samples and then another from where the first
      left the state and the random cursor is one run over both. */
  lemma {:induction false} RunAppend(s: State, xs: seq<real>, ys: seq<real>, intensity: real,
                                     frequency: real, draw: RandomStream, k: nat)
    ensures var a := RunChannel(s, xs, intensity, frequency, draw, k);
      var b := RunChannel(a.state, ys, intensity, frequency, draw, a.cursor);
      RunChannel(s, xs + ys, intensity, frequency, draw, k) == Run(a.out + b.out, a.gains + b.gains, b.state, b.cursor)
    decreases |xs|
  {
    if |xs| == 0 {
      assert xs + ys == ys;
    } else {
      var one := StepSample(s, xs[0], intensity, frequency, draw, k);
      var a' := RunChannel(one.state, xs[1..], intensity, frequency, draw, one.cursor);
      var b := RunChannel(a'.state, ys, intensity, frequency, draw, a'.cursor);
      RunAppend(one.state, xs[1..], ys, intensity, frequency, draw, one.cursor);
      HeadOfAppend(xs, ys);
      RunCons(s, xs, intensity, frequency, draw, k);
      RunCons(s, xs + ys, intensity, frequency, draw, k);
      ConsAppend(one.out, a'.out, b.out);
      ConsAppend(one.gain, a'.gains, b.gains);
    }
  }

  /** A non-empty run is its first sample followed by the run of the rest. */
  lemma RunCons(s: State, xs: seq<real>, intensity: real, frequency: real, draw: RandomStream, k: nat)
    requires 0 < |xs|
    ensures var one := StepSample(s, xs[0], intensity, frequency, draw, k);
      var rest := RunChannel(one.state, xs[1..], intensity, frequency, draw, one.cursor);
      RunChannel(s, xs, intensity, frequency, draw, k)
        == Run([one.out] + rest.out, [one.gain] + rest.gains, rest.state, rest.cursor)
  {
  }

  /** Channels c.. of a block are processed as one run over their samples
      laid end to end: the burst state and the random cursor pass from each
      channel to the next. */
  lemma {:induction false} ProcessFromIsOneRun(s: State, input: seq<seq<real>>, c: nat, intensity: real,
                                               frequency: real, draw: RandomStream, k: nat)
    requires c <= |input|
    ensures var r := ProcessFrom(s, input, c, intensity, frequency, draw, k);
      var one := RunChannel(s, Flatten(input[c..]), intensity, frequency, draw, k);
      Flatten(r.out) == one.out && Flatten(r.gains) == one.gains && r.state == one.state && r.cursor == one.cursor
    decreases |input| - c
  {
    if c == |input| {
      assert input[c..] == [];
    } else {
      var run := RunChannel(s, input[c], intensity, frequency, draw, k);
      var rest := ProcessFrom(run.state, input, c + 1, intensity, frequency, draw, run.cursor);
      ProcessFromIsOneRun(run.state, input, c + 1, intensity, frequency, draw, run.cursor);
      FlattenFrom(input, c);
      RunAppend(s, input[c], Flatten(input[c + 1..]), intensity, frequency, draw, k);
      var r := ProcessFrom(s, input, c, intensity, frequency, draw, k);
      assert r.out == [run.out] + rest.out && r.gains == [run.gains] + rest.gains;
      FlattenCons(run.out, rest.out);
      FlattenCons(run.gains, rest.gains);
    }
  }

  /** A block is one run over its channels laid end to end, so a dropout
      running at the end of one channel goes on into the next. */
  lemma ProcessIsOneRun(s: State, input: seq<seq<real>>, intensity: real, frequency: real,
                        draw: RandomStream, k: nat)
    ensures var r := Process(s, input, intensity, frequency, draw, k);
      var one := RunChannel(s, Flatten(input), intensity, frequency, draw, k);
      Flatten(r.out) == one.out && Flatten(r.gains) == one.gains && r.state == one.state && r.cursor == one.cursor
  {
    if |input| > 0 {
      ProcessFromIsOneRun(s, input, 0, intensity, frequency, draw, k);
      assert input[0..] == input;
    }
  }

  /** Two blocks, the second started from the state and cursor the first
      left, are one run over the samples of both: a dropout goes on across
      the block boundary. */
  lemma BlocksAreOneStream(s: State, b1: seq<seq<real>>, b2: seq<seq<real>>, intensity: real,
                           frequency: real, draw: RandomStream, k: nat)
    ensures var p1 := Process(s, b1, intensity, frequency, draw, k);
      var p2 := Process(p1.state, b2, intensity, frequency, draw, p1.cursor);
      var one := RunChannel(s, Flatten(b1) + Flatten(b2), intensity, frequency, draw, k);
      Flatten(p1.out) + Flatten(p2.out) == one.out && p2.state == one.state && p2.cursor == one.cursor
  {
    var p1 := Process(s, b1, intensity, frequency, draw, k);
    ProcessIsOneRun(s, b1, intensity, frequency, draw, k);
    ProcessIsOneRun(p1.state, b2, intensity, frequency, draw, p1.cursor);
    RunAppend(s, Flatten(b1), Flatten(b2), intensity, frequency, draw, k);
  }

  /** A running dropout with `length - counter` samples left, met by a
      block of exactly that many samples over all its channels, attenuates
      every one of them, whichever channel they are in, and then ends. */
  lemma BurstSpansChannels(s: State, input: seq<seq<real>>, intensity: real, frequency: real,
                           draw: RandomStream, k: nat)
    requires Valid(s) && s.bursting && TotalFrames(input) == s.length - s.counter
    ensures var r := Process(s, input, intensity, frequency, draw, k);
      && |Flatten(r.gains)| == TotalFrames(input)
      && (forall i :: 0 <= i < |Flatten(r.gains)| ==> Flatten(r.gains)[i] != 1.0)
      && !r.state.bursting
  {
    ProcessIsOneRun(s, input, intensity, frequency, draw, k);
    BurstLasts(s, Flatten(input), intensity, frequency, draw, k);
  }
}
