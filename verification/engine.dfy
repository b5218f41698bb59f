/** The control path of `AudioDegradationEngine` (public/js/knob.js): the
    stored degradation level, the lifecycle flags, and the parameter values
    the engine writes into its audio nodes. The Web Audio graph itself is
    not modelled; each node is represented by the parameter values last
    written into it. */
module Engine {
  import opened Numeric
  import opened Host
  import opened Curves

  /** The bit crusher node: the worklet when its module loaded (parameters
      `bitDepth` and `sampleRate`), otherwise a WaveShaper whose table is
      `createBitCrushCurve(tableDepth)`. */
  datatype Crusher =
    | CrusherWorklet(bitDepth: real, sampleRate: real)
    | CrusherTable(tableDepth: real)

  /** The dropout node: the worklet (parameters `intensity` and `frequency`)
      or a plain gain node as fallback. */
  datatype DropoutNode =
    | DropoutWorklet(intensity: real, frequency: real)
    | DropoutGain(gain: real)

  /** Everything the engine writes into its nodes. `drive` is the amount the
      distortion table was last built with (`createDistortionCurve(drive)`). */
  datatype Params = Params(
    crusher: Crusher,
    highpassHz: real, highpassQ: real,
    lowpassHz: real, lowpassQ: real,
    drive: real, inputGain: real,
    noiseGain: real, outputGain: real,
    dropout: DropoutNode,
    pitchDepth: real, pitchRate: real)

  datatype Engine = Engine(
    level: real, lastUpdateTime: int,
    ready: bool, destroyed: bool,
    params: Params)

  /** Minimum spacing, in milliseconds, between accepted level updates. */
  const UpdateThreshold: int := 16

  /** Smallest level change that re-applies the effects. */
  const LevelEpsilon: real := 0.001

  /** The clean parameter set for a given choice of crusher and dropout
      nodes. */
  function CleanParams(crusherWorklet: bool, dropoutWorklet: bool): (p: Params)
    ensures p.crusher.CrusherWorklet? == crusherWorklet
    ensures p.dropout.DropoutWorklet? == dropoutWorklet
  {
    Params(
      if crusherWorklet then CrusherWorklet(16.0, 44100.0) else CrusherTable(16.0),
      20.0, 0.7, 20000.0, 0.7,
      1.0, 1.0, 0.0, 0.8,
      if dropoutWorklet then DropoutWorklet(0.0, 0.0) else DropoutGain(1.0),
      0.0, 0.1)
  }

  /** The clean set for the nodes `p` already uses. */
  function CleanFor(p: Params): Params {
    CleanParams(p.crusher.CrusherWorklet?, p.dropout.DropoutWorklet?)
  }

  /** The clean state as named value by value: full-resolution crusher,
      filters wide open at Q 0.7, unit drive and input gain, no noise,
      output at 0.8, dropouts off, no pitch modulation at 0.1 Hz. */
  ghost predicate IsClean(p: Params) {
    && (match p.crusher
        case CrusherWorklet(d, r) => d == 16.0 && r == 44100.0
        case CrusherTable(d) => d == 16.0)
    && p.highpassHz == 20.0 && p.highpassQ == 0.7
    && p.lowpassHz == 20000.0 && p.lowpassQ == 0.7
    && p.drive == 1.0 && p.inputGain == 1.0
    && p.noiseGain == 0.0 && p.outputGain == 0.8
    && (match p.dropout
        case DropoutWorklet(i, f) => i == 0.0 && f == 0.0
        case DropoutGain(g) => g == 1.0)
    && p.pitchDepth == 0.0 && p.pitchRate == 0.1
  }

  /** The ranges each parameter keeps once the engine has written it,
      whatever the level. The low-pass and pitch ranges are those of the
      gentle curve, which reaches 1.5: the low-pass goes down to 2 kHz and
      the LFO up to 1.3 Hz. */
  ghost predicate InRange(p: Params) {
    && (match p.crusher
        case CrusherWorklet(d, r) => 6.0 <= d <= 16.0 && 8000.0 <= r <= 44100.0
        case CrusherTable(d) => 6.0 <= d <= 16.0)
    && 20.0 <= p.highpassHz <= 170.0 && p.highpassQ == 0.7
    && 2000.0 <= p.lowpassHz <= 20000.0 && 0.7 <= p.lowpassQ <= 2.95
    && 1.0 <= p.drive <= 8.0 && 0.8 <= p.inputGain <= 1.0
    && 0.0 <= p.noiseGain <= 0.02 && p.outputGain == 0.8
    && (match p.dropout
        case DropoutWorklet(i, f) => 0.0 <= i <= 1.0 && f == 5.0 * i && f <= 20.0
        case DropoutGain(g) => g == 1.0)
    && 0.0 <= p.pitchDepth <= 0.0012 && 0.1 <= p.pitchRate <= 1.3
  }

  lemma CleanIsInRange(p: Params)
    requires IsClean(p)
    ensures InRange(p)
  {
  }

  lemma CleanParamsAreClean(crusherWorklet: bool, dropoutWorklet: bool)
    ensures IsClean(CleanParams(crusherWorklet, dropoutWorklet))
  {
  }

  // ---------------------------------------------------------------------
  // The apply* methods. Each recomputes its own intensity from the stored
  // level with its own curve; the intensity applyDegradationEffects passes
  // in is ignored.

  /** bitDepth = max(6, 16 - 10 smooth(level)), sampleRate = max(8000,
      44100 - 36100 smooth(level)); the fallback table gets the depth only. */
  function ApplyBitCrushing(p: Params, level: real, m: MathLib): (r: Params)
    ensures r == p.(crusher := r.crusher)
    ensures r.crusher.CrusherWorklet? == p.crusher.CrusherWorklet?
    ensures r.crusher.CrusherWorklet? ==>
      6.0 <= r.crusher.bitDepth <= 16.0 && 8000.0 <= r.crusher.sampleRate <= 44100.0
    ensures r.crusher.CrusherTable? ==> 6.0 <= r.crusher.tableDepth <= 16.0
  {
    var i := Eval(Smooth, level, m);
    var depth := Max(6.0, 16.0 - i * 10.0);
    var rate := Max(8000.0, 44100.0 - i * 36100.0);
    p.(crusher := if p.crusher.CrusherWorklet? then CrusherWorklet(depth, rate) else CrusherTable(depth))
  }

  /** High-pass 20 + 150 exponential(level); low-pass 20000 - 12000
      gentle(level) with Q 0.7 + 1.5 gentle(level). */
  function ApplyFiltering(p: Params, level: real, m: MathLib): (r: Params)
    ensures r == p.(highpassHz := r.highpassHz, lowpassHz := r.lowpassHz, lowpassQ := r.lowpassQ)
    ensures 20.0 <= r.highpassHz <= 170.0
    ensures 2000.0 <= r.lowpassHz <= 20000.0 && 0.7 <= r.lowpassQ <= 2.95
  {
    var lp := Eval(Gentle, level, m);
    var hp := Eval(Exponential, level, m);
    p.(highpassHz := 20.0 + hp * 150.0,
       lowpassHz := 20000.0 - lp * 12000.0,
       lowpassQ := 0.7 + lp * 1.5)
  }

  /** drive = 1 + 7 exponential(level), input gain 1 - 0.2 exponential(level). */
  function ApplyDistortion(p: Params, level: real, m: MathLib): (r: Params)
    ensures r == p.(drive := r.drive, inputGain := r.inputGain)
    ensures 1.0 <= r.drive <= 8.0 && 0.8 <= r.inputGain <= 1.0
  {
    var i := Eval(Exponential, level, m);
    p.(drive := 1.0 + i * 7.0, inputGain := 1.0 - i * 0.2)
  }

  /** Noise bed gain 0.02 smooth(level). */
  function ApplyNoise(p: Params, level: real, m: MathLib): (r: Params)
    ensures r == p.(noiseGain := r.noiseGain)
    ensures 0.0 <= r.noiseGain <= 0.02
  {
    p.(noiseGain := Eval(Smooth, level, m) * 0.02)
  }

  /** Worklet branch: intensity max(0, (exponential(level) - 0.3) / 0.7),
      frequency five times that. Both stay 0 until the exponential curve
      passes 0.3. The fallback's random gain automation is not modelled:
      the fallback gain is left as it was. */
  function ApplyDropouts(p: Params, level: real, m: MathLib): (r: Params)
    ensures r == p.(dropout := r.dropout)
    ensures r.dropout.DropoutWorklet? == p.dropout.DropoutWorklet?
    ensures r.dropout.DropoutWorklet? ==>
      && 0.0 <= r.dropout.intensity <= 1.0
      && r.dropout.frequency == 5.0 * r.dropout.intensity <= 20.0
    ensures r.dropout.DropoutWorklet? && Eval(Exponential, level, m) <= 0.3 ==>
      r.dropout.intensity == 0.0 && r.dropout.frequency == 0.0
    ensures r.dropout.DropoutGain? ==> r.dropout == p.dropout
  {
    if p.dropout.DropoutWorklet? then
      var i := Eval(Exponential, level, m);
      var d := Max(0.0, (i - 0.3) / 0.7);
      p.(dropout := DropoutWorklet(d, d * 5.0))
    else
      p
  }

  /** LFO depth 0.0008 gentle(level) and rate 0.1 + 0.8 gentle(level). */
  function ApplyPitchWarping(p: Params, level: real, m: MathLib): (r: Params)
    ensures r == p.(pitchDepth := r.pitchDepth, pitchRate := r.pitchRate)
    ensures 0.0 <= r.pitchDepth <= 0.0012 && 0.1 <= r.pitchRate <= 1.3
  {
    var i := Eval(Gentle, level, m);
    p.(pitchDepth := i * 0.0008, pitchRate := 0.1 + i * 0.8)
  }

  /** `applyDegradationEffects`: every apply* in the source's order. The
      Q of the high-pass, the output gain and the fallback dropout gain are
      never touched, so the result is in range whenever those three are. */
  function ApplyDegradationEffects(p: Params, level: real, m: MathLib): (r: Params)
    ensures r.crusher.CrusherWorklet? == p.crusher.CrusherWorklet?
    ensures r.dropout.DropoutWorklet? == p.dropout.DropoutWorklet?
    ensures r.highpassQ == p.highpassQ && r.outputGain == p.outputGain
    ensures r.dropout.DropoutGain? ==> r.dropout == p.dropout
    ensures InRange(p) ==> InRange(r)
  {
    var p1 := ApplyBitCrushing(p, level, m);
    var p2 := ApplyFiltering(p1, level, m);
    var p3 := ApplyDistortion(p2, level, m);
    var p4 := ApplyNoise(p3, level, m);
    var p5 := ApplyDropouts(p4, level, m);
    ApplyPitchWarping(p5, level, m)
  }

  /** Applying the effects twice for the same level is applying them once:
      every parameter they write depends on the level alone. */
  lemma ApplyIdempotent(p: Params, level: real, m: MathLib)
    ensures ApplyDegradationEffects(ApplyDegradationEffects(p, level, m), level, m)
         == ApplyDegradationEffects(p, level, m)
  {
  }

  /** At level 0 every effect computes its clean value. */
  lemma ApplyAtZeroIsClean(crusherWorklet: bool, dropoutWorklet: bool, m: MathLib)
    ensures ApplyDegradationEffects(CleanParams(crusherWorklet, dropoutWorklet), 0.0, m)
         == CleanParams(crusherWorklet, dropoutWorklet)
  {
    var p0 := CleanParams(crusherWorklet, dropoutWorklet);
    assert Eval(Exponential, 0.0, m) == 0.0;
    assert Eval(Smooth, 0.0, m) == 0.0;
    assert Eval(Gentle, 0.0, m) == 0.0;
    var p1 := ApplyBitCrushing(p0, 0.0, m);
    assert p1 == p0;
    var p2 := ApplyFiltering(p1, 0.0, m);
    assert p2 == p0;
    var p3 := ApplyDistortion(p2, 0.0, m);
    assert p3 == p0;
    var p4 := ApplyNoise(p3, 0.0, m);
    assert p4 == p0;
    var p5 := ApplyDropouts(p4, 0.0, m);
    assert p5 == p0;
    assert ApplyPitchWarping(p5, 0.0, m) == p0;
  }

  /** Bit depth and resample rate never rise as the level rises. */
  lemma CrusherMonotone(p: Params, a: real, b: real, m: MathLib)
    requires p.crusher.CrusherWorklet?
    requires a <= b
    ensures ApplyBitCrushing(p, b, m).crusher.bitDepth <= ApplyBitCrushing(p, a, m).crusher.bitDepth
    ensures ApplyBitCrushing(p, b, m).crusher.sampleRate <= ApplyBitCrushing(p, a, m).crusher.sampleRate
  {
    EvalMonotone(Smooth, a, b, m);
  }

  /** The gentle curve's 1.5 at full level carries into the parameters it
      drives: the low-pass ends at 2 kHz rather than 8 kHz, its Q at 2.95,
      and the pitch LFO at 0.0012 depth and 1.3 Hz. */
  lemma GentleOvershoot(p: Params, m: MathLib)
    ensures ApplyFiltering(p, 1.0, m).lowpassHz == 2000.0
    ensures ApplyFiltering(p, 1.0, m).lowpassQ == 2.95
    ensures ApplyPitchWarping(p, 1.0, m).pitchDepth == 0.0012
    ensures ApplyPitchWarping(p, 1.0, m).pitchRate == 1.3
  {
    assert Eval(Gentle, 1.0, m) == 1.5;
  }

  // ---------------------------------------------------------------------
  // Lifecycle.

  /** The parameters `createAudioNodes` gives the nodes it builds: every
      node at its clean value, the crusher and dropout nodes of the kinds
      whose worklets loaded. */
  function CreateAudioNodes(crusherWorklet: bool, dropoutWorklet: bool): (p: Params)
    ensures IsClean(p)
    ensures p.crusher.CrusherWorklet? == crusherWorklet
    ensures p.dropout.DropoutWorklet? == dropoutWorklet
  {
    CleanParamsAreClean(crusherWorklet, dropoutWorklet);
    CleanParams(crusherWorklet, dropoutWorklet)
  }

  /** The constructor's state, with the nodes as `createAudioNodes` builds
      them. The engine is not ready until the chain has been set up. */
  function Create(crusherWorklet: bool, dropoutWorklet: bool): (e: Engine)
    ensures !e.ready && !e.destroyed && e.level == 0.0
    ensures IsClean(e.params)
  {
    Engine(0.0, 0, false, false, CreateAudioNodes(crusherWorklet, dropoutWorklet))
  }

  /** `resetAllParameters`: level 0 and the clean set; nothing once the
      engine is destroyed. The throttle clock and the flags are untouched. */
  function ResetAllParameters(e: Engine): (r: Engine)
    ensures e.destroyed ==> r == e
    ensures !e.destroyed ==> r.level == 0.0 && IsClean(r.params)
    ensures r.lastUpdateTime == e.lastUpdateTime && r.ready == e.ready && r.destroyed == e.destroyed
    ensures r.params.crusher.CrusherWorklet? == e.params.crusher.CrusherWorklet?
    ensures r.params.dropout.DropoutWorklet? == e.params.dropout.DropoutWorklet?
  {
    if e.destroyed then e
    else
      CleanParamsAreClean(e.params.crusher.CrusherWorklet?, e.params.dropout.DropoutWorklet?);
      e.(level := 0.0, params := CleanFor(e.params))
  }

  // `setupAudioChain` runs in two parts separated by `await
  // this.loadAudioWorklets()`: the entry guard, then the resumption that
  // builds and resets the nodes and marks the engine ready. Any other call,
  // `destroy` among them, may run in between.

  /** The entry guard: setup goes on only for an engine not yet destroyed. */
  predicate SetupProceeds(e: Engine) {
    !e.destroyed
  }

  /** The part after the `await`, as written: it does not look at the
      destroyed flag again, so it ends ready whatever happened meanwhile. Its
      reset is a no-op on a destroyed engine. */
  function SetupResume(e: Engine): (r: Engine)
    ensures r.ready && r.destroyed == e.destroyed
    ensures !e.destroyed ==> r.level == 0.0 && IsClean(r.params)
    ensures e.destroyed ==> r == e.(ready := true)
  {
    ResetAllParameters(e).(ready := true)
  }

  /** The resumption with the destroyed flag checked again after the
      `await`, as the entry guard checks it before. */
  function SetupResumeChecked(e: Engine): (r: Engine)
    ensures e.destroyed ==> r == e
    ensures !e.destroyed ==> r == SetupResume(e)
  {
    if e.destroyed then e else SetupResume(e)
  }

  /** `setupAudioChain` with nothing running during its `await`: reset,
      then ready. */
  function SetupAudioChain(e: Engine): (r: Engine)
    ensures e.destroyed ==> r == e
    ensures !e.destroyed ==> r.ready && r.level == 0.0 && IsClean(r.params)
  {
    if SetupProceeds(e) then SetupResume(e) else e
  }

  /** `setDegradationLevel(level)` at clock reading `now`. */
  function SetDegradationLevel(e: Engine, level: real, now: int, m: MathLib): (r: Engine)
    // Ignored unless ready and not destroyed.
    ensures !e.ready || e.destroyed ==> r == e
    // Ignored within the throttle window of the last accepted call.
    ensures now - e.lastUpdateTime < UpdateThreshold ==> r == e
    // An accepted call stores the clamped level and the time, whatever
    // the size of the change ...
    ensures Accepted(e, now) ==>
      && r.level == Clamp01(level) && r.lastUpdateTime == now
      && r.ready == e.ready && r.destroyed == e.destroyed
    // ... but re-applies the effects only for a change of at least 0.001.
    ensures Accepted(e, now) && Abs(Clamp01(level) - e.level) < LevelEpsilon ==>
      r.params == e.params
    ensures Accepted(e, now) && Abs(Clamp01(level) - e.level) >= LevelEpsilon ==>
      r.params == ApplyDegradationEffects(e.params, Clamp01(level), m)
  {
    if !e.ready || e.destroyed then e
    else if now - e.lastUpdateTime < UpdateThreshold then e
    else
      var stored := e.(lastUpdateTime := now, level := Clamp01(level));
      if Abs(stored.level - e.level) < LevelEpsilon then stored
      else stored.(params := ApplyDegradationEffects(stored.params, stored.level, m))
  }

  /** A call that gets past both guards. */
  predicate Accepted(e: Engine, now: int) {
    e.ready && !e.destroyed && now - e.lastUpdateTime >= UpdateThreshold
  }

  /** Out-of-range levels behave exactly as the nearest end of [0,1]: -1 as
      0 and 5 as 1. */
  lemma SetClampsLevel(e: Engine, level: real, now: int, m: MathLib)
    ensures SetDegradationLevel(e, level, now, m) == SetDegradationLevel(e, Clamp01(level), now, m)
    ensures level <= 0.0 ==> SetDegradationLevel(e, level, now, m) == SetDegradationLevel(e, 0.0, now, m)
    ensures 1.0 <= level ==> SetDegradationLevel(e, level, now, m) == SetDegradationLevel(e, 1.0, now, m)
  {
  }

  /** `destroy`: terminal, and idempotent. */
  function Destroy(e: Engine): (r: Engine)
    ensures r.destroyed
    ensures e.destroyed ==> r == e
    ensures !e.destroyed ==> !r.ready && r.level == 0.0 && r.params == e.params
  {
    if e.destroyed then e else e.(destroyed := true, ready := false, level := 0.0)
  }

  /** Once destroyed, every operation leaves the engine as it is. */
  lemma DestroyedIsTerminal(e: Engine, level: real, now: int, m: MathLib)
    requires e.destroyed
    ensures Destroy(e) == e
    ensures SetDegradationLevel(e, level, now, m) == e
    ensures ResetAllParameters(e) == e
    ensures SetupAudioChain(e) == e
  {
  }

  lemma DestroyIdempotent(e: Engine)
    ensures Destroy(Destroy(e)) == Destroy(e)
  {
  }

  /** The invariant the modelled operations keep: the level in [0,1], every
      parameter in its range, and a destroyed engine never ready. The
      as-written resumption of setup keeps it only when no `destroy` ran
      during the `await` (ResumeKeepsValidIffNotDestroyed). */
  ghost predicate Valid(e: Engine) {
    && 0.0 <= e.level <= 1.0
    && InRange(e.params)
    && (e.destroyed ==> !e.ready)
  }

  lemma CreateValid(crusherWorklet: bool, dropoutWorklet: bool)
    ensures Valid(Create(crusherWorklet, dropoutWorklet))
  {
    CleanIsInRange(Create(crusherWorklet, dropoutWorklet).params);
  }

  /** Every operation keeps the invariant, and so does the checked
      resumption of setup, whatever ran during its `await`. */
  lemma OperationsPreserveValid(e: Engine, level: real, now: int, m: MathLib)
    requires Valid(e)
    ensures Valid(SetDegradationLevel(e, level, now, m))
    ensures Valid(ResetAllParameters(e))
    ensures Valid(SetupAudioChain(e))
    ensures Valid(SetupResumeChecked(e))
    ensures Valid(Destroy(e))
  {
    if !e.destroyed {
      CleanIsInRange(ResetAllParameters(e).params);
    }
  }

  /** As written, the resumption of setup keeps the invariant exactly when
      no `destroy` ran during the `await`. */
  lemma ResumeKeepsValidIffNotDestroyed(e: Engine)
    requires Valid(e)
    ensures Valid(SetupResume(e)) <==> !e.destroyed
  {
    if !e.destroyed {
      CleanIsInRange(ResetAllParameters(e).params);
    }
  }

  /** A `destroy` that lands while a new engine awaits its worklets: setup
      resumes and marks the destroyed engine ready. */
  lemma DestroyDuringSetup(crusherWorklet: bool, dropoutWorklet: bool)
    ensures var e0 := Create(crusherWorklet, dropoutWorklet);
      var e1 := SetupResume(Destroy(e0));
      && SetupProceeds(e0) && Valid(Destroy(e0))
      && e1.destroyed && e1.ready && !Valid(e1)
  {
    CleanIsInRange(Create(crusherWorklet, dropoutWorklet).params);
  }

  // ---------------------------------------------------------------------
  // The level can drift away from the effects.

  /** The effects in the nodes are those of the stored level. */
  ghost predicate Synced(e: Engine, m: MathLib) {
    e.params == ApplyDegradationEffects(e.params, e.level, m)
  }

  /** Setting up an engine leaves it in sync. */
  lemma SetupIsSynced(e: Engine, m: MathLib)
    requires !e.destroyed
    ensures Synced(SetupAudioChain(e), m)
  {
    var p := e.params;
    ApplyAtZeroIsClean(p.crusher.CrusherWorklet?, p.dropout.DropoutWorklet?, m);
  }

  /** As written, the level is stored before the epsilon test, so steps of
      0.0009 each move the stored level but never the effects: after two of
      them the level is 0.0018 while every node still holds its level-0
      value. */
  lemma EpsilonDrift(m: MathLib)
    ensures
      var e0 := SetupAudioChain(Create(true, true));
      var e1 := SetDegradationLevel(e0, 0.0009, 100, m);
      var e2 := SetDegradationLevel(e1, 0.0018, 200, m);
      && Synced(e0, m)
      && e2.level == 0.0018
      && e2.params == e0.params
      && !Synced(e2, m)
  {
    var e0 := SetupAudioChain(Create(true, true));
    SetupIsSynced(Create(true, true), m);
    var e1 := SetDegradationLevel(e0, 0.0009, 100, m);
    var e2 := SetDegradationLevel(e1, 0.0018, 200, m);
    assert e1.params == e0.params;
    assert e2.params == e0.params;
    var s := Eval(Smooth, 0.0018, m);
    assert s == SmoothStep(0.0018);
    assert s > 0.0;
    assert ApplyDegradationEffects(e2.params, e2.level, m).crusher.bitDepth < 16.0;
  }

  /** The corrected update: compare against the level the effects were
      computed for, and leave that level in place when the change is below
      the epsilon. */
  function SetDegradationLevelSynced(e: Engine, level: real, now: int, m: MathLib): (r: Engine)
    ensures !e.ready || e.destroyed ==> r == e
    ensures now - e.lastUpdateTime < UpdateThreshold ==> r == e
    ensures Accepted(e, now) ==> r.lastUpdateTime == now && Abs(r.level - Clamp01(level)) < LevelEpsilon
  {
    if !e.ready || e.destroyed then e
    else if now - e.lastUpdateTime < UpdateThreshold then e
    else if Abs(Clamp01(level) - e.level) < LevelEpsilon then e.(lastUpdateTime := now)
    else
      e.(lastUpdateTime := now, level := Clamp01(level),
         params := ApplyDegradationEffects(e.params, Clamp01(level), m))
  }

  /** With the correction the nodes always hold the effects of the stored
      level, and the stored level is always within 0.001 of the last
      accepted request. */
  lemma SyncedUpdateKeepsSync(e: Engine, level: real, now: int, m: MathLib)
    requires Synced(e, m)
    ensures Synced(SetDegradationLevelSynced(e, level, now, m), m)
    ensures Synced(ResetAllParameters(e), m)
  {
    var r := SetDegradationLevelSynced(e, level, now, m);
    if Accepted(e, now) && Abs(Clamp01(level) - e.level) >= LevelEpsilon {
      ApplyIdempotent(e.params, Clamp01(level), m);
    }
    if !e.destroyed {
      var p := e.params;
      ApplyAtZeroIsClean(p.crusher.CrusherWorklet?, p.dropout.DropoutWorklet?, m);
    }
  }
}
