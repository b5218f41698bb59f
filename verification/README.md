# dirtdub degradation core in Dafny

This project models the signal-processing core of dirtdub, a browser
"lo-fi" audio degradation effect. It has two parts.

- **Control path.** One knob level in [0,1] is bent through a family of
  shaping curves. `AudioDegradationEngine` (public/js/knob.js) turns the
  result into the parameters of its audio nodes: bit crusher, filters,
  distortion table, noise bed, dropout node and pitch LFO.
- **Processors.** Four AudioWorklet processors: the bit crusher, the
  dropout generator, vinyl crackle, and wow/flutter.

The project has eight modules:

| module | models |
|---|---|
| `Numeric` | the arithmetic the source relies on: clamps, `Math.round`, JavaScript's truncating `%` on numbers, and round-to-step quantisation |
| `Host` | what the code receives from its host, as typed parameters: the successive results of `Math.random()`, and `Math.pow`, `Math.log10`, `Math.sin`, `Math.tanh` and `Math.PI` |
| `Curves` | `createSmoothCurve` with its ten named curves |
| `Tables` | the two WaveShaper tables (`createBitCrushCurve`, `createDistortionCurve`) |
| `Engine` | the engine's lifecycle, level throttling and the parameters each `apply*` method writes |
| `BitCrusher`, `Dropout`, `Crackle`, `WowFlutter` | the `process` method of each worklet, with its per-processor state |

How the model represents the code:

- A processor's state is an immutable datatype. `process` is a function from a state and one block of input channels to the new state and the output channels.
- Random draws come from a stream `draw: nat -> [0,1)` and a cursor. Each operation reports how many draws it made.
- `Math.sin` and the other transcendental functions are not computed. Their types carry only the laws the proofs use: `sin` and `tanh` stay within [-1,1], `tanh` is odd, and `pow` maps [0,1] into [0,1].

Where the repository's prose description and its code differ, the model follows the code:

- The `apply*` methods pick their own curves: "smooth" for the bit crusher and the noise bed, "gentle" for the low-pass and the pitch LFO, "exponential" for the high-pass, distortion and dropouts. `applyDegradationEffects` computes a second set of intensities and passes them as arguments, which the `apply*` methods take no parameters for and never read (public/js/knob.js:388-406).
- The "gentle" curve rises to 1.5 at a level of 1, not 1. So the low-pass ends at 2 kHz rather than the 8 kHz its comment says, with Q 2.95, and the pitch LFO ends at 1.3 Hz.
- `setDegradationLevel` stores the clamped level before it tests the 0.001 epsilon. A small change is therefore not a no-op: see Findings.
- Click and dropout lengths are floored (`Math.floor(1 + 10 intensity)`, `Math.floor(10 + 500 intensity)`).

## Model

| member | source | states |
|---|---|---|
| Numeric.Clamp01 | public/js/knob.js:417 | the clamped level lies in [0,1]: values inside are unchanged, values below become 0 and values above become 1 |
| Numeric.Round | public/js/worklets/bitcrusher-worklet.js:47 | `Math.round` returns the integer within half a unit of its argument, rounding halves up |
| Numeric.RoundIntegral | public/js/worklets/bitcrusher-worklet.js:47 | rounding an integer gives it back |
| Numeric.QuantizeOnGrid | public/js/knob.js:610 | a quantised value times the step is an integer, i.e. it lies on the grid of 1/step |
| Numeric.QuantizeIdempotent | public/js/worklets/bitcrusher-worklet.js:47 | re-quantising an already quantised value at the same step changes nothing |
| Numeric.QuantizeError | public/js/worklets/bitcrusher-worklet.js:47 | the quantisation error is at most half a grid step |
| Numeric.RepeatIsProduct | public/js/worklets/bitcrusher-worklet.js:42 | adding the rate ratio once per sample, n times, advances the accumulator by n times the ratio |
| Numeric.FRem | js/worklets/wow-flutter-worklet.js:58-59 | JavaScript's `%` on a nonnegative dividend lands in [0, divisor) |
| Numeric.FRemBelowTwice | js/worklets/wow-flutter-worklet.js:58-59 | a dividend below twice the divisor loses the divisor at most once |
| Curves.Named | public/js/knob.js:40-72 | each of the ten names selects the curve it names, and any other name falls to the `default:` arm, which is linear |
| Curves.NamedName | public/js/knob.js:40-72 | looking a curve up by its own name finds that curve again |
| Curves.Eval | public/js/knob.js:37-73 | every curve, after the input clamp, stays in [0, its ceiling]: 1 for all curves except gentle, whose ceiling is 1.5. Every curve is 0 at or below 0 and reaches its ceiling at or above 1, and the aggressive curve is 0 below 0.1 |
| Curves.ShapeRange | public/js/knob.js:40-72 | the same range and end values for each curve on an already clamped input |
| Curves.EvalClamped | public/js/knob.js:38 | shaping clamps first, so a pre-clamped input gives the same result |
| Curves.UnknownNameIsLinear | public/js/knob.js:69-71 | an unknown curve name shapes like "linear", which is the clamp itself |
| Curves.LogarithmicIsAudioTaper | public/js/knob.js:44-45 | with log10 1 = 0 and log10 10 = 1, "logarithmic" and "audio_taper" agree at every input |
| Curves.SmoothRange | public/js/knob.js:47-48 | smoothstep maps [0,1] into [0,1] |
| Curves.EvalMonotone | public/js/knob.js:37-73 | the exactly computed curves (linear, smooth, gentle, inverse, stepped) never fall as the input rises |
| Tables.PositionFacts | public/js/knob.js:579 | table positions 2i/44100 - 1 cover [-1, 1), the middle entry stands for 0, and mirrored entries stand for opposite values |
| Tables.CreateBitCrushCurve | public/js/knob.js:603-614 | 44100 entries; each one is its position quantised to the grid of 1/2^(bitDepth-1), lies within half a step of its position, and is a fixed point of the quantiser |
| Tables.Sign | public/js/knob.js:588-589 | `Math.sign` returns 0 or ±1, and the sign times x is the magnitude of x |
| Tables.HardClip | public/js/knob.js:592-593 | the clip keeps x·amount·0.6 inside ±4/amount: values inside pass, values outside stick to the nearer bound |
| Tables.DistortionEntry | public/js/knob.js:582-595 | the three branches, selected below 3, below 6 and from 6 on, peak at 0.85, 0.8 and 0.7, and the centre maps to 0 |
| Tables.DistortionOdd | public/js/knob.js:582-583 | the soft and hard branches are odd functions of the input |
| Tables.CreateDistortionCurve | public/js/knob.js:574-601 | 44100 entries; each one is the branch formula at its position, every entry lies within ±0.85, and the middle entry is 0 |
| Tables.DistortionTableOdd | public/js/knob.js:591-595 | outside the asymmetric branch the table is antisymmetric about its middle entry |
| Engine.CleanParams | public/js/knob.js:96-168 | the clean set uses the same node kinds as requested: a worklet crusher and dropout node, or their fallbacks |
| Engine.CleanIsInRange | public/js/knob.js:96-168 | every clean value lies inside the range the effects keep |
| Engine.CleanParamsAreClean | public/js/knob.js:96-168 | the clean set is the one `resetAllParameters` names, value by value |
| Engine.ApplyBitCrushing | public/js/knob.js:434-453 | only the crusher changes and keeps its kind; bit depth stays in [6,16] and the resample rate in [8000, 44100] |
| Engine.ApplyFiltering | public/js/knob.js:455-483 | only the two filter frequencies and the low-pass Q change; high-pass stays in [20,170] Hz, low-pass in [2000, 20000] Hz, Q in [0.7, 2.95] |
| Engine.ApplyDistortion | public/js/knob.js:485-507 | only drive and input gain change; drive stays in [1,8] and input gain in [0.8, 1] |
| Engine.ApplyNoise | public/js/knob.js:509-521 | only the noise gain changes, and it stays in [0, 0.02] |
| Engine.ApplyDropouts | public/js/knob.js:523-552 | only the dropout node changes; the worklet gets an intensity in [0,1] with frequency five times it, both 0 until the exponential curve passes 0.3 |
| Engine.ApplyPitchWarping | public/js/knob.js:554-572 | only the LFO changes; depth stays in [0, 0.0012] and rate in [0.1, 1.3] Hz |
| Engine.ApplyDegradationEffects | public/js/knob.js:385-407 | node kinds, high-pass Q, output gain and fallback dropout gain are never touched, and all parameters stay in range |
| Engine.ApplyIdempotent | public/js/knob.js:385-407 | applying the effects twice for one level equals applying them once |
| Engine.ApplyAtZeroIsClean | public/js/knob.js:385-407 | at level 0 every effect writes its clean value |
| Engine.CrusherMonotone | public/js/knob.js:434-445 | bit depth and resample rate never rise as the level rises |
| Engine.GentleOvershoot | public/js/knob.js:472-478 | at full level the low-pass reaches 2 kHz and Q 2.95, and the LFO reaches depth 0.0012 and 1.3 Hz |
| Engine.Create | public/js/knob.js:7-35 | a new engine is neither ready nor destroyed, at level 0, with clean parameters |
| Engine.CreateAudioNodes | public/js/knob.js:192-341 | the nodes `createAudioNodes` builds start at the clean values, with the crusher and dropout nodes of the kinds whose worklets loaded |
| Engine.ResetAllParameters | public/js/knob.js:96-168 | a destroyed engine is unchanged; otherwise level 0 and the clean set; the clock, flags and node kinds are kept |
| Engine.SetupAudioChain | public/js/knob.js:75-94 | with nothing running during its `await`: a destroyed engine is unchanged; otherwise ready, at level 0, with clean parameters |
| Engine.SetupResume | public/js/knob.js:83-88 | the part after the `await`, as written: the engine always ends ready; one not destroyed is reset to level 0 and the clean set; in a destroyed one only the ready flag changes, because node creation and reset return early |
| Engine.SetupResumeChecked | public/js/knob.js:75-94 | the resumption with the destroyed flag checked again: a destroyed engine is left unchanged; otherwise it acts as the as-written resumption |
| Engine.ResumeKeepsValidIffNotDestroyed | public/js/knob.js:81-88 | the as-written resumption keeps the invariant exactly when no `destroy` ran during the `await` |
| Engine.DestroyDuringSetup | public/js/knob.js:76-88 | a new engine passes the entry guard; a `destroy` during the `await` leaves a valid destroyed engine; the resumption then makes it destroyed and ready at once, breaking the invariant |
| Engine.SetDegradationLevel | public/js/knob.js:409-432 | the call is ignored unless the engine is ready and not destroyed and 16 ms have passed since the last accepted call. An accepted call stores the clamped level and the time, and re-applies the effects exactly when the level moved by at least 0.001 |
| Engine.SetClampsLevel | public/js/knob.js:417 | levels outside [0,1] act exactly as the nearer end |
| Engine.Destroy | public/js/knob.js:616-667 | the engine ends destroyed; destroying twice changes nothing; a first destroy clears ready and the level |
| Engine.DestroyedIsTerminal | public/js/knob.js:97 | once destroyed, destroy, set, reset and setup leave the engine unchanged |
| Engine.DestroyIdempotent | public/js/knob.js:617 | destroy applied twice equals destroy applied once |
| Engine.CreateValid | public/js/knob.js:7-35 | a new engine satisfies the invariant: level in [0,1], every parameter in range, never destroyed and ready |
| Engine.OperationsPreserveValid | public/js/knob.js:409-432 | set, reset, uninterrupted setup, destroy, and the checked resumption of setup (whatever ran during the `await`) all keep the invariant |
| Engine.SetupIsSynced | public/js/knob.js:75-94 | after setup the nodes hold the effects of the stored level |
| Engine.EpsilonDrift | public/js/knob.js:416-419 | two accepted steps of 0.0009 leave the stored level at 0.0018 with every node still at its level-0 value, so the engine is no longer in sync |
| Engine.SetDegradationLevelSynced | public/js/knob.js:409-432 | the corrected update keeps both guards; an accepted call keeps the stored level within 0.001 of the request |
| Engine.SyncedUpdateKeepsSync | public/js/knob.js:416-422 | with the correction, updates and resets keep the nodes in sync with the stored level |
| BitCrusher.Init | public/js/worklets/bitcrusher-worklet.js:19-23 | the accumulator starts at 0 and channels 0 and 1 hold 0 |
| Host.LevelsPerUnit | public/js/worklets/bitcrusher-worklet.js:34 | `Math.pow(2, bitDepth - 1)`, the quantiser levels per unit shared with public/js/knob.js:606, is positive, so the grid is well defined at any bit depth |
| BitCrusher.CrushRun | public/js/worklets/bitcrusher-worklet.js:41-51 | one output per input sample; each output is the previous held value or the current input quantised; the held value changes only on a refresh; for a ratio in [0,1] the accumulator stays in [0,1) |
| BitCrusher.RunClock | public/js/worklets/bitcrusher-worklet.js:42-45 | across a channel the accumulator gains the ratio per sample and loses exactly one unit per refresh |
| BitCrusher.FullRateCrushesEverySample | public/js/worklets/bitcrusher-worklet.js:42-47 | at ratio 1 the accumulator does not move and every sample is quantised |
| BitCrusher.RefreshCount | public/js/worklets/bitcrusher-worklet.js:42-47 | with a ratio in [0,1] a channel refreshes floor(t + n·ratio) times and leaves the accumulator at the fractional part |
| BitCrusher.RefreshSchedule | public/js/worklets/bitcrusher-worklet.js:41-50 | with a ratio in [0,1], sample j of a channel is quantised afresh exactly when the accumulator passes a whole number between time + j·ratio and time + (j+1)·ratio; any other sample repeats the output before it, or the held value at j = 0 |
| BitCrusher.AdvanceFlags | public/js/worklets/bitcrusher-worklet.js:42-45 | the first sample refreshes exactly when the accumulator reaches 1, and the later samples refresh as they would from the accumulator one sample on |
| BitCrusher.ShiftFlags | public/js/worklets/bitcrusher-worklet.js:42-45 | starting from the fractional part of the accumulator after n samples gives the same refresh pattern as starting n samples earlier |
| BitCrusher.BlockSchedule | public/js/worklets/bitcrusher-worklet.js:37-52 | from channel c on, channel c + k follows that refresh pattern from sample TotalFrames(channels c .. c+k-1) of one accumulator run, holding its own value from before the channel |
| BitCrusher.ProcessFrom | public/js/worklets/bitcrusher-worklet.js:37-52 | one output channel per input channel, each of the same length; the shared accumulator stays in [0,1); afterwards each non-empty channel from c on holds its last output sample, and every other channel keeps the value it held |
| BitCrusher.BlockClock | public/js/worklets/bitcrusher-worklet.js:37-52 | the single accumulator runs across channels: it gains the ratio per sample of every channel, less one per refresh |
| BitCrusher.BlockFraction | public/js/worklets/bitcrusher-worklet.js:37-52 | after a block the accumulator sits at the fractional part of its start plus the ratio once per sample of all channels |
| BitCrusher.Quantiser | public/js/worklets/bitcrusher-worklet.js:47 | the crush function is round-to-step at every sample |
| BitCrusher.Process | public/js/worklets/bitcrusher-worklet.js:25-55 | an empty input changes nothing; otherwise each channel has an output of its own length, and a requested rate up to the host rate keeps the state valid. The state handed to the next block holds each non-empty channel's last output sample and leaves every other channel's held value as it was |
| BitCrusher.ProcessSchedule | public/js/worklets/bitcrusher-worklet.js:25-55 | for a requested rate up to the host rate, sample j of channel c is quantised exactly when sample TotalFrames(channels before c) + j of the block's accumulator run passes a whole number; otherwise it repeats the sample before it, or the channel's held value (0 if never written) at j = 0 |
| BitCrusher.FullRateIsQuantiser | public/js/worklets/bitcrusher-worklet.js:34-47 | at the host's own rate every output sample of every channel is its input rounded to the grid of 1/2^(bitDepth-1) |
| BitCrusher.HeldAcrossBlocks | public/js/worklets/bitcrusher-worklet.js:44-50 | across two consecutive blocks, a channel's first sample in the second block, when it does not refresh, repeats that channel's last output of the first block |
| Dropout.Init | public/js/worklets/dropout-worklet.js:19-25 | the processor starts idle with its counter at 0 |
| Dropout.BurstLength | public/js/worklets/dropout-worklet.js:47 | a dropout lasts between 10 and 510 samples for intensity in [0,1] |
| Dropout.Check | public/js/worklets/dropout-worklet.js:43-49 | only an idle processor on a multiple of 1000 samples draws, exactly one number; otherwise the state is unchanged |
| Dropout.StepSample | public/js/worklets/dropout-worklet.js:41-60 | output = input × gain, with gain 1 or in [0.1, 0.3); the counter advances by one; at most two draws; validity kept |
| Dropout.IdleBetweenChecks | public/js/worklets/dropout-worklet.js:41-43 | between checks an idle processor passes the sample and draws nothing |
| Dropout.TriggerExactly | public/js/worklets/dropout-worklet.js:43-53 | an idle processor attenuates a sample if and only if that sample is a multiple of 1000 and the draw is below intensity·frequency·0.001; the new dropout has its full length and has used one sample |
| Dropout.BurstStep | public/js/worklets/dropout-worklet.js:51-57 | a running dropout attenuates, counts one more sample, and ends exactly when the count reaches its length |
| Dropout.RunChannel | public/js/worklets/dropout-worklet.js:40-61 | every output is its input times 1 or a gain in [0.1, 0.3); the counter advances by the channel length |
| Dropout.SilentWhenChanceIsZero | public/js/worklets/dropout-worklet.js:43-44 | with zero chance an idle processor passes the whole channel unchanged and stays idle |
| Dropout.BurstLasts | public/js/worklets/dropout-worklet.js:51-57 | a dropout attenuates exactly its remaining samples and then goes idle |
| Dropout.ProcessFrom | public/js/worklets/dropout-worklet.js:36-62 | every output sample of channel c + j is its input sample times 1 or a gain in [0.1, 0.3); the shared counter advances by the frames of every channel; validity is kept |
| Dropout.SilentFrom | public/js/worklets/dropout-worklet.js:36-62 | with zero chance an idle processor passes channels c.. unchanged and stays idle |
| Dropout.Process | public/js/worklets/dropout-worklet.js:27-65 | an empty input changes nothing and draws nothing; otherwise every output sample is its input sample times 1 or a gain in [0.1, 0.3), the counter advances by all frames, and validity holds. The burst state it returns is carried on through the channels (Dropout.ProcessIsOneRun) |
| Dropout.SilentBlock | public/js/worklets/dropout-worklet.js:27-65 | with intensity or frequency 0 an idle processor passes the whole block unchanged and stays idle |
| Dropout.RunAppend | public/js/worklets/dropout-worklet.js:40-61 | running one stretch of samples and then another, from the state and random cursor the first left, equals one run over their concatenation |
| Dropout.ProcessFromIsOneRun | public/js/worklets/dropout-worklet.js:36-62 | channels c.. are one run over their samples laid end to end: the flattened outputs and gains, the burst state and the random cursor are those of a single channel run over the concatenated channels |
| Dropout.ProcessIsOneRun | public/js/worklets/dropout-worklet.js:27-65 | a whole block is one run over its channels laid end to end, so a dropout running at the end of a channel goes on into the next |
| Dropout.BlocksAreOneStream | public/js/worklets/dropout-worklet.js:19-65 | two consecutive blocks at the same parameters, the second started from the state and cursor the first left, are one run over the samples of both |
| Dropout.BurstSpansChannels | public/js/worklets/dropout-worklet.js:36-62 | a running dropout with n samples left, met by a block of n samples over all its channels, attenuates every one of them, whichever channel it is in, and then ends |
| Crackle.Init | js/worklets/vinyl-crackle-worklet.js:19-29 | the table holds 1000 entries (draw − 0.5)·2, one draw each, all in [-1,1); no click is running |
| Crackle.ClickLength | js/worklets/vinyl-crackle-worklet.js:53 | a click lasts 1 to 11 samples for intensity in [0,1] |
| Crackle.TableIndex | js/worklets/vinyl-crackle-worklet.js:51 | `floor(random · length)` is always a valid index |
| Crackle.StepSample | js/worklets/vinyl-crackle-worklet.js:44-64 | at zero intensity a sample passes unchanged and nothing is drawn; otherwise two or three draws; the table never changes and validity is kept |
| Crackle.TriggerExactly | js/worklets/vinyl-crackle-worklet.js:48-59 | a click starts if and only if the first draw is below density·intensity·0.001, taking the entry the second draw picks and its full length less the sample used; otherwise the countdown drops by one and stops at 0 |
| Crackle.StepBound | js/worklets/vinyl-crackle-worklet.js:56-61 | no sample moves by more than 0.11·intensity: 0.1 of click and 0.01 of hiss |
| Crackle.RunChannel | js/worklets/vinyl-crackle-worklet.js:44-65 | one output per sample, each within 0.11·intensity of its input sample; validity and the table are kept |
| Crackle.SilentAtZeroIntensity | js/worklets/vinyl-crackle-worklet.js:47 | at zero intensity a channel is passed unchanged, with its state and random cursor untouched |
| Crackle.ClickFades | js/worklets/vinyl-crackle-worklet.js:56-59 | with no new clicks possible, a running click ends after its remaining count |
| Crackle.ProcessFrom | js/worklets/vinyl-crackle-worklet.js:40-66 | output shapes match and every output sample lies within 0.11·intensity of its input; validity and table kept; zero intensity passes every channel through |
| Crackle.Process | js/worklets/vinyl-crackle-worklet.js:31-69 | an empty input or zero intensity passes through with the state and cursor unchanged; otherwise no output sample lies more than 0.11·intensity from its input; output shapes, validity and table are kept. The click state it returns is carried on through the channels (Crackle.ProcessIsOneRun) |
| Crackle.RunAppend | js/worklets/vinyl-crackle-worklet.js:44-65 | running one stretch of samples and then another, from the state and random cursor the first left, equals one run over their concatenation |
| Crackle.ProcessFromIsOneRun | js/worklets/vinyl-crackle-worklet.js:40-66 | channels c.. are one run over their samples laid end to end: the flattened outputs, the click and its countdown, and the random cursor are those of a single channel run over the concatenated channels |
| Crackle.ProcessIsOneRun | js/worklets/vinyl-crackle-worklet.js:31-69 | a whole block is one run over its channels laid end to end, so a click running at the end of a channel goes on into the next |
| Crackle.BlocksAreOneStream | js/worklets/vinyl-crackle-worklet.js:19-69 | two consecutive blocks at the same parameters, the second started from the state and cursor the first left, are one run over the samples of both |
| Crackle.ClickFadesAcrossChannels | js/worklets/vinyl-crackle-worklet.js:56-59 | with no new clicks possible, a running click ends within a block holding at least its remaining count of samples over all channels, even when it runs from one channel into the next |
| WowFlutter.Init | js/worklets/wow-flutter-worklet.js:19-27 | two silent lines of 8192 cells, index 0, phases at 0 |
| WowFlutter.Increment | js/worklets/wow-flutter-worklet.js:39 | a random frequency in [lo, lo+span), no higher than the host rate, gives a phase step in (0, 2π] |
| WowFlutter.Advance | js/worklets/wow-flutter-worklet.js:39-44 | a phase in [0, 2π] stays there after a step of at most one turn, having lost one turn or none |
| WowFlutter.Modulation | js/worklets/wow-flutter-worklet.js:54-55 | zero depth gives no swing, and depth in [0,1] swings at most the scale (50 or 10 samples) |
| WowFlutter.TotalDelay | js/worklets/wow-flutter-worklet.js:54-56 | the delay is at least 1, exactly 100 at zero depths, and within [40, 160] for depths in [0,1] |
| WowFlutter.ReadPosition | js/worklets/wow-flutter-worklet.js:58-59 | the read position lies in the line, `delay` cells behind the write index, wrapped once at most |
| WowFlutter.Interp | js/worklets/wow-flutter-worklet.js:60-65 | the interpolated sample lies between its two neighbours, and is the first one at fraction 0 |
| WowFlutter.Next | js/worklets/wow-flutter-worklet.js:69 | the write index steps by one modulo 8192 |
| WowFlutter.Step | js/worklets/wow-flutter-worklet.js:52-69 | one sample writes the input at the index, reads a value between the two cells at the read position, and steps the index |
| WowFlutter.RunChannel | js/worklets/wow-flutter-worklet.js:51-70 | one output per sample; the index moves on by the channel length modulo 8192; cells outside the written stretch are kept |
| WowFlutter.StepKeepsHistory | js/worklets/wow-flutter-worklet.js:52-69 | at delay 100 a sample keeps the line holding the last 8192 samples of its history and reads the sample 100 steps back |
| WowFlutter.RunKeepsHistory | js/worklets/wow-flutter-worklet.js:51-70 | at delay 100 a channel's output is its input delayed by exactly 100 samples of its history |
| WowFlutter.NextPhases | js/worklets/wow-flutter-worklet.js:38-44 | the phase updates leave the lines and index alone and, at host rates of 25 Hz or more, keep both phases in [0, 2π] |
| WowFlutter.BlockDelay | js/worklets/wow-flutter-worklet.js:54-56 | one delay per block, in [40, 160], and 100 at zero depths |
| WowFlutter.Sequential | js/worklets/wow-flutter-worklet.js:46-71 | as written: at most two channels are processed; mono leaves line 1 alone; in stereo the shared index moves on by the frames of both channels; line 0 is kept outside its written stretch |
| WowFlutter.SideBySide | js/worklets/wow-flutter-worklet.js:46-71 | corrected loop: both channels start at the same index, which moves on once per frame |
| WowFlutter.Process | js/worklets/wow-flutter-worklet.js:29-74 | an empty input changes nothing and draws nothing; otherwise two draws, a valid state, at most two output channels of the input's lengths, and phases kept in range at host rates of 25 Hz or more |
| WowFlutter.ProcessFixed | js/worklets/wow-flutter-worklet.js:29-74 | the same guarantees for the corrected block |
| WowFlutter.MonoIsDelay | js/worklets/wow-flutter-worklet.js:46-70 | with one channel at zero depth the processor as written is an exact 100-sample delay |
| WowFlutter.FixedIsDelay | js/worklets/wow-flutter-worklet.js:46-70 | the corrected processor at zero depth delays every channel, mono or stereo, by 100 samples of its own history |
| WowFlutter.StereoStaleRead | js/worklets/wow-flutter-worklet.js:46-69 | two stereo blocks of 100 ones from silence: the second block's first channel-0 output is 0.0, read from a cell of line 0 that was never written |
| WowFlutter.StereoFixedDelay | js/worklets/wow-flutter-worklet.js:46-69 | the same blocks through the corrected processor give back 1.0 |

## Left out

- The Web Audio graph is not modelled: node creation, `connectAudioChain`, `connectSource`, `loadAudioWorklets` and the pitch-shifter delay node. `createNoiseGenerator`'s pink-noise buffer is left out too. Each node is represented only by the parameter values the engine writes into it.
- Timing of parameter writes (`setValueAtTime`, `audioContext.currentTime`) is not modelled. A write takes effect at once.
- `Date.now()` is the `now` parameter of `SetDegradationLevel`. The worklets' `globalThis.sampleRate` is the `hostRate` or `rate` parameter.
- Logging, `try`/`catch` and the `Math.abs(...) > 0.01` log branch have no effect on state and are left out.
- `destroy`'s node `stop` and `disconnect` calls and `workletNodes.clear()` are left out. Which nodes are worklets is fixed at creation, and a destroyed engine never changes again.
- Engine.ApplyDropouts: the fallback branch's random, time-scheduled gain automation (public/js/knob.js:536-547) is not modelled. The fallback gain is left as it was.
- Engine.SetupAudioChain: models setup with nothing interleaved during its `await`. The interleaving with `destroy` is modelled by Engine.SetupResume and shown in Findings.
- Engine.OperationsPreserveValid: does not claim the invariant for the as-written resumption of setup after a `destroy` during the `await`, because it fails there (Engine.ResumeKeepsValidIffNotDestroyed).
- Curves.Named: the default argument `type = "exponential"` (public/js/knob.js:37) is not modelled. Every call in the engine passes a curve name.
- Engine.Create: the constructor's unused fields (the audio context handle and node references) are left out.
- Optional chaining on missing nodes (`this.preFilter?`) is not modelled. Every node is taken to exist once created.
- Numbers are exact reals. `Float32Array` storage of tables and delay lines, IEEE rounding, and NaN are not modelled.
- BitCrusher.Process: the `|| 0` fallback turns NaN into 0 in the source. The model covers only the missing-channel case, through `Output`.
- BitCrusher.Process: the accumulator is proved to stay in [0,1) only when the requested rate does not exceed the host rate. A ratio above 1 (sampleRate above the context rate) is modelled but not bounded.
- The outputs of the parameter descriptors' min/max clamping, which the host applies, are assumed. So Crackle.Process and WowFlutter.Process require intensity and depths in [0,1].
- WowFlutter.NextPhases: the phase-range guarantee needs a host rate of at least 25 Hz, so that one phase step is at most one turn. Every real AudioContext rate satisfies this.
- WowFlutter.Process: output buffers for channels beyond the second are never written by the source and are left to the host's zero fill; the model returns outputs only for the processed channels.
- Crackle.Init: the field `bufferIndex` is set but never read, and is left out.
- The transcendental functions (`Math.sin`, `Math.tanh`, non-integer `Math.pow`, `Math.log10`) and `Math.PI` are parameters typed by the laws the proofs use, not computed functions. So Curves.EvalMonotone covers only the five curves computed exactly.
- Tables.DistortionOdd: the asymmetric branch is deliberately not odd, and the lemma excludes it.
- Empty-input blocks return `true` in the source without writing outputs. The model returns no output channels.

## Findings

| source | as written | input that shows it | evidently intended | confidence | as-written member | corrected member |
|---|---|---|---|---|---|---|
| public/js/knob.js:416-419 | the clamped level is stored before the 0.001 epsilon test, so a small change updates the level but not the effects | after setup, set 0.0009 at t=100 and 0.0018 at t=200: the level is 0.0018 while every node still holds its level-0 value; small steps can drift arbitrarily far | changes below 0.001 are ignored, leaving the level the effects were computed for | not executed; medium | Engine.EpsilonDrift | Engine.SetDegradationLevelSynced |
| public/js/knob.js:75-94 | `setupAudioChain` checks `isDestroyed` only before `await this.loadAudioWorklets()` and sets `isReady = true` unconditionally after it | create an engine, start setup (the guard passes), call `destroy` during the `await`, let setup resume: the engine is destroyed and ready | a destroyed engine never becomes ready again | not executed; medium | Engine.DestroyDuringSetup | Engine.SetupResumeChecked |
| js/worklets/wow-flutter-worklet.js:46-69 | one write index is shared by both channels and advanced for every sample of each, so in stereo each line is written only on alternate stretches of cells | two stereo blocks of 100 samples of 1.0 from silence at zero depth: channel 0's first output in the second block is 0.0 | each channel is delayed by 100 samples of its own input, as in mono | not executed; high | WowFlutter.StereoStaleRead | WowFlutter.ProcessFixed |

For the first finding, Engine.SyncedUpdateKeepsSync proves that the corrected update keeps the nodes in sync with the stored level. For the setup finding, Engine.OperationsPreserveValid proves that the checked resumption keeps the invariant. For the wow/flutter finding, WowFlutter.FixedIsDelay and WowFlutter.StereoFixedDelay prove that the corrected block is a 100-sample delay on both channels.
