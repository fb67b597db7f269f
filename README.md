# Spectral and waveshaping modules of a VCV Rack plugin, in Dafny

This project models the discrete logic of five modules of a VCV Rack
plugin. Each module works on the bins of a short-time Fourier transform or
on the coefficients of a Chebyshev waveshaper:

- **Pitch** (`pitch.dfy`): a pitch shifter. On every completed frame it
  computes the positive spectral flux against the previous frame and keeps
  this frame's magnitudes. It requests a phase reset when the flux exceeds
  0.2. It then remaps bin k to bin floor(k * pshift) through two staging
  buffers, adding magnitudes and overwriting frequencies, and copies the
  staged spectrum back into the bins.
- **Rift** (`rift.dfy`): a brickwall band gate. It zeroes every bin whose
  centre frequency k * binFreq lies outside the closed band [lo, hi].
- **RiftGate** (`rift_gate.dfy`): a band splitter and crossfader over four
  transforms. The out-of-band part of `in1` moves to `in2`, and the
  in-band part of `out2` replaces that of `out1`. Its frame test pushes to
  the three analysing transforms through a short-circuit `||`.
- **Freeze** (`freeze.dfy`): spectral freeze. A capture counter runs from 0
  to 4 after each trigger. Frames are absorbed only while capturing, and
  phases are reset after every captured frame but the last.
- **Cheb12** (`cheb12.dfy`): a polyphonic Chebyshev waveshaper. It covers the
  voice-count clamp, the per-voice rotation of the 12 harmonic levels, the
  coefficient sum that normalises each voice, the pitch cache that limits
  oscillator retuning, and the light routing.

The transform is a library object whose analysis and resynthesis are not
part of this model. `spectral.dfy` abstracts it as the class `Stft`: a bin
array, a hop counter, the list of samples it was fed, a count of phase
resets, and a count of output samples. `Push` reports a frame every `hop`
samples; the spectrum the library would analyse is a parameter. An output
sample is the symbolic value `Synth(stream, index)`. `rack.dfy` holds the
host helpers the modules use (an optional input voltage, `rescale`, the
signed square taper, C++ float-to-int truncation). `sums.dfy` holds finite
sums of reals, accumulated front to back like the source's loops.

Magnitudes, frequencies, band edges and shift ratios are `real`. Trigger
edges and the light clock divider are boolean inputs.

## Model

| member | source | states |
|---|---|---|
| Rack.Rescale | src/FreezeMk1.cpp:54 | the linear map sends the input range's endpoints to the output range's endpoints |
| Rack.RescaleRoundTrip | src/FreezeMk1.cpp:54-72 | rescaling into [-0.8, 0.8] and back out to [-5, 5] returns the original voltage |
| Rack.QuadraticBipolar | src/Cheb12Mk1.cpp:66-72 | the signed-square taper keeps the sign of its input and maps [-1, 1] into [-1, 1] |
| Rack.TruncToInt | src/Cheb12Mk1.cpp:68 | float-to-int conversion truncates toward zero: the result is within 1 of x, on the side of 0 |
| Spectral.Stft.constructor | src/Pitch.cpp:33-35 | a new transform has zeroed bins, a hop counter at 0, and has been fed nothing |
| Spectral.Stft.Push | src/Pitch.cpp:52 | pushing appends the sample; a frame is reported exactly when the hop counter completes a hop, and the bins then hold the new analysis; otherwise the bins are unchanged |
| Spectral.Stft.ResetPhases | src/Pitch.cpp:79 | a phase reset is recorded and nothing else changes |
| Spectral.Stft.Synthesize | src/Pitch.cpp:108 | each call yields the next output sample of this transform's stream |
| Pitch.Rise | src/Pitch.cpp:62-67 | one bin's contribution is never negative, is at least cur - prev, and is 0 exactly when the magnitude did not rise |
| Pitch.Rises | src/Pitch.cpp:61-67 | one non-negative contribution per bin |
| Pitch.Flux | src/Pitch.cpp:60-68 | positive spectral flux is never negative |
| Pitch.FluxZeroIffNoRise | src/Pitch.cpp:60-68 | flux is 0 if and only if no bin's magnitude rose above its previous value |
| Pitch.PitchModule.SpectralFlux | src/Pitch.cpp:60-68 | the flux loop computes the sum over all bins of the magnitude rises against PREV_MAG |
| Pitch.PitchModule.CopyBinsToAux | src/Pitch.cpp:74 | PREV_MAG receives the current magnitudes, bins unchanged |
| Pitch.PitchModule.InitStaging | src/Pitch.cpp:83-86 | TEMP_MAG is all 0 and TEMP_FRQ holds every bin's centre frequency k * binFreq |
| Pitch.KMax | src/Pitch.cpp:93-95 | the loop bound is at most n - 1, kmax * pshift never exceeds n, and it is 0 when pshift exceeds n |
| Pitch.Dest | src/Pitch.cpp:97 | the destination of source bin k is floor(k * pshift): at most k * pshift and within 1 of it |
| Pitch.DestInRange | src/Pitch.cpp:94-97 | every destination floor(k * pshift) with k below kmax is a valid bin index |
| Pitch.StagedMags | src/Pitch.cpp:84-98 | the staging magnitudes after source bins 1 .. k-1, one per bin, non-negative when the source magnitudes are |
| Pitch.StagedFrqs | src/Pitch.cpp:85-99 | the staging frequencies after source bins 1 .. k-1, one per bin; StagedUntouched and StagedFrqLastWriter give their values |
| Pitch.PitchShift | src/Pitch.cpp:83-105 | the spectrum a frame leaves in the bins, one bin per source bin, with non-negative magnitudes when the source's are |
| Pitch.StagedMagIsSum | src/Pitch.cpp:96-98 | the staged magnitude at j is the sum of the magnitudes of the source bins 1 .. kmax-1 mapped to j |
| Pitch.StagedMagsConserve | src/Pitch.cpp:84-98 | the staged magnitudes add up to the source magnitudes of bins 1 .. k-1 |
| Pitch.PitchShiftConservesMagnitude | src/Pitch.cpp:83-105 | the output spectrum's total magnitude equals the total magnitude of source bins 1 .. kmax-1 |
| Pitch.StagedUntouched | src/Pitch.cpp:84-85 | a destination no source bin maps to keeps magnitude 0 and its centre frequency |
| Pitch.StagedFrqLastWriter | src/Pitch.cpp:96-99 | the staged frequency at a destination is the largest source bin's frequency mapped there, times pshift |
| Pitch.PitchShiftIgnoresEdgeBins | src/Pitch.cpp:94-99 | source bin 0 and the last source bin have no influence on the output |
| Pitch.PitchShiftLargeRatioSilences | src/Pitch.cpp:93-96 | when pshift exceeds n the loop is empty and every output bin is silent at its centre frequency |
| Pitch.PitchShiftUnitRatio | src/Pitch.cpp:83-105 | with pshift 1, bins 1 .. n-2 pass unchanged while bin 0 and bin n-1 come out silent at their centre frequencies |
| Pitch.PitchModule.Remap | src/Pitch.cpp:93-101 | the remap loop leaves the staging buffers equal to the staged spectrum for kmax |
| Pitch.PitchModule.CopyAuxToBins | src/Pitch.cpp:104-105 | each bin takes the staged magnitude and staged frequency at its index |
| Pitch.PitchModule.ProcessFrame | src/Pitch.cpp:59-105 | after a frame the bins hold the pitch-shifted spectrum, PREV_MAG holds the magnitudes from before the remap, and a phase reset happens if and only if flux > 0.2 |
| Pitch.PitchModule.Process | src/Pitch.cpp:47-111 | a disconnected input changes nothing; otherwise the sample is pushed and the hop counter advances or wraps to 0, a completed frame is pitch-shifted, and an output sample is written |
| Pitch.PitchModule.constructor | src/Pitch.cpp:33-41 | a 4096-window, 1024-hop transform with 2049 bins and PREV_MAG at 0 |
| Rift.InBand | src/RiftMk1.cpp:69-72 | a bin is in band exactly when its centre frequency is neither below lo nor above hi, which needs lo <= hi |
| Rift.Gate | src/RiftMk1.cpp:67-75 | each gated bin is either the source bin or zero |
| Rift.GateBin | src/RiftMk1.cpp:67-75 | a bin with lo <= k * binFreq <= hi is unchanged (edges included); a bin below lo or above hi has both components zeroed |
| Rift.GateEmptyBand | src/RiftMk1.cpp:72 | an inverted band (lo > hi) zeroes every bin |
| Rift.GateIdempotent | src/RiftMk1.cpp:67-75 | gating twice with the same band gives the same bins as gating once |
| Rift.GateFullBand | src/RiftMk1.cpp:67-75 | a band reaching from DC to the last bin's centre leaves the spectrum unchanged |
| Rift.RiftMk1Module.constructor | src/RiftMk1.cpp:39-41 | a 2048-window, 512-hop transform with 1025 bins |
| Rift.RiftMk1Module.GateBins | src/RiftMk1.cpp:67-75 | the loop leaves the bins equal to the gated spectrum |
| Rift.RiftMk1Module.Process | src/RiftMk1.cpp:51-81 | a disconnected input changes nothing; otherwise the sample is pushed and the hop counter advances or wraps to 0, the band is applied only on a completed frame, an output sample is written, and no phase reset happens |
| RiftGate.Rejected | src/RiftGateMk1.cpp:84-89 | each bin in2 receives is either in1's bin or zero |
| RiftGate.Crossed | src/RiftGateMk1.cpp:88-91 | each bin of the new out1 is either out1's or out2's bin |
| RiftGate.SplitIsPartition | src/RiftGateMk1.cpp:79-93 | for every bin, new in1 plus new in2 is old in1, and at least one of them is zero |
| RiftGate.SplitStable | src/RiftGateMk1.cpp:84-91 | the kept part has nothing out of band, and the moved part has nothing in band |
| RiftGate.CrossedBin | src/RiftGateMk1.cpp:84-91 | out1 takes out2's bin in band and keeps its own bin outside the band |
| RiftGate.RiftGateModule.constructor | src/RiftGateMk1.cpp:44-48 | four distinct transforms with the same shape |
| RiftGate.RiftGateModule.Partition | src/RiftGateMk1.cpp:79-93 | in1 becomes its in-band part, in2 its out-of-band part, out1 the crossfade with out2, and out2 is not written |
| RiftGate.RiftGateModule.Process | src/RiftGateMk1.cpp:62-103 | in1 is always fed; out1 is fed only when in1 reports no frame; out2 only when neither does; in2 never; each hop counter advances exactly when its transform is fed; any reported frame partitions the bins; the outputs route INNER from in1, OUTER from in2 and OUT from out1; no phase reset happens |
| Freeze.CapturesFillWindow | src/FreezeMk1.cpp:13-35 | the hop is a quarter window, and 4 captured hops span exactly one window |
| Freeze.Step | src/FreezeMk1.cpp:56-67 | the counter stays in 0..4; a sample is fed exactly when a trigger arrived or capture is unfinished; a frame adds exactly 1; a reset follows a frame exactly when the count stays below 4 |
| Freeze.Run | src/FreezeMk1.cpp:64-67 | untriggered samples keep the counters in range |
| Freeze.RunSplit | src/FreezeMk1.cpp:64-67 | running a + b samples is running a, then b, with the resets added up |
| Freeze.CaptureOneHop | src/FreezeMk1.cpp:64-67 | while capturing, the rest of a hop captures exactly one frame, with a reset unless it is the fourth |
| Freeze.HoldingIsStable | src/FreezeMk1.cpp:64 | once 4 frames are captured, untriggered samples feed nothing and change nothing |
| Freeze.CaptureRest | src/FreezeMk1.cpp:63-67 | from capture c, the remaining hops fill the counter to 4 with 3 - c resets |
| Freeze.FullCapture | src/FreezeMk1.cpp:63-67 | after a trigger, the rest of the hop and three more hops reach count 4 with exactly 3 phase resets, and later samples change nothing |
| Freeze.TriggerRestartsCapture | src/FreezeMk1.cpp:56-64 | a trigger zeroes the counter before the capture test, so the same sample is fed |
| Freeze.FreezeMk1.constructor | src/FreezeMk1.cpp:39-48 | a 2048-window, 512-hop transform; construction runs the reset, so the counter is 0 and one phase reset is recorded |
| Freeze.FreezeMk1.Process | src/FreezeMk1.cpp:50-74 | counters, feeding, phase resets and bins follow Step on the rescaled sample; an output sample is produced on every call |
| Freeze.FreezeMk1.OnReset | src/FreezeMk1.cpp:76-81 | the counter returns to 0, a phase reset is recorded, and the hop stays 512 |
| Cheb12.VoiceCount | src/Cheb12Mk1.cpp:61 | the voice count is the channel count clamped to 1..8 |
| Cheb12.TruncRem12 | src/Cheb12Mk1.cpp:85 | C++ `%` by 12: congruent to the dividend, below 12 in size, with the dividend's sign |
| Cheb12.RotIndexAsWritten | src/Cheb12Mk1.cpp:85 | the index as written is congruent to k - rot and below 12 in size, but can be negative |
| Cheb12.RotIndex | src/Cheb12Mk1.cpp:85 | the harmonic read for coefficient k at rotation rot is in 0..11 and congruent to k - rot |
| Cheb12.RotIndexAgrees | src/Cheb12Mk1.cpp:85 | where k - rot + 60 is not negative, the written index equals the intended one |
| Cheb12.AsWrittenInRangeIff | src/Cheb12Mk1.cpp:85 | the written index is in 0..11 if and only if k - rot + 60 >= 0 or k - rot is a multiple of 12 |
| Cheb12.RotationReadsOutOfBounds | src/Cheb12Mk1.cpp:68-85 | rotation knob 12, voice 6, coefficient 1 gives the index -11 |
| Cheb12.Rotate | src/Cheb12Mk1.cpp:80-87 | twelve coefficients, coefficient k taking level (k - rot) mod 12; this uses the corrected index of the Findings row |
| Cheb12.RotatePermutes | src/Cheb12Mk1.cpp:82-87 | the coefficients of every voice are a permutation of the levels |
| Cheb12.RotateZero | src/Cheb12Mk1.cpp:85 | with rotation 0 the coefficients equal the harmonic levels |
| Cheb12.RotateCompose | src/Cheb12Mk1.cpp:80-108 | rotations compose, so voice i + 1 is voice i rotated once more by rotParam |
| Cheb12.RotatePeriodic | src/Cheb12Mk1.cpp:85 | rotating by 12 more changes nothing |
| Cheb12.RotateSum | src/Cheb12Mk1.cpp:82-87 | a rotation keeps the coefficient sum, so every voice's vol is the sum of the levels |
| Cheb12.RotParam | src/Cheb12Mk1.cpp:68 | from the CV, floor(v / 0.833); from the knob, its value truncated toward zero |
| Cheb12.HarmLevel | src/Cheb12Mk1.cpp:76-77 | without a CV the level is the knob; a CV between 0 and 10 V scales a non-negative knob down, and 10 V gives the knob |
| Cheb12.Detune | src/Cheb12Mk1.cpp:70-72 | the detune is 0 for a centred knob and within a quarter octave over the knob's range |
| Cheb12.DetuneIgnoresCv | src/Cheb12Mk1.cpp:70-72 | the DETUNE CV has no effect: the value computed from it is overwritten |
| Cheb12.FreqParam | src/Cheb12Mk1.cpp:64-66 | with fine tune centred, the pitch is semitones / 12 plus octaves |
| Cheb12.FreqParamOctave | src/Cheb12Mk1.cpp:64-65 | twelve semitones on FREQ equal one octave on OCT |
| Cheb12.Levels | src/Cheb12Mk1.cpp:74-78 | an unpatched harmonic's level is its knob; a CV between 0 and 10 V keeps a non-negative knob's level between 0 and the knob |
| Cheb12.VoicePitch | src/Cheb12Mk1.cpp:89 | voice 0 is not detuned: its pitch is the base pitch plus its V/OCT |
| Cheb12.VoicesEvenlySpaced | src/Cheb12Mk1.cpp:89 | with equal V/OCT, consecutive voices are one detune apart |
| Cheb12.CacheAfter | src/Cheb12Mk1.cpp:90-95 | the cache of voices at or above the voice count is left as it was |
| Cheb12.Retunes | src/Cheb12Mk1.cpp:90-95 | one retune flag per active voice; RetuneIff gives its meaning |
| Cheb12.RetuneIff | src/Cheb12Mk1.cpp:90-95 | an oscillator is retuned exactly when its pitch differs from the cached one |
| Cheb12.RetuneIdempotent | src/Cheb12Mk1.cpp:90-95 | after the cache update, the same controls retune no oscillator |
| Cheb12.LightIndex | src/Cheb12Mk1.cpp:116 | light i * 12 + k is one of the 96 lights and decodes back to voice i, harmonic k |
| Cheb12.LightIndexInjective | src/Cheb12Mk1.cpp:116 | each voice and harmonic has its own light |
| Cheb12.Cheb12Mk1Module.constructor | src/Cheb12Mk1.cpp:42 | the pitch cache starts at 0 for all eight voices |
| Cheb12.Cheb12Mk1Module.ReadHarmonics | src/Cheb12Mk1.cpp:74-78 | the loop computes the twelve levels |
| Cheb12.Cheb12Mk1Module.ShapeVoice | src/Cheb12Mk1.cpp:82-87 | voice i's coefficients become the levels rotated by rot, other voices keep theirs, and vol is the sum of the levels; the rotation uses the corrected index of the Findings row, not line 85 as written |
| Cheb12.Cheb12Mk1Module.UpdateLights | src/Cheb12Mk1.cpp:112-119 | light (i, k) shows coefficient k of voice i for active voices and 0 for the others |
| Cheb12.Cheb12Mk1Module.Process | src/Cheb12Mk1.cpp:59-120 | output channels equal the voice count; voice i has the levels rotated by i * rotParam and vol equal to their sum; inactive voices keep their coefficients; the pitch cache and retune flags follow CacheAfter and Retunes; the lights update only on a divider tick; the rotation uses the corrected index of the Findings row, not line 85 as written |

## Left out

- The transform library's analysis, resynthesis, windows, overlap-add and phase integration are not part of this model. `Stft.Push` takes the analysed spectrum as a parameter, and output samples are symbolic.
- Floating point: band edges in Hz (`powf`), the shift ratio (`exp2`) and the bin spacing are given as real parameters, and all arithmetic is exact.
- Pitch.KMax: the conversion of n / pshift to `unsigned` is not modelled for quotients beyond 2^32 (a tiny positive pshift), because integers here are unbounded.
- Pitch.PitchModule.constructor: assumes the library's auxiliary buffers start at 0; their initial content is library behaviour.
- Rift.RiftMk1Module.Process, RiftGate.RiftGateModule.Process: the band edges are parameters of every call, while the source computes them only inside the frame branch (src/RiftMk1.cpp:58-65, src/RiftGateMk1.cpp:70-77). They affect the bins only on a completed frame, so the CV is effectively sampled once per hop.
- Freeze.FreezeMk1.constructor: C++ builds members in declaration order, so the transform (src/FreezeMk1.cpp:33) is built at line 41 from `size` (line 35) before `size` is set. Its hop at that point is indeterminate, and reading `size` there is undefined behaviour. Only the constructor's call to `onReset`, through `sizeHop(size)` at line 78, makes the hop 512. The model builds the transform with hop 512 directly and does not model the indeterminate hop.
- Freeze.FreezeMk1.OnReset: setting the hop to 512 with `sizeHop` is assumed to leave the transform's hop counter as it is. HOP_PARAM is never read, so after the first reset the hop is always 512.
- Freeze.FreezeMk1.Process: the output voltage scaling of the resynthesised sample is not modelled, because the sample is symbolic.
- Cheb12.Cheb12Mk1Module.Process: the sine oscillators, the Chebyshev shaping, the division by vol (NaN when all levels are 0) and the output scaling are not modelled. A retune is reported as a flag rather than as the frequency C4 * 2^pitch.
- Cheb12.Cheb12Mk1Module.constructor: the shaper's initial coefficients belong to the library; they are taken to be 0.
- Cheb12.RotParam: the int-to-float round trip of the selected value loses nothing here; float precision for very large CV values is not modelled.
- The Schmitt trigger and the light clock divider are boolean inputs. Polyphony beyond the voice-count clamp is not modelled: V/OCT is given as eight voltages.
- src/SineMk1.cpp, src/OphMk1.cpp, src/BitMk1.cpp, src/DecayMk1.cpp, the widgets and the plugin registration are not part of this model.

## Findings

| source | as written | input that shows it | evidently intended | confidence | as-written member | corrected member |
|---|---|---|---|---|---|---|
| src/Cheb12Mk1.cpp:85 | the harmonic index is (k - rot + 60) % 12 with C++'s truncating `%`, which is negative when k - rot + 60 is negative and not a multiple of 12 | ROT knob at 12, voice 6 (rot = 72), coefficient 1: index -11, a read before the start of `harm` | k - rot reduced into 0..11 for every rotation, so each voice is a cyclic rotation of the levels | high; not executed | Cheb12.RotationReadsOutOfBounds | Cheb12.RotIndex |
