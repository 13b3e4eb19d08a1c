# ReiserRT CombGenerator — a Dafny model

This project models the core of the ReiserRT CombGenerator. The generator synthesises a
"comb": a set of harmonically related tones, summed into a buffer of complex samples. Each
tone can be scaled by a constant magnitude or by a per-sample envelope. The model covers
three pieces.

- **The scintillation engine.** It holds a (magnitude, slope) ramp state. For each sample it
  adds the slope to the magnitude and writes the result. On every decorrelation boundary
  (sample counter divisible by the decorrelation period D) it draws a new target from a
  caller-supplied source and aims the slope at that target, one period ahead.
  - The source has three copies of this loop: the static engine in
    testUtilities/ScintillationEngine.cpp, the member engine in src/ScintillationEngine.cpp,
    and the deprecated duplicate in src/CombGeneratorPrivate.cpp.
  - All three are one method, `Scintillation.Run`, specified by one function,
    `Scintillation.RunFrom`. `RunFrom` records the magnitudes written, the state left behind
    and the counter values at which the source was called.
- **The comb scintillation envelope functor**
  (testUtilities/CombScintillationEnvelopeFunctor.cpp). It keeps one scintillation state per
  harmonic, a scratch envelope buffer and a Rayleigh distributor. `reset` seeds the states;
  the call operator runs the engine for one harmonic.
- **The comb generator**, modelled twice:
  - `CombGeneratorImple.Imple` follows src/CombGenerator.cpp as written. It is the older
    interface: reset parameters carrying (magnitude, phase) pairs, scintillation built in,
    and `getSamples` returning an internal epoch buffer.
  - `CombGenerator.CombGenerator` follows the public header src/CombGenerator.h and the
    repository's tests. It has optional magnitude and phase vectors, an optional envelope
    functor, `getSamples` and `accumSamples` into a caller's buffer, a pure `reset()` and
    `getNumHarmonics()`. The implementation behind that header is not part of this model,
    so the bodies follow the loop of src/CombGenerator.cpp. `accumSamples`, the pure reset,
    the harmonic count query and zero filling with no harmonics come from the tests under
    tests/, and those rows cite the tests.

Modelling choices:

- **Numbers.** Doubles are `real`, so the tests' 1e-12 tolerances become exact equalities.
  `size_t` counters are `nat`.
- **Callbacks.** They may keep state of their own (the scintillation functor, the envelope
  functor, the distributor). Each is modelled as a pure function of the requests made of it
  so far and the current request. `Imple.getSamples` calls a per-line copy of the
  scintillation functor. The model therefore covers functors whose copies share one state,
  such as a lambda that captures its random engine by reference (see "## Left out"). The engine's no-argument source is a sequence `nat -> real`
  read through a cursor.
- **Tone oscillators.** FlyingPhasorToneGenerator is external. It is modelled as a record
  (step, phase, sample count) with an uninterpreted unit tone `tone(step, phase, k)`.

## Model

| member | source | states |
|---|---|---|
| Scintillation.RunFrom | testUtilities/ScintillationEngine.cpp:18-36 | A run of n samples writes exactly n magnitudes. A run of 0 samples leaves the state as it was and makes no draws. The final magnitude equals the last value written. |
| Scintillation.Run | testUtilities/ScintillationEngine.cpp:10-37 | The static engine writes the `RunFrom` output into `pBuffer[0..runLen)`, leaves the rest of the buffer untouched, returns the `RunFrom` state, and advances the source's cursor by the number of draws. D > 0 is required: with D = 0 the boundary test `sampleCounter % decorrelationSamples` at testUtilities/ScintillationEngine.cpp:27 divides by zero, and the src engine's header warns against it (src/ScintillationEngine.h:103). |
| Scintillation.Step | testUtilities/ScintillationEngine.cpp:24-35 | One loop pass writes state.first + state.second into sample i. Its new state and cursor are those of one `Tick` of the run so far. |
| Scintillation.Continuity | testUtilities/ScintillationEngine.cpp:18-36 | Two runs of n1 then n2 samples, the second started from the first's state, counter c + n1 and cursor, equal one run of n1 + n2 samples: same output concatenated, same final state, same draws. |
| Scintillation.OutputPrefix | testUtilities/ScintillationEngine.cpp:18-24 | Sample j of a run does not depend on how long the run goes on afterwards. |
| Scintillation.DrawsAtBoundaries | testUtilities/ScintillationEngine.cpp:27-30 | The source is called at counter s if and only if c <= s < c + runLen and s % D == 0. |
| Scintillation.DrawsIncreasing | testUtilities/ScintillationEngine.cpp:27-30 | The calls come in strictly increasing counter order, so each boundary is drawn for once. |
| Scintillation.SteppedLinear | testUtilities/ScintillationEngine.cpp:24 | Adding the slope j times gives m + j * slope. |
| Scintillation.AimReached | testUtilities/ScintillationEngine.cpp:33-34 | Starting at m with slope (t - m) / D, D steps land exactly on t. |
| Scintillation.LinearSegment | testUtilities/ScintillationEngine.cpp:24 | While no boundary is crossed, sample j is the start magnitude plus j + 1 slopes, and the slope is kept. |
| Scintillation.NoBoundaryInside | testUtilities/ScintillationEngine.cpp:27 | No counter strictly between a boundary b and b + D is a boundary. |
| Scintillation.TargetReached | testUtilities/ScintillationEngine.cpp:24-34 | If sample i falls on a boundary, sample i + D equals the target drawn there, i.e. the source's value at the cursor after the draws made before i. |
| Scintillation.SegmentEnd | testUtilities/ScintillationEngine.cpp:24-34 | `TargetReached` for the run that ends at sample i + D. |
| Scintillation.SegmentTarget | testUtilities/ScintillationEngine.cpp:24-34 | The D samples after a boundary, run from the state the boundary left, end on that boundary's target. |
| Scintillation.ConsecutiveOutputs | testUtilities/ScintillationEngine.cpp:24-34 | Sample j is sample j - 1 plus the slope in force. That slope changes only when sample j - 1 fell on a boundary. |
| Scintillation.FreshStart | testUtilities/ScintillationEngine.cpp:24-34 | From state (m, 0) at counter 0, sample 0 is m unchanged. For 1 <= j <= D, sample j is m + j * (t - m) / D, where t is the first target drawn. |
| Scintillation.FreshRamp | testUtilities/ScintillationEngine.cpp:24-34 | A single sample of `FreshStart`'s ramp, in stepped form. |
| Scintillation.FreshRampLinear | testUtilities/ScintillationEngine.cpp:24-34 | A single sample of `FreshStart`'s ramp, in closed form. |
| Scintillation.FreshSegment | testUtilities/ScintillationEngine.cpp:24-34 | `FreshRamp` for the run that ends at sample j. |
| TsgScintillationEngine.ScintillationEngine.constructor | src/ScintillationEngine.h:77-81 | The engine keeps the buffer and length it is given. |
| TsgScintillationEngine.ScintillationEngine.Run | src/ScintillationEngine.cpp:12-37 | A run writes exactly `bufLen` entries of the construction-time buffer, as `RunFrom` gives them, and changes nothing past them. The buffer and length are constants. |
| CombGeneratorPrivate.ScintillationEngine.constructor | src/CombGeneratorPrivate.h:37-41 | The deprecated engine keeps the buffer and length it is given. |
| CombGeneratorPrivate.ScintillationEngine.Run | src/CombGeneratorPrivate.cpp:12-37 | Same contract as the member engine's run: same output, final state and draws for the same inputs. |
| CombScintillationEnvelope.ResetMeans | testUtilities/CombScintillationEnvelopeFunctor.cpp:37-44 | Reset requests one mean per harmonic, in index order: the nominal magnitude, or 1.0 when the vector is null. |
| CombScintillationEnvelope.CombScintillationEnvelopeFunctor.constructor | testUtilities/CombScintillationEnvelopeFunctor.cpp:19-26 | The envelope buffer is allocated zeroed, with one (0, 0) state per harmonic. |
| CombScintillationEnvelope.CombScintillationEnvelopeFunctor.Reset | testUtilities/CombScintillationEnvelopeFunctor.cpp:30-48 | Stores the period, then reseeds the distributor before any draw. Harmonic i < numHarmonics gets the distributor's answer to the i-th request as its magnitude, with slope 0. Later states are untouched. The whole buffer is zero. |
| CombScintillationEnvelope.CombScintillationEnvelopeFunctor.Apply | testUtilities/CombScintillationEnvelopeFunctor.cpp:50-66 | Only `scintillationStates[nHarmonic]` changes. `envelopeBuffer[0..numSamples)` is the engine run from `currentSampleCount` with the stored period. The distributor is asked with the `nominalMag` argument once per draw, and the buffer is returned. |
| FlyingPhasor.GetSamplesScaled | src/CombGenerator.cpp:82-83 | Overwrites the first n entries with the scaled tone and advances the oscillator's count by n. |
| FlyingPhasor.AccumSamplesScaled | src/CombGenerator.cpp:85-86 | Adds the scaled tone onto the first n entries and advances the oscillator's count by n. |
| FlyingPhasor.UnitComb | src/CombGenerator.cpp:79-87 | A comb of magnitude-1 lines is the plain sum of the unit tones. |
| FlyingPhasor.CombDependsOnLines | src/CombGenerator.cpp:79-87 | A comb sample depends only on the lines counted and on their magnitudes at that sample. |
| FlyingPhasor.CombExtend | src/CombGenerator.cpp:79-87 | One more line adds its scaled tone to every comb sample. |
| FlyingPhasor.AdvanceNext | src/CombGenerator.cpp:79-87 | Advancing the next oscillator extends the advanced prefix of the line table by one. |
| FlyingPhasor.PartialStep | src/CombGenerator.cpp:79-87 | Line 0 overwriting and later lines adding builds the comb line by line; with accumulation, it builds the earlier buffer contents plus the comb. |
| CombGeneratorImple.Harmonic | src/CombGenerator.cpp:59 | Line i runs at (i + 1) times the spacing: the fundamental and its harmonics. |
| CombGeneratorImple.SeedRequests | src/CombGenerator.cpp:52-69 | A scintillating reset calls the functor once per line, in line order, with (normalMag_i, i). |
| CombGeneratorImple.Scintillate | src/CombGenerator.cpp:90-107 | A scintillating epoch yields one epoch-long envelope per line. Lines past those run keep their states. |
| CombGeneratorImple.ScintillateNext | src/CombGenerator.cpp:93-106 | Line n's run, from the state and the shared request history the earlier lines left, extends the epoch by its envelope, its new state and its requests. |
| CombGeneratorImple.ScintillateLine | src/CombGenerator.cpp:93-106 | Line i's envelope and final state come from its own pre-epoch state and its oscillator's sample count. The run completes before the line's samples are written. No later line changes them. |
| CombGeneratorImple.ScintillateRequests | src/CombGenerator.cpp:117-120 | Every request in an epoch names a line that was scintillated and carries that line's nominal magnitude; earlier history is kept. |
| CombGeneratorImple.ScintillatedStart | src/CombGenerator.cpp:65-69 | A freshly reset line (slope 0, count 0) is first scaled by its seeded magnitude, then ramps in equal steps toward its first target. |
| CombGeneratorImple.SteadyComb | src/CombGenerator.cpp:76-88 | Without scintillation, every sample j of the epoch is the sum over the lines of normalMagnitudes[i] times line i's tone at j, whatever the epoch length. |
| CombGeneratorImple.Imple.constructor | src/CombGenerator.cpp:27-37 | Full-capacity tables: magnitudes 0.0, states (0, 0). The engine writes the scintillation buffer for one epoch. |
| CombGeneratorImple.Imple.Reset | src/CombGenerator.cpp:39-71 | Throws `length_error` if and only if numLines > maxSpectralLines, and then changes nothing. Otherwise it records numLines and the period. Line i gets magnitude magPhase[i].first, and its oscillator is reset to step spacing + spacing * i and phase magPhase[i].second. When scintillating, state i becomes (funk(mag_i, i), 0) in line order; with period 0 the states and functor are untouched. Entries past numLines are unchanged. |
| CombGeneratorImple.Imple.ResetLine | src/CombGenerator.cpp:52-70 | One pass of the reset loop keeps the reset invariant `ResetSoFar`. |
| CombGeneratorImple.Imple.GetSamples | src/CombGenerator.cpp:73-110 | Without scintillation the buffer is the comb at the nominal magnitudes. With scintillation it is the comb scaled by each line's `Scintillate` envelope, and the states and functor history are those of `Scintillate`. Every line's count advances by an epoch. numLines, the period and the magnitudes are untouched, and the internal buffer is returned. |
| CombGeneratorImple.Imple.SteadyLines | src/CombGenerator.cpp:76-88 | The non-scintillating loop builds the comb at constant magnitudes and advances each line by an epoch. |
| CombGeneratorImple.Imple.ScintillatedLines | src/CombGenerator.cpp:90-107 | The scintillating loop builds the comb scaled by `Scintillate`'s envelopes. |
| CombGeneratorImple.Imple.ScintillatedStep | src/CombGenerator.cpp:93-106 | One pass of the scintillating loop keeps `EpochSoFar`. |
| CombGeneratorImple.Imple.ScintillatedLine | src/CombGenerator.cpp:93-106 | The line's run starts at its oscillator's current count. Its envelope then scales its tone, written over the buffer for line 0 and added for later lines. |
| CombGeneratorImple.Imple.ScintillationManagement | src/CombGenerator.cpp:112-126 | Runs the engine for one line from the given count, with the functor asked (mag, lineNum). Only that line's state changes. |
| CombGenerator.Answer | src/CombGeneratorEnvelopeFunkType.h:37-40 | The envelope's answer, cut to the numSamples samples asked for. |
| CombGenerator.Scales | src/CombGenerator.h:104-107 | One scale per harmonic, each exactly numSamples long. |
| CombGenerator.ScalesWithoutEnvelope | src/CombGenerator.h:104-107 | With an empty envelope, each tone is scaled by its constant magnitude only, and nothing is invoked. |
| CombGenerator.ScalesWithEnvelope | src/CombGenerator.h:119-121 | A non-empty envelope is invoked exactly once per harmonic, in harmonic order, with (sample count, numSamples, i, magnitude_i). Its answer scales that harmonic. |
| CombGenerator.DefaultMagnitudesComb | src/CombGenerator.h:93-95 | With a null magnitude vector (1.0 everywhere) and no envelope, a sample is the plain sum of the unit tones. |
| CombGenerator.CombGenerator.constructor | src/CombGenerator.h:52-60 | Capacity for maxHarmonics harmonics, none in use, no envelope. |
| CombGenerator.CombGenerator.Reset | src/CombGenerator.h:83-114 | Throws `length_error` if and only if numHarmonics > max, and then changes nothing. Otherwise harmonic i gets magnitude v[i] (1.0 when null), step f + f * i and phase p[i] (0.0 when null), from count 0. The envelope is installed with no calls yet. |
| CombGenerator.CombGenerator.PureReset | tests/testConstruction.cpp:150-173 | Equivalent in output to the constructed state: no harmonics and no envelope, so by `GetSamples`' contract the next call writes zeros. |
| CombGenerator.CombGenerator.GetNumHarmonics | tests/testConstruction.cpp:101-119 | The harmonic count in use (0 when constructed, the requested count after a successful reset, as `Reset` sets it), never above the capacity. |
| CombGenerator.CombGenerator.GetSamples | src/CombGenerator.h:116-126 | Writes exactly numSamples samples: the comb of the harmonics under `Scales`, or zeros with no harmonics. The buffer past numSamples is untouched, each oscillator advances by numSamples, and the envelope calls are those of `Scales`. |
| CombGenerator.CombGenerator.AccumSamples | tests/testMagAndPhaseNoEnvelope.cpp:99-136 | The buffer becomes its earlier content plus exactly the comb `GetSamples` would write; same oscillator and envelope effects. |
| CombGenerator.CombGenerator.Harmonics | src/CombGenerator.cpp:79-87 | The harmonic loop, overwriting or accumulating. |
| CombGenerator.CombGenerator.AddNextHarmonic | src/CombGenerator.cpp:79-87 | One pass of the harmonic loop keeps `HarmonicsSoFar`. |
| CombGenerator.CombGenerator.AddHarmonic | src/CombGenerator.cpp:81-86 | Harmonic i's scaled tone is written or added over the first numSamples entries, and only its oscillator advances. |
| CombGenerator.CombGenerator.HarmonicScale | src/CombGenerator.h:119-121 | The constant magnitude, or exactly one envelope invocation with the harmonic's running count. |

## Left out

- FlyingPhasorToneGenerator is not part of this model. Its tone is uninterpreted, and only
  its sample count and its scaled overwrite/accumulate contracts are modelled. Floating-point
  rounding is not modelled: reals are exact.
- The Rayleigh and phase distributors' engines are not modelled (`std::mt19937`/`knuth_b`
  and normal or uniform distributions). The distributor is an abstract law of (seed,
  requests since seeding, mean).
  - The functor uses testUtilities/RayleighDistributor.h, whose implementation file is not
    part of this model. So the "mean <= 0 gives 0" guard of src/RayleighDistributor.cpp:30
    is not assumed.
  - src/RayleighDistributor.cpp:28 and :72 return `uint32_t`, while src/RayleighDistributor.h:27
    declares `double`. The value would be truncated to an integer. That distributor is not
    on the modelled path, so the truncation is not modelled.
- The sub-seed generators, the random phase distributor, the spectrum generator stub, the
  command-line parser, the test utilities and the sundry programs are not modelled: I/O,
  threads, timing and statistics.
- C++ plumbing is not modelled: pImpl allocation, destructors, deleted copies, move
  construction and move assignment (tests/testConstruction.cpp:88 and :122), and `shared_ptr`
  reference counting. Shared vectors are immutable sequences.
- `size_t` wrap-around of the sample counters, and the `int` loop index of the src engines
  compared against a `size_t` length, are not modelled. Counters are unbounded `nat`.
- CombGeneratorImple.Imple.Reset reads a `pMagPhase` array of (magnitude, phase) pairs.
  Neither reset-parameters struct shipped with the source has that field
  (src/CombGeneratorDataTypes.h has separate magnitude and phase vectors,
  src/CombGeneratorResetParameters.h neither). The model follows the code.
- CombGeneratorImple.Imple.Reset requires the pairs to cover every requested line. The
  source reads them unchecked; reading past the end is undefined behaviour.
- CombScintillationEnvelope.CombScintillationEnvelopeFunctor.Apply requires nHarmonic <
  maxHarmonics, numSamples <= maxEpochSize and a non-zero period. The source leaves these
  unchecked, and breaking them is undefined behaviour or a division by zero.
- CombGenerator.CombGenerator.Reset requires each non-null vector to cover the harmonics
  asked for, and the envelope to deliver the samples asked of it. The header calls
  anything else undefined behaviour.
- CombGenerator.CombGenerator: the repository's implementation behind the header is not
  part of this model. Its bodies follow src/CombGenerator.cpp's loop, and `accumSamples`,
  the pure reset, `getNumHarmonics` and the zero fill follow the tests.
- The two generator models share the line-loop lemmas but are separate classes. The old
  interface's epoch buffer and the header's caller buffer are not unified.
- The tests compare ramp sample values within a relative tolerance of 1e-12
  (tests/testScintillation.cpp:72-109), for example the 2.0 reached one period after a
  boundary. Concrete test vectors are not restated; `TargetReached` proves that the value
  drawn at boundary sample i is reached at sample i + D, and `FreshStart` gives the ramp in
  between.
- CombScintillationEnvelope.CombScintillationEnvelopeFunctor.Reset requires numHarmonics <=
  maxHarmonics and, when a nominal magnitude vector is given, that it covers every
  harmonic. The source leaves both unchecked
  (testUtilities/CombScintillationEnvelopeFunctor.cpp:36-45): indexing
  `scintillationStates[i]` past its size or reading `*pNominalMag++` past the vector is
  undefined behaviour.
- CombGeneratorImple.ScintillateNext, like `Scintillate`, passes one request history from
  line to line. In src/CombGenerator.cpp:117 each line's engine calls a lambda holding its
  own copy of the caller's `std::function`. That is the same thing only when the functor's
  copies share their state, for example a random engine captured by reference. A functor that
  holds its state by value would restart every line, and every epoch, from the caller's
  unchanged state. The model does not promise that behaviour.
- CombGeneratorImple.Imple.GetSamples returns the history extended by every line's requests
  (`calls' == e.calls`), which is right only for a functor with shared state, as above. For a
  functor holding its state by value, the caller's functor is never advanced, and that is not
  modelled.
- CombGeneratorImple.Imple.ScintillationManagement extends the caller's history by the
  line's requests. The source runs the engine on a per-line copy of the functor
  (src/CombGenerator.cpp:117), so this holds only for a functor with shared state.
