/**
 * The comb generator's implementation class as src/CombGenerator.cpp writes it: a fixed
 * capacity of spectral lines, each a tone oscillator with a nominal magnitude and a
 * scintillation state, one epoch-sized scintillation buffer driven by a member scintillation
 * engine, and one epoch-sized output buffer.
 *
 * The scintillation functor `(nominalMag, lineNum) -> double` is supplied by the caller on
 * each call and may keep state of its own; it is modelled as `MagFunk`, which answers a
 * request given the requests made of it before. Each operation takes the functor's request
 * history and returns it extended by the requests made. `getSamples` hands each line a copy
 * of the functor, so the history is threaded through the lines only for a functor whose
 * copies share one state (a random engine captured by reference, say). A functor holding
 * its state by value restarts from the caller's state on every line, and that is not
 * modelled.
 */
module CombGeneratorImple {
  import opened Common
  import opened Scintillation
  import opened FlyingPhasor
  import TsgScintillationEngine

  /** One call of the scintillation functor: a line's nominal magnitude and the line's index. */
  datatype MagRequest = MagRequest(nominalMag: real, lineNum: nat)

  /** The functor's answer to a request, given the requests made of it before. */
  type MagFunk = (seq<MagRequest>, MagRequest) -> real

  /** The reset parameters: line count, one (magnitude, phase) pair per line, the harmonic
      spacing and the decorrelation period (0: no scintillation). */
  datatype ResetParameters = ResetParameters(numLines: nat, magPhase: seq<(real, real)>,
                                             spacingRadiansPerSample: real, decorrelationSamples: nat)

  /** A reset either completes or throws `std::length_error`. */
  datatype Outcome = Success | LengthError

  /** The step of line i: the spacing plus i spacings, so line i runs at i + 1 times the
      spacing. */
  function Harmonic(spacing: real, i: nat): (step: real)
    ensures step == ((i + 1) as real) * spacing
  {
    spacing + spacing * (i as real)
  }

  /** The requests `reset` makes of the functor for the first n lines, in line order. */
  function SeedRequests(magPhase: seq<(real, real)>, n: nat): (r: seq<MagRequest>)
    requires n <= |magPhase|
    ensures |r| == n
    ensures forall i :: 0 <= i < n ==> r[i] == MagRequest(magPhase[i].0, i)
  {
    if n == 0 then [] else SeedRequests(magPhase, n - 1) + [MagRequest(magPhase[n - 1].0, n - 1)]
  }

  /** Line i's scintillation state after a scintillating reset: the functor's answer for
      (line i's magnitude, i), asked after the requests for lines 0 .. i - 1, and slope 0. */
  function Seeded(funk: MagFunk, calls: seq<MagRequest>, magPhase: seq<(real, real)>, i: nat): State
    requires i < |magPhase|
  {
    State(funk(calls + SeedRequests(magPhase, i), MagRequest(magPhase[i].0, i)), 0.0)
  }

  /** The values the functor returns to the engine for one line: the j-th call of the run is
      made after the j earlier calls of that run. */
  function FunkStream(funk: MagFunk, calls: seq<MagRequest>, req: MagRequest): nat -> real
  {
    (j: nat) => funk(calls + Repeat(req, j), req)
  }

  /** What scintillating an epoch does: one magnitude envelope per line, the scintillation
      states after, and the functor's request history after. */
  datatype Epoch = Epoch(scales: seq<seq<real>>, states: seq<State>, calls: seq<MagRequest>)

  /** The first n lines of a scintillating epoch, line by line: line i runs the engine for
      `epochSize` samples from its own state and its oscillator's sample count, drawing
      targets by calling the functor with its nominal magnitude and index. */
  function Scintillate(states: seq<State>, oscs: seq<Oscillator>, mags: seq<real>, funk: MagFunk,
                       calls: seq<MagRequest>, period: nat, epochSize: nat, n: nat): (e: Epoch)
    requires period > 0
    requires n <= |states| && n <= |oscs| && n <= |mags|
    ensures |e.scales| == n && |e.states| == |states|
    ensures forall i :: 0 <= i < n ==> |e.scales[i]| == epochSize
    ensures forall i :: n <= i < |states| ==> e.states[i] == states[i]
    decreases n
  {
    if n == 0 then Epoch([], states, calls)
    else
      var e := Scintillate(states, oscs, mags, funk, calls, period, epochSize, n - 1);
      var req := MagRequest(mags[n - 1], n - 1);
      var r := RunFrom(e.states[n - 1], oscs[n - 1].sampleCount, period, epochSize,
                       FunkStream(funk, e.calls, req), 0);
      Epoch(e.scales + [r.output], e.states[n - 1 := r.state], e.calls + Repeat(req, |r.draws|))
  }

  /** One more line of a scintillating epoch: its run, from the state the earlier lines left
      and with the functor's history they left, appends its envelope, replaces its state and
      extends the history by its requests. */
  lemma ScintillateNext(states: seq<State>, oscs: seq<Oscillator>, mags: seq<real>, funk: MagFunk,
                        calls: seq<MagRequest>, period: nat, epochSize: nat, n: nat,
                        statesNow: seq<State>, callsNow: seq<MagRequest>,
                        output: seq<real>, state': State, calls': seq<MagRequest>)
    requires period > 0
    requires n < |states| && n < |oscs| && n < |mags|
    requires statesNow == Scintillate(states, oscs, mags, funk, calls, period, epochSize, n).states
    requires callsNow == Scintillate(states, oscs, mags, funk, calls, period, epochSize, n).calls
    requires var req := MagRequest(mags[n], n);
             var r := RunFrom(statesNow[n], oscs[n].sampleCount, period, epochSize, FunkStream(funk, callsNow, req), 0);
             output == r.output && state' == r.state && calls' == callsNow + Repeat(req, |r.draws|)
    ensures var e := Scintillate(states, oscs, mags, funk, calls, period, epochSize, n + 1);
            e.scales == Scintillate(states, oscs, mags, funk, calls, period, epochSize, n).scales + [output]
            && e.states == statesNow[n := state'] && e.calls == calls'
  {
  }

  /** Line i of a scintillating epoch runs from its own state as it was before the epoch and
      from its oscillator's sample count, with the functor's history as the lines before it
      left it; no later line changes its envelope or its state. */
  lemma {:induction false} ScintillateLine(states: seq<State>, oscs: seq<Oscillator>, mags: seq<real>, funk: MagFunk,
                                           calls: seq<MagRequest>, period: nat, epochSize: nat, n: nat, i: nat)
    requires period > 0
    requires n <= |states| && n <= |oscs| && n <= |mags|
    requires i < n
    ensures var before := Scintillate(states, oscs, mags, funk, calls, period, epochSize, i);
            var req := MagRequest(mags[i], i);
            var r := RunFrom(states[i], oscs[i].sampleCount, period, epochSize, FunkStream(funk, before.calls, req), 0);
            var e := Scintillate(states, oscs, mags, funk, calls, period, epochSize, n);
            e.scales[i] == r.output && e.states[i] == r.state
    decreases n
  {
    if i < n - 1 {
      ScintillateLine(states, oscs, mags, funk, calls, period, epochSize, n - 1, i);
    }
  }

  /** Every request an epoch makes of the functor names one of the lines scintillated and
      carries that line's nominal magnitude; earlier history is kept as it was. */
  lemma {:induction false} ScintillateRequests(states: seq<State>, oscs: seq<Oscillator>, mags: seq<real>, funk: MagFunk,
                                               calls: seq<MagRequest>, period: nat, epochSize: nat, n: nat)
    requires period > 0
    requires n <= |states| && n <= |oscs| && n <= |mags|
    ensures var e := Scintillate(states, oscs, mags, funk, calls, period, epochSize, n);
            |calls| <= |e.calls| && e.calls[..|calls|] == calls
            && forall k :: |calls| <= k < |e.calls| ==>
                 e.calls[k].lineNum < n && e.calls[k].nominalMag == mags[e.calls[k].lineNum]
    decreases n
  {
    if n > 0 {
      ScintillateRequests(states, oscs, mags, funk, calls, period, epochSize, n - 1);
      var p := Scintillate(states, oscs, mags, funk, calls, period, epochSize, n - 1);
      var e := Scintillate(states, oscs, mags, funk, calls, period, epochSize, n);
      var req := MagRequest(mags[n - 1], n - 1);
      var added := e.calls[|p.calls|..];
      assert e.calls == p.calls + added;
      forall k | |calls| <= k < |e.calls|
        ensures e.calls[k].lineNum < n && e.calls[k].nominalMag == mags[e.calls[k].lineNum]
      {
        if k >= |p.calls| {
          assert e.calls[k] == added[k - |p.calls|] == req;
        } else {
          assert e.calls[k] == p.calls[k];
        }
      }
    }
  }

  /** A line seeded by reset (slope 0) whose oscillator is fresh (sample count 0) is first
      scaled by its seeded magnitude, and then ramps toward the first target the functor
      returns for it, one equal step per sample (`SteppedLinear` gives the closed form). */
  lemma ScintillatedStart(states: seq<State>, oscs: seq<Oscillator>, mags: seq<real>, funk: MagFunk,
                          calls: seq<MagRequest>, period: nat, epochSize: nat, n: nat, i: nat)
    requires period > 0
    requires n <= |states| && n <= |oscs| && n <= |mags|
    requires i < n && 0 < epochSize
    requires states[i].slope == 0.0 && oscs[i].sampleCount == 0
    ensures var e := Scintillate(states, oscs, mags, funk, calls, period, epochSize, n);
            e.scales[i][0] == states[i].magnitude
    ensures var before := Scintillate(states, oscs, mags, funk, calls, period, epochSize, i);
            var target := funk(before.calls, MagRequest(mags[i], i));
            var e := Scintillate(states, oscs, mags, funk, calls, period, epochSize, n);
            forall j :: 1 <= j < epochSize && j <= period ==>
              e.scales[i][j] == Stepped(states[i].magnitude, Aim(target, states[i].magnitude, period), j)
  {
    var before := Scintillate(states, oscs, mags, funk, calls, period, epochSize, i);
    var req := MagRequest(mags[i], i);
    ScintillateLine(states, oscs, mags, funk, calls, period, epochSize, n, i);
    var source := FunkStream(funk, before.calls, req);
    var m := states[i].magnitude;
    assert states[i] == State(m, 0.0);
    FreshStart(m, period, epochSize, source, 0);
    assert before.calls + Repeat(req, 0) == before.calls;
    var target := funk(before.calls, req);
    assert source(0) == target;
    var e := Scintillate(states, oscs, mags, funk, calls, period, epochSize, n);
    var r := RunFrom(State(m, 0.0), 0, period, epochSize, source, 0);
    assert e.scales[i] == r.output;
    forall j | 1 <= j < epochSize && j <= period
      ensures e.scales[i][j] == Stepped(m, Aim(target, m, period), j)
    {
      FreshRamp(m, period, epochSize, source, 0, j);
    }
  }

  /** Each line's constant magnitude, for `count` samples. */
  function ConstScales(mags: seq<real>, count: nat): seq<seq<real>>
  {
    seq(|mags|, i requires 0 <= i < |mags| => Repeat(mags[i], count))
  }

  /** Sample j of the first n lines' tones, line i weighted by `mags[i]`. */
  function WeightedSum(tone: Tone, oscs: seq<Oscillator>, mags: seq<real>, n: nat, j: nat): Complex
    requires n <= |oscs| && n <= |mags|
  {
    if n == 0 then Zero
    else Add(WeightedSum(tone, oscs, mags, n - 1, j), Scale(mags[n - 1], Sample(tone, oscs[n - 1], j)))
  }

  /** Without scintillation every sample of the epoch is the sum of the lines' tones weighted
      by their nominal magnitudes, whatever the epoch's length. */
  lemma {:induction false} SteadyComb(tone: Tone, oscs: seq<Oscillator>, mags: seq<real>, count: nat,
                                      n: nat, j: nat)
    requires n <= |oscs| && n <= |mags| && j < count
    ensures Covers(ConstScales(mags, count), n, j)
    ensures Comb(tone, oscs, ConstScales(mags, count), n, j) == WeightedSum(tone, oscs, mags, n, j)
  {
    if n > 0 {
      SteadyComb(tone, oscs, mags, count, n - 1, j);
      assert ConstScales(mags, count)[n - 1][j] == mags[n - 1];
    }
  }

  class Imple {
    const maxSpectralLines: nat
    const epochSize: nat
    const spectralLineGenerators: array<Oscillator>
    const normalMagnitudes: array<real>
    const scintillationStates: array<State>
    const scintillationBuffer: array<real>
    const epochSampleBuffer: array<Complex>
    const scintillationEngine: TsgScintillationEngine.ScintillationEngine
    var numLines: nat
    var decorrelationSamples: nat
    /** The unit tone every oscillator produces. */
    const tone: Tone

    ghost predicate Valid()
      reads this, scintillationEngine
    {
      && spectralLineGenerators.Length == maxSpectralLines
      && normalMagnitudes.Length == maxSpectralLines
      && scintillationStates.Length == maxSpectralLines
      && scintillationBuffer.Length == epochSize
      && epochSampleBuffer.Length == epochSize
      && normalMagnitudes != scintillationBuffer
      && scintillationEngine.scintillationBuffer == scintillationBuffer
      && scintillationEngine.bufLen == epochSize
      && numLines <= maxSpectralLines
    }

    /** Allocates every table at full capacity: default oscillators, nominal magnitudes 0.0,
        scintillation states (0, 0), no lines, no scintillation; the engine writes the
        scintillation buffer for a whole epoch. */
    constructor(theMaxSpectralLines: nat, theEpochSize: nat, theTone: Tone)
      ensures Valid()
      ensures maxSpectralLines == theMaxSpectralLines && epochSize == theEpochSize && tone == theTone
      ensures numLines == 0 && decorrelationSamples == 0
      ensures forall i :: 0 <= i < maxSpectralLines ==> normalMagnitudes[i] == 0.0
      ensures forall i :: 0 <= i < maxSpectralLines ==> scintillationStates[i] == State(0.0, 0.0)
      ensures fresh(spectralLineGenerators) && fresh(normalMagnitudes) && fresh(scintillationStates)
      ensures fresh(scintillationBuffer) && fresh(epochSampleBuffer) && fresh(scintillationEngine)
    {
      maxSpectralLines := theMaxSpectralLines;
      epochSize := theEpochSize;
      spectralLineGenerators := new Oscillator[theMaxSpectralLines](_ => Oscillator(0.0, 0.0, 0));
      normalMagnitudes := new real[theMaxSpectralLines](_ => 0.0);
      scintillationStates := new State[theMaxSpectralLines](_ => State(0.0, 0.0));
      var sb := new real[theEpochSize];
      scintillationBuffer := sb;
      epochSampleBuffer := new Complex[theEpochSize];
      scintillationEngine := new TsgScintillationEngine.ScintillationEngine(sb, theEpochSize);
      tone := theTone;
      numLines := 0;
      decorrelationSamples := 0;
    }

    /** Throws `length_error` when more lines are asked for than allocated, before touching
        anything. Otherwise records the line count and period, and for each line in order
        copies its magnitude, resets its oscillator to step spacing + spacing * i and its
        phase, and, when scintillating, seeds its state with the functor's answer for (its
        magnitude, i) and slope 0. Entries past the line count are left alone. The pairs are
        read for every requested line, so the caller must supply that many. */
    method Reset(resetParameters: ResetParameters, randomMagFunk: MagFunk, calls: seq<MagRequest>)
      returns (outcome: Outcome, calls': seq<MagRequest>)
      requires Valid()
      requires resetParameters.numLines <= maxSpectralLines ==>
                 resetParameters.numLines <= |resetParameters.magPhase|
      modifies this, spectralLineGenerators, normalMagnitudes, scintillationStates
      ensures Valid()
      ensures outcome == LengthError <==> maxSpectralLines < resetParameters.numLines
      ensures outcome == LengthError ==>
                numLines == old(numLines) && decorrelationSamples == old(decorrelationSamples)
                && spectralLineGenerators[..] == old(spectralLineGenerators[..])
                && normalMagnitudes[..] == old(normalMagnitudes[..])
                && scintillationStates[..] == old(scintillationStates[..])
                && calls' == calls
      ensures outcome == Success ==>
                numLines == resetParameters.numLines
                && decorrelationSamples == resetParameters.decorrelationSamples
                && (forall i :: 0 <= i < numLines ==>
                      normalMagnitudes[i] == resetParameters.magPhase[i].0
                      && spectralLineGenerators[i]
                         == FlyingPhasor.Reset(Harmonic(resetParameters.spacingRadiansPerSample, i), resetParameters.magPhase[i].1))
                && (forall i :: numLines <= i < maxSpectralLines ==>
                      normalMagnitudes[i] == old(normalMagnitudes[i])
                      && spectralLineGenerators[i] == old(spectralLineGenerators[i]))
      ensures outcome == Success && resetParameters.decorrelationSamples != 0 ==>
                (forall i :: 0 <= i < numLines ==>
                   scintillationStates[i]
                   == Seeded(randomMagFunk, calls, resetParameters.magPhase, i))
                && (forall i :: numLines <= i < maxSpectralLines ==>
                      scintillationStates[i] == old(scintillationStates[i]))
                && calls' == calls + SeedRequests(resetParameters.magPhase, numLines)
      ensures outcome == Success && resetParameters.decorrelationSamples == 0 ==>
                scintillationStates[..] == old(scintillationStates[..]) && calls' == calls
    {
      if maxSpectralLines < resetParameters.numLines {
        return LengthError, calls;
      }
      numLines := resetParameters.numLines;
      decorrelationSamples := resetParameters.decorrelationSamples;
      calls' := calls;
      ghost var mags0 := old(normalMagnitudes[..]);
      ghost var oscs0 := old(spectralLineGenerators[..]);
      ghost var states0 := old(scintillationStates[..]);
      var i := 0;
      while i != numLines
        invariant ResetSoFar(i, resetParameters, randomMagFunk, calls, calls', mags0, oscs0, states0)
      {
        calls' := ResetLine(i, resetParameters, randomMagFunk, calls, calls', mags0, oscs0, states0);
        i := i + 1;
      }
      return Success, calls';
    }

    /** The state of the line loop of `Reset` after its first i lines, from magnitudes
        `mags0`, oscillators `oscs0` and scintillation states `states0` and functor history
        `calls0`: those lines hold their new magnitude, oscillator and (when scintillating)
        seeded state, the functor has been asked once for each of them, and every later line
        is untouched. */
    ghost predicate ResetSoFar(i: nat, p: ResetParameters, randomMagFunk: MagFunk, calls0: seq<MagRequest>,
                               calls: seq<MagRequest>, mags0: seq<real>, oscs0: seq<Oscillator>, states0: seq<State>)
      reads this, scintillationEngine, spectralLineGenerators, normalMagnitudes, scintillationStates
    {
      && Valid() && i <= numLines && numLines == p.numLines && numLines <= |p.magPhase|
      && decorrelationSamples == p.decorrelationSamples
      && |mags0| == maxSpectralLines && |oscs0| == maxSpectralLines && |states0| == maxSpectralLines
      && (forall h :: 0 <= h < i ==> normalMagnitudes[h] == p.magPhase[h].0)
      && (forall h :: 0 <= h < i ==>
            spectralLineGenerators[h] == FlyingPhasor.Reset(Harmonic(p.spacingRadiansPerSample, h), p.magPhase[h].1))
      && (forall h :: i <= h < maxSpectralLines ==> normalMagnitudes[h] == mags0[h])
      && (forall h :: i <= h < maxSpectralLines ==> spectralLineGenerators[h] == oscs0[h])
      && (decorrelationSamples != 0 ==>
            (forall h :: 0 <= h < i ==> scintillationStates[h] == Seeded(randomMagFunk, calls0, p.magPhase, h))
            && calls == calls0 + SeedRequests(p.magPhase, i))
      && (forall h :: (if decorrelationSamples != 0 then i else 0) <= h < maxSpectralLines ==>
            scintillationStates[h] == states0[h])
      && (decorrelationSamples == 0 ==> calls == calls0)
    }

    /** One pass of the line loop of `Reset`: line i takes its magnitude, its harmonic's
        oscillator and, when scintillating, its seeded state. */
    method ResetLine(i: nat, resetParameters: ResetParameters, randomMagFunk: MagFunk, ghost calls0: seq<MagRequest>,
                     calls: seq<MagRequest>, ghost mags0: seq<real>, ghost oscs0: seq<Oscillator>,
                     ghost states0: seq<State>)
      returns (calls': seq<MagRequest>)
      requires i < numLines && ResetSoFar(i, resetParameters, randomMagFunk, calls0, calls, mags0, oscs0, states0)
      modifies spectralLineGenerators, normalMagnitudes, scintillationStates
      ensures ResetSoFar(i + 1, resetParameters, randomMagFunk, calls0, calls', mags0, oscs0, states0)
    {
      calls' := calls;
      var normalMag := resetParameters.magPhase[i].0;
      normalMagnitudes[i] := normalMag;
      var radiansPerSample := Harmonic(resetParameters.spacingRadiansPerSample, i);
      spectralLineGenerators[i] := FlyingPhasor.Reset(radiansPerSample, resetParameters.magPhase[i].1);
      if resetParameters.decorrelationSamples != 0 {
        var req := MagRequest(normalMag, i);
        scintillationStates[i] := State(randomMagFunk(calls', req), 0.0);
        calls' := calls' + [req];
        assert scintillationStates[i] == Seeded(randomMagFunk, calls0, resetParameters.magPhase, i);
        assert SeedRequests(resetParameters.magPhase, i + 1) == SeedRequests(resetParameters.magPhase, i) + [req];
      }
    }

    /** Produces one epoch. Without scintillation, line 0 overwrites the output buffer with
        its tone at its nominal magnitude and every further line adds its own; with
        scintillation, each line first runs its scintillation from its oscillator's sample
        count and is then scaled by that envelope. Every line's oscillator advances by an
        epoch; with no lines the buffer is left as it was. The line count, the period and the
        nominal magnitudes are not touched. Returns the output buffer. */
    method GetSamples(scintillateFunk: MagFunk, calls: seq<MagRequest>)
      returns (buffer: array<Complex>, calls': seq<MagRequest>)
      requires Valid()
      modifies epochSampleBuffer, spectralLineGenerators, scintillationStates, scintillationBuffer
      ensures Valid()
      ensures buffer == epochSampleBuffer
      ensures forall i :: 0 <= i < numLines ==>
                spectralLineGenerators[i] == Advanced(old(spectralLineGenerators[i]), epochSize)
      ensures forall i :: numLines <= i < maxSpectralLines ==>
                spectralLineGenerators[i] == old(spectralLineGenerators[i])
      ensures numLines == 0 ==> epochSampleBuffer[..] == old(epochSampleBuffer[..])
      ensures decorrelationSamples == 0 ==>
                scintillationStates[..] == old(scintillationStates[..])
                && scintillationBuffer[..] == old(scintillationBuffer[..])
                && calls' == calls
      ensures decorrelationSamples == 0 && numLines > 0 ==>
                forall j :: 0 <= j < epochSize ==>
                  epochSampleBuffer[j]
                  == Comb(tone, old(spectralLineGenerators[..]), ConstScales(normalMagnitudes[..numLines], epochSize), numLines, j)
      ensures decorrelationSamples != 0 ==>
                var e := Scintillate(old(scintillationStates[..]), old(spectralLineGenerators[..]), normalMagnitudes[..],
                                     scintillateFunk, calls, decorrelationSamples, epochSize, numLines);
                scintillationStates[..] == e.states && calls' == e.calls
                && (numLines > 0 ==>
                      forall j :: 0 <= j < epochSize ==>
                        epochSampleBuffer[j] == Comb(tone, old(spectralLineGenerators[..]), e.scales, numLines, j))
    {
      ghost var oscs0 := spectralLineGenerators[..];
      ghost var buffer0 := epochSampleBuffer[..];
      ghost var scales: seq<seq<real>>;
      if decorrelationSamples == 0 {
        SteadyLines();
        calls' := calls;
        scales := ConstScales(normalMagnitudes[..numLines], epochSize);
      } else {
        ghost var e;
        calls', e := ScintillatedLines(scintillateFunk, calls);
        scales := e.scales;
      }
      assert PartialBatch(tone, oscs0, scales, numLines, epochSize, buffer0, epochSampleBuffer[..], false);
      if numLines == 0 {
        assert epochSampleBuffer[..] == buffer0;
      }
      buffer := epochSampleBuffer;
    }

    /** `getSamples` without scintillation: each line at its constant nominal magnitude. */
    method SteadyLines()
      requires Valid()
      modifies epochSampleBuffer, spectralLineGenerators
      ensures AdvancedUpTo(spectralLineGenerators[..], old(spectralLineGenerators[..]), numLines, epochSize)
      ensures PartialBatch(tone, old(spectralLineGenerators[..]), ConstScales(normalMagnitudes[..numLines], epochSize),
                           numLines, epochSize, old(epochSampleBuffer[..]), epochSampleBuffer[..], false)
    {
      ghost var oscs0 := spectralLineGenerators[..];
      ghost var mags := normalMagnitudes[..];
      ghost var buffer0 := epochSampleBuffer[..];
      var i := 0;
      while i != numLines
        invariant 0 <= i <= numLines
        invariant Valid() && normalMagnitudes[..] == mags
        invariant AdvancedUpTo(spectralLineGenerators[..], oscs0, i, epochSize)
        invariant PartialBatch(tone, oscs0, ConstScales(mags[..i], epochSize), i, epochSize,
                               buffer0, epochSampleBuffer[..], false)
      {
        ghost var prev := epochSampleBuffer[..];
        ghost var lines := spectralLineGenerators[..];
        var scale := Repeat(normalMagnitudes[i], epochSize);
        var o;
        if i == 0 {
          o := GetSamplesScaled(tone, spectralLineGenerators[i], epochSampleBuffer, epochSize, scale);
        } else {
          o := AccumSamplesScaled(tone, spectralLineGenerators[i], epochSampleBuffer, epochSize, scale);
        }
        spectralLineGenerators[i] := o;
        AdvanceNext(lines, oscs0, i, epochSize);
        PartialStep(tone, oscs0, ConstScales(mags[..i], epochSize), scale, i, epochSize, false,
                    buffer0, prev, epochSampleBuffer[..]);
        assert ConstScales(mags[..i], epochSize) + [scale] == ConstScales(mags[..i + 1], epochSize);
        i := i + 1;
      }
    }

    /** `getSamples` with scintillation: each line scaled by its own scintillation run. */
    method ScintillatedLines(scintillateFunk: MagFunk, calls: seq<MagRequest>)
      returns (calls': seq<MagRequest>, ghost e: Epoch)
      requires Valid() && decorrelationSamples != 0
      modifies epochSampleBuffer, spectralLineGenerators, scintillationStates, scintillationBuffer
      ensures AdvancedUpTo(spectralLineGenerators[..], old(spectralLineGenerators[..]), numLines, epochSize)
      ensures e == Scintillate(old(scintillationStates[..]), old(spectralLineGenerators[..]), normalMagnitudes[..],
                               scintillateFunk, calls, decorrelationSamples, epochSize, numLines)
      ensures scintillationStates[..] == e.states && calls' == e.calls
      ensures PartialBatch(tone, old(spectralLineGenerators[..]), e.scales, numLines, epochSize,
                           old(epochSampleBuffer[..]), epochSampleBuffer[..], false)
    {
      ghost var oscs0 := spectralLineGenerators[..];
      ghost var states0 := scintillationStates[..];
      ghost var buffer0 := epochSampleBuffer[..];
      calls' := calls;
      e := Scintillate(states0, oscs0, normalMagnitudes[..], scintillateFunk, calls, decorrelationSamples, epochSize, 0);
      var i := 0;
      while i != numLines
        invariant i <= numLines
        invariant EpochSoFar(i, scintillateFunk, calls, oscs0, states0, buffer0, e) && calls' == e.calls
      {
        calls', e := ScintillatedStep(i, scintillateFunk, calls', calls, oscs0, states0, buffer0, e);
        i := i + 1;
      }
    }

    /** The state of the line loop of `ScintillatedLines` after its first i lines, started
        from oscillators `oscs0`, scintillation states `states0`, output buffer `buffer0` and
        functor history `calls0`: those lines' oscillators have advanced by an epoch, their
        scintillation has been run (epoch `e`), and the output buffer holds their comb. */
    ghost predicate EpochSoFar(i: nat, scintillateFunk: MagFunk, calls0: seq<MagRequest>, oscs0: seq<Oscillator>,
                               states0: seq<State>, buffer0: seq<Complex>, e: Epoch)
      reads this, scintillationEngine, spectralLineGenerators, normalMagnitudes, scintillationStates, epochSampleBuffer
    {
      && Valid() && decorrelationSamples != 0 && i <= numLines && |states0| == maxSpectralLines
      && AdvancedUpTo(spectralLineGenerators[..], oscs0, i, epochSize)
      && e == Scintillate(states0, oscs0, normalMagnitudes[..], scintillateFunk, calls0, decorrelationSamples, epochSize, i)
      && scintillationStates[..] == e.states
      && PartialBatch(tone, oscs0, e.scales, i, epochSize, buffer0, epochSampleBuffer[..], false)
    }

    /** One pass of the line loop of `ScintillatedLines`: line i extends the epoch and the
        comb by one line. */
    method ScintillatedStep(i: nat, scintillateFunk: MagFunk, calls: seq<MagRequest>, ghost calls0: seq<MagRequest>,
                            ghost oscs0: seq<Oscillator>, ghost states0: seq<State>, ghost buffer0: seq<Complex>,
                            ghost e: Epoch)
      returns (calls': seq<MagRequest>, ghost e': Epoch)
      requires i < numLines
      requires EpochSoFar(i, scintillateFunk, calls0, oscs0, states0, buffer0, e) && calls == e.calls
      modifies epochSampleBuffer, spectralLineGenerators, scintillationStates, scintillationBuffer
      ensures EpochSoFar(i + 1, scintillateFunk, calls0, oscs0, states0, buffer0, e') && calls' == e'.calls
    {
      ghost var mags := normalMagnitudes[..];
      ghost var prev := epochSampleBuffer[..];
      ghost var lines := spectralLineGenerators[..];
      calls' := ScintillatedLine(i, scintillateFunk, calls);
      AdvanceNext(lines, oscs0, i, epochSize);
      ScintillateNext(states0, oscs0, mags, scintillateFunk, calls0, decorrelationSamples, epochSize, i,
                      e.states, e.calls, scintillationBuffer[..], scintillationStates[i], calls');
      PartialStep(tone, oscs0, e.scales, scintillationBuffer[..], i, epochSize, false,
                  buffer0, prev, epochSampleBuffer[..]);
      e' := Scintillate(states0, oscs0, mags, scintillateFunk, calls0, decorrelationSamples, epochSize, i + 1);
    }

    /** One line of `getSamples` with scintillation: the line's scintillation run from its
        oscillator's sample count, then its tone scaled by that envelope, written (line 0) or
        added (later lines) into the output buffer, and its oscillator advanced. */
    method ScintillatedLine(i: nat, scintillateFunk: MagFunk, calls: seq<MagRequest>)
      returns (calls': seq<MagRequest>)
      requires Valid() && decorrelationSamples != 0 && i < numLines
      modifies epochSampleBuffer, spectralLineGenerators, scintillationStates, scintillationBuffer
      ensures var req := MagRequest(normalMagnitudes[i], i);
              var r := RunFrom(old(scintillationStates[i]), old(spectralLineGenerators[i]).sampleCount,
                               decorrelationSamples, epochSize, FunkStream(scintillateFunk, calls, req), 0);
              scintillationBuffer[..] == r.output
              && scintillationStates[..] == old(scintillationStates[..])[i := r.state]
              && calls' == calls + Repeat(req, |r.draws|)
      ensures spectralLineGenerators[..]
              == old(spectralLineGenerators[..])[i := Advanced(old(spectralLineGenerators[i]), epochSize)]
      ensures forall j :: 0 <= j < epochSize ==>
                var term := Scale(scintillationBuffer[j], Sample(tone, old(spectralLineGenerators[i]), j));
                epochSampleBuffer[j] == if i == 0 then term else Add(old(epochSampleBuffer[j]), term)
    {
      var currentSampleCount := spectralLineGenerators[i].sampleCount;
      calls' := ScintillationManagement(i, currentSampleCount, scintillateFunk, calls);
      var o;
      if i == 0 {
        o := GetSamplesScaled(tone, spectralLineGenerators[i], epochSampleBuffer, epochSize, scintillationBuffer[..]);
      } else {
        o := AccumSamplesScaled(tone, spectralLineGenerators[i], epochSampleBuffer, epochSize, scintillationBuffer[..]);
      }
      spectralLineGenerators[i] := o;
    }

    /** Runs line `lineNum`'s scintillation for one epoch into the scintillation buffer,
        starting at `startingSampleCount`; the engine's targets come from the functor asked
        with the line's nominal magnitude and index. Only that line's state changes. */
    method ScintillationManagement(lineNum: nat, startingSampleCount: nat, scintillateFunk: MagFunk,
                                   calls: seq<MagRequest>)
      returns (calls': seq<MagRequest>)
      requires Valid()
      requires lineNum < numLines && decorrelationSamples > 0
      modifies scintillationStates, scintillationBuffer
      ensures var req := MagRequest(normalMagnitudes[lineNum], lineNum);
              var r := RunFrom(old(scintillationStates[lineNum]), startingSampleCount, decorrelationSamples,
                               epochSize, FunkStream(scintillateFunk, calls, req), 0);
              scintillationBuffer[..] == r.output
              && scintillationStates[..] == old(scintillationStates[..])[lineNum := r.state]
              && calls' == calls + Repeat(req, |r.draws|)
    {
      var req := MagRequest(normalMagnitudes[lineNum], lineNum);
      var state', draws := scintillationEngine.Run(FunkStream(scintillateFunk, calls, req),
                                                   scintillationStates[lineNum], startingSampleCount,
                                                   decorrelationSamples, 0);
      scintillationStates[lineNum] := state';
      calls' := calls + Repeat(req, draws);
    }
  }
}
