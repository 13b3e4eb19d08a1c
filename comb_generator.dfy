/**
 * The comb generator as its public header (src/CombGenerator.h) and its tests use it:
 * constructed for a maximum number of harmonics; `reset` with a harmonic count, the
 * fundamental's radians per sample, and optional magnitude vector, phase vector and envelope
 * functor; `getSamples` and `accumSamples` into a caller's buffer; a pure `reset()`; and
 * `getNumHarmonics()`. The implementation behind this interface is not part of this model, so
 * the bodies below follow the loop of src/CombGenerator.cpp (harmonic i at step
 * f + f * i, line 0 written and later lines added), with a harmonic's constant magnitude or
 * its envelope as scale. Accumulation, the pure reset, the harmonic count query and zero
 * filling with no harmonics are taken from the tests.
 *
 * The envelope functor may keep state of its own (the scintillation envelope does); it is
 * modelled as `EnvelopeFunk`, which answers a call given the calls made of it before.
 */
module CombGenerator {
  import opened Common
  import opened FlyingPhasor
  import opened CombGeneratorImple

  /** The arguments of one envelope invocation: the harmonic's running sample count, the
      number of samples wanted, the harmonic's index and its nominal magnitude. */
  datatype EnvelopeCall = EnvelopeCall(currentSample: nat, numSamples: nat, nHarmonic: nat, nominalMag: real)

  /** The envelope functor's answer to a call, given the calls made of it before. */
  type EnvelopeFunk = (seq<EnvelopeCall>, EnvelopeCall) -> seq<real>

  /** The envelope returns at least the samples asked for (fewer is undefined behaviour). */
  ghost predicate Delivers(envelopeFunk: EnvelopeFunk)
  {
    forall calls: seq<EnvelopeCall>, call: EnvelopeCall :: |envelopeFunk(calls, call)| >= call.numSamples
  }

  /** The envelope's answer to `call` after the calls `before`, cut to the samples asked for. */
  function Answer(envelopeFunk: EnvelopeFunk, before: seq<EnvelopeCall>, call: EnvelopeCall): (scale: seq<real>)
    requires Delivers(envelopeFunk)
    ensures |scale| == call.numSamples
  {
    envelopeFunk(before, call)[..call.numSamples]
  }

  /** The harmonics' scales for one batch and the envelope calls made for it. */
  datatype Envelopes = Envelopes(scales: seq<seq<real>>, calls: seq<EnvelopeCall>)

  /** The scales of the first n harmonics for a batch of `numSamples`, in harmonic order: the
      constant magnitude with no envelope; otherwise the envelope, invoked once per harmonic. */
  function Scales(oscs: seq<Oscillator>, mags: seq<real>, envelopeFunk: Option<EnvelopeFunk>,
                  calls: seq<EnvelopeCall>, numSamples: nat, n: nat): (e: Envelopes)
    requires n <= |oscs| && n <= |mags|
    requires envelopeFunk.Some? ==> Delivers(envelopeFunk.value)
    ensures |e.scales| == n
    ensures forall i :: 0 <= i < n ==> |e.scales[i]| == numSamples
    decreases n
  {
    if n == 0 then Envelopes([], calls)
    else
      var e := Scales(oscs, mags, envelopeFunk, calls, numSamples, n - 1);
      if envelopeFunk.None? then
        Envelopes(e.scales + [Repeat(mags[n - 1], numSamples)], e.calls)
      else
        var call := EnvelopeCall(oscs[n - 1].sampleCount, numSamples, n - 1, mags[n - 1]);
        Envelopes(e.scales + [Answer(envelopeFunk.value, e.calls, call)], e.calls + [call])
  }

  /** With no envelope, each harmonic is scaled by its nominal magnitude and nothing is
      invoked. */
  lemma {:induction false} ScalesWithoutEnvelope(oscs: seq<Oscillator>, mags: seq<real>, calls: seq<EnvelopeCall>,
                                                 numSamples: nat, n: nat)
    requires n <= |oscs| && n <= |mags|
    ensures Scales(oscs, mags, None, calls, numSamples, n).calls == calls
    ensures forall i :: 0 <= i < n ==> Scales(oscs, mags, None, calls, numSamples, n).scales[i] == Repeat(mags[i], numSamples)
    decreases n
  {
    if n > 0 {
      ScalesWithoutEnvelope(oscs, mags, calls, numSamples, n - 1);
      var p := Scales(oscs, mags, None, calls, numSamples, n - 1);
      var e := Scales(oscs, mags, None, calls, numSamples, n);
      assert e.scales == p.scales + [Repeat(mags[n - 1], numSamples)];
    }
  }

  /** The envelope is invoked exactly once per harmonic, in harmonic order, with the
      harmonic's sample count, the batch size, its index and its nominal magnitude, after the
      calls before it; its answer, cut to the batch, scales that harmonic. */
  lemma {:induction false} ScalesWithEnvelope(oscs: seq<Oscillator>, mags: seq<real>, envelopeFunk: EnvelopeFunk,
                                              calls: seq<EnvelopeCall>, numSamples: nat, n: nat)
    requires n <= |oscs| && n <= |mags|
    requires Delivers(envelopeFunk)
    ensures var e := Scales(oscs, mags, Some(envelopeFunk), calls, numSamples, n);
            |e.calls| == |calls| + n && e.calls[..|calls|] == calls
    ensures var e := Scales(oscs, mags, Some(envelopeFunk), calls, numSamples, n);
            forall i :: 0 <= i < n ==>
              e.calls[|calls| + i] == EnvelopeCall(oscs[i].sampleCount, numSamples, i, mags[i])
    ensures var e := Scales(oscs, mags, Some(envelopeFunk), calls, numSamples, n);
            forall i :: 0 <= i < n ==>
              e.scales[i] == Answer(envelopeFunk, e.calls[..|calls| + i], e.calls[|calls| + i])
    decreases n
  {
    if n > 0 {
      ScalesWithEnvelope(oscs, mags, envelopeFunk, calls, numSamples, n - 1);
      var p := Scales(oscs, mags, Some(envelopeFunk), calls, numSamples, n - 1);
      var e := Scales(oscs, mags, Some(envelopeFunk), calls, numSamples, n);
      var call := EnvelopeCall(oscs[n - 1].sampleCount, numSamples, n - 1, mags[n - 1]);
      assert e.calls == p.calls + [call];
      assert e.scales == p.scales + [Answer(envelopeFunk, p.calls, call)];
      forall i | 0 <= i < n
        ensures e.calls[|calls| + i] == EnvelopeCall(oscs[i].sampleCount, numSamples, i, mags[i])
      {
        if i < n - 1 {
          assert e.calls[|calls| + i] == p.calls[|calls| + i];
        }
      }
      forall i | 0 <= i < n
        ensures e.scales[i] == Answer(envelopeFunk, e.calls[..|calls| + i], e.calls[|calls| + i])
      {
        if i < n - 1 {
          assert e.scales[i] == p.scales[i];
          assert e.calls[|calls| + i] == p.calls[|calls| + i];
          assert e.calls[..|calls| + i] == p.calls[..|calls| + i];
        } else {
          assert e.calls[..|calls| + i] == p.calls;
        }
      }
    }
  }

  /** With no envelope and every magnitude 1.0 (the null-vector default), a batch sample is
      the plain sum of the harmonics' unit tones. */
  lemma DefaultMagnitudesComb(tone: Tone, oscs: seq<Oscillator>, mags: seq<real>, numSamples: nat, n: nat, j: nat)
    requires n <= |oscs| && n <= |mags| && j < numSamples
    requires forall i :: 0 <= i < n ==> mags[i] == 1.0
    ensures var e := Scales(oscs, mags, None, [], numSamples, n);
            Comb(tone, oscs, e.scales, n, j) == ToneSum(tone, oscs, n, j)
  {
    ScalesWithoutEnvelope(oscs, mags, [], numSamples, n);
    var e := Scales(oscs, mags, None, [], numSamples, n);
    UnitComb(tone, oscs, e.scales, n, j);
  }

  class CombGenerator {
    const maxHarmonics: nat
    const spectralLineGenerators: array<Oscillator>
    const magnitudes: array<real>
    var numHarmonics: nat
    var envelopeFunk: Option<EnvelopeFunk>
    /** The calls made of the current envelope functor since it was installed. */
    var envelopeCalls: seq<EnvelopeCall>
    /** The unit tone every oscillator produces. */
    const tone: Tone

    ghost predicate Valid()
      reads this
    {
      && spectralLineGenerators.Length == maxHarmonics
      && magnitudes.Length == maxHarmonics
      && numHarmonics <= maxHarmonics
      && (envelopeFunk.Some? ==> Delivers(envelopeFunk.value))
    }

    /** Capacity for `theMaxHarmonics` harmonics, none in use; with 0 this is the default
        constructed generator, which cannot be reset to any harmonic. */
    constructor(theMaxHarmonics: nat, theTone: Tone)
      ensures Valid()
      ensures maxHarmonics == theMaxHarmonics && tone == theTone
      ensures numHarmonics == 0 && envelopeFunk == None && envelopeCalls == []
      ensures fresh(spectralLineGenerators) && fresh(magnitudes)
    {
      maxHarmonics := theMaxHarmonics;
      spectralLineGenerators := new Oscillator[theMaxHarmonics](_ => Oscillator(0.0, 0.0, 0));
      magnitudes := new real[theMaxHarmonics](_ => 0.0);
      numHarmonics := 0;
      envelopeFunk := None;
      envelopeCalls := [];
      tone := theTone;
    }

    /** Throws `length_error` when more harmonics are asked for than allocated, changing
        nothing. Otherwise harmonic i gets the given magnitude (1.0 with no vector), step
        f + f * i and the given phase (0.0 with no vector), from sample 0; the envelope is
        installed. A vector given must cover the harmonics asked for. */
    method Reset(theNumHarmonics: nat, fundamentalRadiansPerSample: real, magVector: Option<seq<real>>,
                 phaseVector: Option<seq<real>>, theEnvelopeFunk: Option<EnvelopeFunk>)
      returns (outcome: Outcome)
      requires Valid()
      requires theNumHarmonics <= maxHarmonics && magVector.Some? ==> theNumHarmonics <= |magVector.value|
      requires theNumHarmonics <= maxHarmonics && phaseVector.Some? ==> theNumHarmonics <= |phaseVector.value|
      requires theEnvelopeFunk.Some? ==> Delivers(theEnvelopeFunk.value)
      modifies this, spectralLineGenerators, magnitudes
      ensures Valid()
      ensures outcome == LengthError <==> maxHarmonics < theNumHarmonics
      ensures outcome == LengthError ==>
                numHarmonics == old(numHarmonics) && envelopeFunk == old(envelopeFunk)
                && envelopeCalls == old(envelopeCalls)
                && spectralLineGenerators[..] == old(spectralLineGenerators[..])
                && magnitudes[..] == old(magnitudes[..])
      ensures outcome == Success ==>
                numHarmonics == theNumHarmonics && envelopeFunk == theEnvelopeFunk && envelopeCalls == []
                && (forall i :: 0 <= i < numHarmonics ==>
                      magnitudes[i] == (if magVector.Some? then magVector.value[i] else 1.0)
                      && spectralLineGenerators[i]
                         == FlyingPhasor.Reset(Harmonic(fundamentalRadiansPerSample, i),
                                               if phaseVector.Some? then phaseVector.value[i] else 0.0))
                && (forall i :: numHarmonics <= i < maxHarmonics ==>
                      magnitudes[i] == old(magnitudes[i])
                      && spectralLineGenerators[i] == old(spectralLineGenerators[i]))
    {
      if maxHarmonics < theNumHarmonics {
        return LengthError;
      }
      numHarmonics := theNumHarmonics;
      envelopeFunk := theEnvelopeFunk;
      envelopeCalls := [];
      var i := 0;
      while i != numHarmonics
        invariant 0 <= i <= numHarmonics
        invariant Valid() && numHarmonics == theNumHarmonics
        invariant envelopeFunk == theEnvelopeFunk && envelopeCalls == []
        invariant forall h :: 0 <= h < i ==> magnitudes[h] == (if magVector.Some? then magVector.value[h] else 1.0)
        invariant forall h :: 0 <= h < i ==>
                    spectralLineGenerators[h]
                    == FlyingPhasor.Reset(Harmonic(fundamentalRadiansPerSample, h),
                                          if phaseVector.Some? then phaseVector.value[h] else 0.0)
        invariant forall h :: i <= h < maxHarmonics ==> magnitudes[h] == old(magnitudes[h])
        invariant forall h :: i <= h < maxHarmonics ==> spectralLineGenerators[h] == old(spectralLineGenerators[h])
      {
        magnitudes[i] := if magVector.Some? then magVector.value[i] else 1.0;
        var phase := if phaseVector.Some? then phaseVector.value[i] else 0.0;
        var radiansPerSample := Harmonic(fundamentalRadiansPerSample, i);
        spectralLineGenerators[i] := FlyingPhasor.Reset(radiansPerSample, phase);
        i := i + 1;
      }
      return Success;
    }

    /** The pure reset: no harmonics, no envelope and no envelope calls, so the output is that
        of a freshly constructed generator. Magnitudes and oscillators are left as they were;
        nothing reads them while no harmonic is in use. */
    method PureReset()
      requires Valid()
      modifies this
      ensures Valid()
      ensures numHarmonics == 0 && envelopeFunk == None && envelopeCalls == []
    {
      numHarmonics := 0;
      envelopeFunk := None;
      envelopeCalls := [];
    }

    /** The harmonic count set by the last successful reset, never above the capacity. */
    function GetNumHarmonics(): (n: nat)
      requires Valid()
      reads this
      ensures n <= maxHarmonics
    {
      numHarmonics
    }

    /** Delivers `numSamples` samples into `buffer`: each the comb of the harmonics in use,
        harmonic i scaled by its constant magnitude or by its envelope; with no harmonics,
        zeros. Each harmonic's oscillator advances by the batch; the rest of the buffer is
        untouched. */
    method GetSamples(buffer: array<Complex>, numSamples: nat)
      requires Valid()
      requires numSamples <= buffer.Length
      modifies buffer, spectralLineGenerators, this`envelopeCalls
      ensures Valid()
      ensures var e := Scales(old(spectralLineGenerators[..]), magnitudes[..], envelopeFunk, old(envelopeCalls),
                              numSamples, numHarmonics);
              envelopeCalls == e.calls
              && forall j :: 0 <= j < numSamples ==>
                   buffer[j] == Comb(tone, old(spectralLineGenerators[..]), e.scales, numHarmonics, j)
      ensures buffer[numSamples..] == old(buffer[numSamples..])
      ensures forall i :: 0 <= i < numHarmonics ==>
                spectralLineGenerators[i] == Advanced(old(spectralLineGenerators[i]), numSamples)
      ensures forall i :: numHarmonics <= i < maxHarmonics ==>
                spectralLineGenerators[i] == old(spectralLineGenerators[i])
    {
      if numHarmonics == 0 {
        forall j | 0 <= j < numSamples {
          buffer[j] := Zero;
        }
      } else {
        Harmonics(buffer, numSamples, false);
      }
    }

    /** Adds `numSamples` comb samples onto what `buffer` holds: what `getSamples` would have
        delivered, plus the buffer's earlier contents. */
    method AccumSamples(buffer: array<Complex>, numSamples: nat)
      requires Valid()
      requires numSamples <= buffer.Length
      modifies buffer, spectralLineGenerators, this`envelopeCalls
      ensures Valid()
      ensures var e := Scales(old(spectralLineGenerators[..]), magnitudes[..], envelopeFunk, old(envelopeCalls),
                              numSamples, numHarmonics);
              envelopeCalls == e.calls
              && forall j :: 0 <= j < numSamples ==>
                   buffer[j] == Add(old(buffer[j]), Comb(tone, old(spectralLineGenerators[..]), e.scales, numHarmonics, j))
      ensures buffer[numSamples..] == old(buffer[numSamples..])
      ensures forall i :: 0 <= i < numHarmonics ==>
                spectralLineGenerators[i] == Advanced(old(spectralLineGenerators[i]), numSamples)
      ensures forall i :: numHarmonics <= i < maxHarmonics ==>
                spectralLineGenerators[i] == old(spectralLineGenerators[i])
    {
      Harmonics(buffer, numSamples, true);
    }

    /** The harmonic loop: harmonic 0 overwrites the buffer unless `accumulate`, every other
        harmonic adds onto it. */
    method Harmonics(buffer: array<Complex>, numSamples: nat, accumulate: bool)
      requires Valid()
      requires numSamples <= buffer.Length
      requires !accumulate ==> numHarmonics > 0
      modifies buffer, spectralLineGenerators, this`envelopeCalls
      ensures Valid()
      ensures var e := Scales(old(spectralLineGenerators[..]), magnitudes[..], envelopeFunk, old(envelopeCalls),
                              numSamples, numHarmonics);
              envelopeCalls == e.calls
              && forall j :: 0 <= j < numSamples ==>
                   buffer[j] == (if accumulate then Add(old(buffer[j]), Comb(tone, old(spectralLineGenerators[..]), e.scales, numHarmonics, j))
                                 else Comb(tone, old(spectralLineGenerators[..]), e.scales, numHarmonics, j))
      ensures buffer[numSamples..] == old(buffer[numSamples..])
      ensures forall i :: 0 <= i < numHarmonics ==>
                spectralLineGenerators[i] == Advanced(old(spectralLineGenerators[i]), numSamples)
      ensures forall i :: numHarmonics <= i < maxHarmonics ==>
                spectralLineGenerators[i] == old(spectralLineGenerators[i])
    {
      ghost var oscs0 := spectralLineGenerators[..];
      ghost var mags := magnitudes[..];
      ghost var calls0 := envelopeCalls;
      ghost var buffer0 := buffer[..];
      var i := 0;
      while i != numHarmonics
        invariant HarmonicsSoFar(i, buffer, numSamples, accumulate, oscs0, mags, calls0, buffer0)
      {
        AddNextHarmonic(i, buffer, numSamples, accumulate, oscs0, mags, calls0, buffer0);
        i := i + 1;
      }
    }

    /** The state of the harmonic loop after its first i harmonics, from oscillators `oscs0`,
        magnitudes `mags`, envelope history `calls0` and buffer contents `buffer0`: those
        harmonics' oscillators have advanced by the batch, the envelope functor has been asked
        for each of them, and the buffer's first `numSamples` entries hold their comb. */
    ghost predicate HarmonicsSoFar(i: nat, buffer: array<Complex>, numSamples: nat, accumulate: bool,
                                   oscs0: seq<Oscillator>, mags: seq<real>, calls0: seq<EnvelopeCall>,
                                   buffer0: seq<Complex>)
      reads this, spectralLineGenerators, magnitudes, buffer
    {
      && Valid() && i <= numHarmonics && magnitudes[..] == mags
      && numSamples <= buffer.Length && |buffer0| == buffer.Length
      && buffer[numSamples..] == buffer0[numSamples..]
      && AdvancedUpTo(spectralLineGenerators[..], oscs0, i, numSamples)
      && envelopeCalls == Scales(oscs0, mags, envelopeFunk, calls0, numSamples, i).calls
      && PartialBatch(tone, oscs0, Scales(oscs0, mags, envelopeFunk, calls0, numSamples, i).scales, i, numSamples,
                      buffer0, buffer[..], accumulate)
    }

    /** One pass of the harmonic loop: harmonic i extends the envelopes and the comb by one
        line. */
    method AddNextHarmonic(i: nat, buffer: array<Complex>, numSamples: nat, accumulate: bool,
                        ghost oscs0: seq<Oscillator>, ghost mags: seq<real>, ghost calls0: seq<EnvelopeCall>,
                        ghost buffer0: seq<Complex>)
      requires i < numHarmonics && HarmonicsSoFar(i, buffer, numSamples, accumulate, oscs0, mags, calls0, buffer0)
      modifies buffer, spectralLineGenerators, this`envelopeCalls
      ensures HarmonicsSoFar(i + 1, buffer, numSamples, accumulate, oscs0, mags, calls0, buffer0)
    {
      ghost var before := Scales(oscs0, mags, envelopeFunk, calls0, numSamples, i);
      ghost var prev := buffer[..];
      ghost var lines := spectralLineGenerators[..];
      var scale := AddHarmonic(i, buffer, numSamples, i == 0 && !accumulate);
      AdvanceNext(lines, oscs0, i, numSamples);
      assert Scales(oscs0, mags, envelopeFunk, calls0, numSamples, i + 1)
             == Envelopes(before.scales + [scale], envelopeCalls);
      PartialStep(tone, oscs0, before.scales, scale, i, numSamples, accumulate, buffer0, prev, buffer[..]);
    }

    /** One harmonic's share of a batch: its scale (see `HarmonicScale`) times its tone,
        written over the buffer's first `numSamples` entries when `overwrite`, added onto them
        otherwise; its oscillator advances by the batch. */
    method AddHarmonic(i: nat, buffer: array<Complex>, numSamples: nat, overwrite: bool)
      returns (scale: seq<real>)
      requires Valid() && i < numHarmonics && numSamples <= buffer.Length
      modifies buffer, spectralLineGenerators, this`envelopeCalls
      ensures Valid()
      ensures |scale| == numSamples
      ensures envelopeFunk.None? ==>
                scale == Repeat(magnitudes[i], numSamples) && envelopeCalls == old(envelopeCalls)
      ensures envelopeFunk.Some? ==>
                var call := EnvelopeCall(old(spectralLineGenerators[i]).sampleCount, numSamples, i, magnitudes[i]);
                scale == Answer(envelopeFunk.value, old(envelopeCalls), call)
                && envelopeCalls == old(envelopeCalls) + [call]
      ensures spectralLineGenerators[..]
              == old(spectralLineGenerators[..])[i := Advanced(old(spectralLineGenerators[i]), numSamples)]
      ensures forall j :: 0 <= j < numSamples ==>
                var term := Scale(scale[j], Sample(tone, old(spectralLineGenerators[i]), j));
                buffer[j] == if overwrite then term else Add(old(buffer[j]), term)
      ensures buffer[numSamples..] == old(buffer[numSamples..])
    {
      scale := HarmonicScale(i, numSamples);
      var o;
      if overwrite {
        o := GetSamplesScaled(tone, spectralLineGenerators[i], buffer, numSamples, scale);
      } else {
        o := AccumSamplesScaled(tone, spectralLineGenerators[i], buffer, numSamples, scale);
      }
      spectralLineGenerators[i] := o;
    }

    /** Harmonic i's scale for a batch: its constant magnitude, or one envelope invocation
        with its sample count, the batch size, its index and its magnitude. */
    method HarmonicScale(i: nat, numSamples: nat) returns (scale: seq<real>)
      requires Valid() && i < numHarmonics
      modifies this`envelopeCalls
      ensures Valid()
      ensures envelopeFunk.None? ==>
                scale == Repeat(magnitudes[i], numSamples) && envelopeCalls == old(envelopeCalls)
      ensures envelopeFunk.Some? ==>
                var call := EnvelopeCall(spectralLineGenerators[i].sampleCount, numSamples, i, magnitudes[i]);
                scale == Answer(envelopeFunk.value, old(envelopeCalls), call)
                && envelopeCalls == old(envelopeCalls) + [call]
    {
      if envelopeFunk.Some? {
        var call := EnvelopeCall(spectralLineGenerators[i].sampleCount, numSamples, i, magnitudes[i]);
        scale := Answer(envelopeFunk.value, envelopeCalls, call);
        envelopeCalls := envelopeCalls + [call];
      } else {
        scale := Repeat(magnitudes[i], numSamples);
      }
    }
  }
}
