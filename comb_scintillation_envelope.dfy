/**
 * The comb scintillation envelope functor (testUtilities/CombScintillationEnvelopeFunctor.cpp):
 * an envelope source for the comb generator that scintillates each harmonic independently.
 * It keeps one scintillation state per harmonic, one scratch envelope buffer shared by all
 * harmonics, the decorrelation period and a Rayleigh distributor.
 */
module CombScintillationEnvelope {
  import opened Common
  import opened Scintillation
  import opened Rayleigh

  /** The mean asked of the distributor for harmonic i at reset: the nominal magnitude when a
      vector is given, 1.0 when it is null. */
  function ResetMean(pNominalMagnitudes: Option<seq<real>>, i: nat): real
    requires pNominalMagnitudes.Some? ==> i < |pNominalMagnitudes.value|
  {
    if pNominalMagnitudes.Some? then pNominalMagnitudes.value[i] else 1.0
  }

  /** The means `reset` asks of the distributor, in harmonic order. */
  function ResetMeans(pNominalMagnitudes: Option<seq<real>>, numHarmonics: nat): (r: seq<real>)
    requires pNominalMagnitudes.Some? ==> numHarmonics <= |pNominalMagnitudes.value|
    ensures |r| == numHarmonics
    ensures forall i :: 0 <= i < numHarmonics ==>
              r[i] == (if pNominalMagnitudes.Some? then pNominalMagnitudes.value[i] else 1.0)
  {
    if numHarmonics == 0 then []
    else ResetMeans(pNominalMagnitudes, numHarmonics - 1) + [ResetMean(pNominalMagnitudes, numHarmonics - 1)]
  }

  /** Harmonic i's state after reset: the distributor's answer to the i-th request (made
      after the i requests before it) as magnitude, and slope 0. */
  function Seeded(law: Law, seed: uint32, pNominalMagnitudes: Option<seq<real>>, i: nat): State
    requires pNominalMagnitudes.Some? ==> i < |pNominalMagnitudes.value|
  {
    State(Value(law, Distributor(seed, ResetMeans(pNominalMagnitudes, i)), ResetMean(pNominalMagnitudes, i)), 0.0)
  }

  class CombScintillationEnvelopeFunctor {
    const maxHarmonics: nat
    const maxEpochSize: nat
    const envelopeBuffer: array<real>
    const scintillationStates: array<State>
    var decorrelationSamples: nat
    var rayleighDistributor: Distributor
    /** The distribution law of the distributor's engine. */
    const law: Law

    ghost predicate Valid()
      reads this
    {
      envelopeBuffer.Length == maxEpochSize && scintillationStates.Length == maxHarmonics
    }

    /** Allocates the envelope buffer zeroed and one (0, 0) state per harmonic. The
        distributor starts on a seed of the platform's choosing, given here as `initialSeed`. */
    constructor(theMaxHarmonics: nat, theEpochSize: nat, theLaw: Law, initialSeed: uint32)
      ensures Valid()
      ensures maxHarmonics == theMaxHarmonics && maxEpochSize == theEpochSize && law == theLaw
      ensures fresh(envelopeBuffer) && fresh(scintillationStates)
      ensures forall j :: 0 <= j < maxEpochSize ==> envelopeBuffer[j] == 0.0
      ensures forall i :: 0 <= i < maxHarmonics ==> scintillationStates[i] == State(0.0, 0.0)
      ensures decorrelationSamples == 0 && rayleighDistributor == Reseeded(initialSeed)
    {
      maxHarmonics := theMaxHarmonics;
      maxEpochSize := theEpochSize;
      envelopeBuffer := new real[theEpochSize](_ => 0.0);
      scintillationStates := new State[theMaxHarmonics](_ => State(0.0, 0.0));
      decorrelationSamples := 0;
      rayleighDistributor := Reseeded(initialSeed);
      law := theLaw;
    }

    /** Stores the period, reseeds the distributor, then draws one initial magnitude per
        harmonic in index order (mean: the nominal magnitude, or 1.0 with no vector) with slope
        0; states past `numHarmonics` are left alone and the whole buffer is zeroed. The
        harmonic count and vector length are the caller's responsibility, unchecked. */
    method Reset(numHarmonics: nat, theDecorrelationSamples: nat,
                 pNominalMagnitudes: Option<seq<real>>, seed: uint32)
      requires Valid()
      requires numHarmonics <= maxHarmonics
      requires pNominalMagnitudes.Some? ==> numHarmonics <= |pNominalMagnitudes.value|
      modifies this, scintillationStates, envelopeBuffer
      ensures Valid()
      ensures decorrelationSamples == theDecorrelationSamples
      ensures rayleighDistributor == Distributor(seed, ResetMeans(pNominalMagnitudes, numHarmonics))
      ensures forall i :: 0 <= i < numHarmonics ==>
                scintillationStates[i]
                == Seeded(law, seed, pNominalMagnitudes, i)
      ensures forall i :: numHarmonics <= i < maxHarmonics ==>
                scintillationStates[i] == old(scintillationStates[i])
      ensures forall j :: 0 <= j < maxEpochSize ==> envelopeBuffer[j] == 0.0
    {
      decorrelationSamples := theDecorrelationSamples;
      rayleighDistributor := Reseeded(seed);
      var i := 0;
      while i != numHarmonics
        invariant 0 <= i <= numHarmonics
        invariant Valid() && decorrelationSamples == theDecorrelationSamples
        invariant rayleighDistributor == Distributor(seed, ResetMeans(pNominalMagnitudes, i))
        invariant forall h :: 0 <= h < i ==>
                    scintillationStates[h]
                    == Seeded(law, seed, pNominalMagnitudes, h)
        invariant forall h :: i <= h < maxHarmonics ==>
                    scintillationStates[h] == old(scintillationStates[h])
      {
        var mean := ResetMean(pNominalMagnitudes, i);
        var first := Value(law, rayleighDistributor, mean);
        rayleighDistributor := rayleighDistributor.(requests := rayleighDistributor.requests + [mean]);
        scintillationStates[i] := State(first, 0.0);
        assert scintillationStates[i] == Seeded(law, seed, pNominalMagnitudes, i);
        assert ResetMeans(pNominalMagnitudes, i + 1) == ResetMeans(pNominalMagnitudes, i) + [mean];
        i := i + 1;
      }
      forall j | 0 <= j < envelopeBuffer.Length {
        envelopeBuffer[j] := 0.0;
      }
    }

    /** Runs the engine for harmonic `nHarmonic` alone, from `currentSampleCount`, into the
        scratch buffer, drawing targets of mean `nominalMag` (the argument, not the vector
        given at reset). Only that harmonic's state changes; the distributor records one
        request of `nominalMag` per draw; the buffer's first `numSamples` entries are the run's
        output and the buffer is what is returned. The index and length bounds, unchecked in
        the source, and a non-zero period are required. */
    method Apply(currentSampleCount: nat, numSamples: nat, nHarmonic: nat, nominalMag: real)
      returns (envelope: array<real>)
      requires Valid()
      requires nHarmonic < maxHarmonics && numSamples <= maxEpochSize
      requires decorrelationSamples > 0
      modifies this`rayleighDistributor, scintillationStates, envelopeBuffer
      ensures Valid()
      ensures envelope == envelopeBuffer
      ensures var r := RunFrom(old(scintillationStates[nHarmonic]), currentSampleCount, decorrelationSamples,
                               numSamples, Stream(law, old(rayleighDistributor), nominalMag), 0);
              envelopeBuffer[..numSamples] == r.output
              && scintillationStates[nHarmonic] == r.state
              && rayleighDistributor.seed == old(rayleighDistributor.seed)
              && rayleighDistributor.requests == old(rayleighDistributor.requests) + Repeat(nominalMag, |r.draws|)
      ensures envelopeBuffer[numSamples..] == old(envelopeBuffer[numSamples..])
      ensures forall h :: 0 <= h < maxHarmonics && h != nHarmonic ==>
                scintillationStates[h] == old(scintillationStates[h])
    {
      var source := Stream(law, rayleighDistributor, nominalMag);
      var state', draws := Run(envelopeBuffer, numSamples, source, scintillationStates[nHarmonic],
                               currentSampleCount, decorrelationSamples, 0);
      scintillationStates[nHarmonic] := state';
      rayleighDistributor := rayleighDistributor.(requests := rayleighDistributor.requests + Repeat(nominalMag, draws));
      envelope := envelopeBuffer;
    }
  }
}
