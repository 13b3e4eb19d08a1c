/**
 * The tone oscillators the comb is built from (FlyingPhasorToneGenerator, an external
 * component whose source is not part of this model), and the comb they make together.
 *
 * A sample is a complex number of reals. An oscillator is reset to a step (radians per
 * sample) and an initial phase, counts the samples it has produced, and produces sample k of
 * its tone as `tone(step, phase, k)`: `tone` stands for the ideal unit phasor and is left
 * uninterpreted. Scaled output multiplies each sample by a per-sample magnitude.
 */
module FlyingPhasor {

  datatype Complex = Complex(re: real, im: real)

  const Zero := Complex(0.0, 0.0)

  function Add(a: Complex, b: Complex): Complex
  {
    Complex(a.re + b.re, a.im + b.im)
  }

  function Scale(magnitude: real, c: Complex): Complex
  {
    Complex(magnitude * c.re, magnitude * c.im)
  }

  /** Sample k of a unit tone of the given step and initial phase. */
  type Tone = (real, real, nat) -> Complex

  datatype Oscillator = Oscillator(radiansPerSample: real, phase: real, sampleCount: nat)

  /** A reset oscillator: new step and phase, sample count back to 0. */
  function Reset(radiansPerSample: real, phase: real): (o: Oscillator)
    ensures o.sampleCount == 0
  {
    Oscillator(radiansPerSample, phase, 0)
  }

  /** Sample j of the oscillator's next batch. */
  function Sample(tone: Tone, o: Oscillator, j: nat): Complex
  {
    tone(o.radiansPerSample, o.phase, o.sampleCount + j)
  }

  /** The oscillator after producing `count` more samples. */
  function Advanced(o: Oscillator, count: nat): (o': Oscillator)
    ensures o'.radiansPerSample == o.radiansPerSample && o'.phase == o.phase
    ensures o'.sampleCount == o.sampleCount + count
  {
    o.(sampleCount := o.sampleCount + count)
  }

  /** `getSamplesScaled`: overwrites the first `numSamples` entries with the scaled tone. */
  method GetSamplesScaled(tone: Tone, o: Oscillator, buffer: array<Complex>, numSamples: nat,
                          magnitudes: seq<real>)
    returns (o': Oscillator)
    requires numSamples <= buffer.Length && numSamples <= |magnitudes|
    modifies buffer
    ensures o' == Advanced(o, numSamples)
    ensures forall j :: 0 <= j < numSamples ==> buffer[j] == Scale(magnitudes[j], Sample(tone, o, j))
    ensures buffer[numSamples..] == old(buffer[numSamples..])
  {
    forall j | 0 <= j < numSamples {
      buffer[j] := Scale(magnitudes[j], Sample(tone, o, j));
    }
    o' := Advanced(o, numSamples);
  }

  /** `accumSamplesScaled`: adds the scaled tone onto the first `numSamples` entries. */
  method AccumSamplesScaled(tone: Tone, o: Oscillator, buffer: array<Complex>, numSamples: nat,
                            magnitudes: seq<real>)
    returns (o': Oscillator)
    requires numSamples <= buffer.Length && numSamples <= |magnitudes|
    modifies buffer
    ensures o' == Advanced(o, numSamples)
    ensures forall j :: 0 <= j < numSamples ==>
              buffer[j] == Add(old(buffer[j]), Scale(magnitudes[j], Sample(tone, o, j)))
    ensures buffer[numSamples..] == old(buffer[numSamples..])
  {
    forall j | 0 <= j < numSamples {
      buffer[j] := Add(buffer[j], Scale(magnitudes[j], Sample(tone, o, j)));
    }
    o' := Advanced(o, numSamples);
  }

  /** Every one of the first n lines has a magnitude for sample j. */
  predicate Covers(scales: seq<seq<real>>, n: nat, j: nat)
  {
    n <= |scales| && forall i :: 0 <= i < n ==> j < |scales[i]|
  }

  /** Sample j of the comb of the first n lines: line i's tone scaled by `scales[i][j]`,
      added up in line order. */
  function Comb(tone: Tone, oscs: seq<Oscillator>, scales: seq<seq<real>>, n: nat, j: nat): Complex
    requires n <= |oscs| && Covers(scales, n, j)
  {
    if n == 0 then Zero
    else Add(Comb(tone, oscs, scales, n - 1, j), Scale(scales[n - 1][j], Sample(tone, oscs[n - 1], j)))
  }

  /** Sample j of the plain sum of the first n lines' unit tones. */
  function ToneSum(tone: Tone, oscs: seq<Oscillator>, n: nat, j: nat): Complex
    requires n <= |oscs|
  {
    if n == 0 then Zero else Add(ToneSum(tone, oscs, n - 1, j), Sample(tone, oscs[n - 1], j))
  }

  /** Lines of magnitude 1 contribute their unit tones unchanged. */
  lemma {:induction false} UnitComb(tone: Tone, oscs: seq<Oscillator>, scales: seq<seq<real>>, n: nat, j: nat)
    requires n <= |oscs| && Covers(scales, n, j)
    requires forall i :: 0 <= i < n ==> scales[i][j] == 1.0
    ensures Comb(tone, oscs, scales, n, j) == ToneSum(tone, oscs, n, j)
  {
    if n > 0 {
      UnitComb(tone, oscs, scales, n - 1, j);
      var c := Sample(tone, oscs[n - 1], j);
      assert Scale(1.0, c) == c;
    }
  }

  /** Only the lines and magnitudes counted matter: two line tables that agree on the first n
      lines and on their magnitudes for sample j give the same comb sample. */
  lemma {:induction false} CombDependsOnLines(tone: Tone, oscs: seq<Oscillator>, scales: seq<seq<real>>,
                                              oscs': seq<Oscillator>, scales': seq<seq<real>>, n: nat, j: nat)
    requires n <= |oscs| && Covers(scales, n, j)
    requires n <= |oscs'| && Covers(scales', n, j)
    requires forall i :: 0 <= i < n ==> oscs[i] == oscs'[i] && scales[i][j] == scales'[i][j]
    ensures Comb(tone, oscs, scales, n, j) == Comb(tone, oscs', scales', n, j)
  {
    if n > 0 {
      CombDependsOnLines(tone, oscs, scales, oscs', scales', n - 1, j);
    }
  }

  /** Adding a line at the end of the table adds its scaled tone to every comb sample. */
  lemma CombExtend(tone: Tone, oscs: seq<Oscillator>, scales: seq<seq<real>>, s: seq<real>, n: nat, j: nat)
    requires n < |oscs| && |scales| == n && Covers(scales, n, j) && j < |s|
    ensures Covers(scales + [s], n + 1, j)
    ensures Comb(tone, oscs, scales + [s], n + 1, j)
            == Add(Comb(tone, oscs, scales, n, j), Scale(s[j], Sample(tone, oscs[n], j)))
  {
    CombDependsOnLines(tone, oscs, scales, oscs, scales + [s], n, j);
  }

  /** A batch buffer after the first n lines of a generator's line loop: with `accumulate`,
      the comb added onto what the buffer held at the start; otherwise the comb, line 0
      having been written over the buffer (untouched while no line has run). */
  function Partial(tone: Tone, oscs: seq<Oscillator>, scales: seq<seq<real>>, n: nat, j: nat,
                   start: Complex, accumulate: bool): Complex
    requires n <= |oscs| && Covers(scales, n, j)
  {
    if accumulate then Add(start, Comb(tone, oscs, scales, n, j))
    else if n == 0 then start
    else Comb(tone, oscs, scales, n, j)
  }

  /** The first n oscillators have produced `count` samples more than in `before`; the
      others are as they were. */
  ghost predicate AdvancedUpTo(now: seq<Oscillator>, before: seq<Oscillator>, n: nat, count: nat)
  {
    && |now| == |before| && n <= |now|
    && (forall h :: 0 <= h < n ==> now[h] == Advanced(before[h], count))
    && (forall h :: n <= h < |now| ==> now[h] == before[h])
  }

  /** Advancing the next oscillator extends the advanced prefix by one. */
  lemma AdvanceNext(now: seq<Oscillator>, before: seq<Oscillator>, n: nat, count: nat)
    requires AdvancedUpTo(now, before, n, count) && n < |now|
    ensures AdvancedUpTo(now[n := Advanced(now[n], count)], before, n + 1, count)
  {
  }

  /** The first `count` entries of `buffer` hold the partial comb of the first n lines over
      what `start` held, every line having a magnitude for each of them. */
  ghost predicate PartialBatch(tone: Tone, oscs: seq<Oscillator>, scales: seq<seq<real>>, n: nat, count: nat,
                               start: seq<Complex>, buffer: seq<Complex>, accumulate: bool)
  {
    && n <= |oscs| && |scales| == n && count <= |start| && count <= |buffer|
    && (forall i :: 0 <= i < n ==> |scales[i]| == count)
    && forall j :: 0 <= j < count ==> buffer[j] == Partial(tone, oscs, scales, n, j, start[j], accumulate)
  }

  /** One more pass of the line loop, writing line n's scaled tone over the buffer when it is
      line 0 and nothing is accumulated, adding it otherwise, extends the partial comb by
      that line. */
  lemma {:induction false} PartialStep(tone: Tone, oscs: seq<Oscillator>, scales: seq<seq<real>>, s: seq<real>,
                                       n: nat, count: nat, accumulate: bool,
                                       start: seq<Complex>, prev: seq<Complex>, cur: seq<Complex>)
    requires n < |oscs| && |s| == count && count <= |cur|
    requires PartialBatch(tone, oscs, scales, n, count, start, prev, accumulate)
    requires forall j :: 0 <= j < count ==>
               var term := Scale(s[j], Sample(tone, oscs[n], j));
               cur[j] == if n == 0 && !accumulate then term else Add(prev[j], term)
    ensures PartialBatch(tone, oscs, scales + [s], n + 1, count, start, cur, accumulate)
  {
    forall j | 0 <= j < count
      ensures cur[j] == Partial(tone, oscs, scales + [s], n + 1, j, start[j], accumulate)
    {
      CombExtend(tone, oscs, scales, s, n, j);
    }
  }
}
