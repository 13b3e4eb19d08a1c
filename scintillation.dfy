/**
 * The scintillation ramp: a (magnitude, slope) state machine that, once per sample, adds
 * the slope to the magnitude and writes the result, and on every decorrelation boundary
 * (sample counter divisible by the decorrelation period) draws a new target magnitude and
 * aims the slope at it so that the target is reached one period later.
 *
 * `Run` is the static engine of testUtilities/ScintillationEngine.cpp; the member engines of
 * src/ScintillationEngine.cpp and src/CombGeneratorPrivate.cpp run the same loop and are
 * specified by the same function, `RunFrom`.
 *
 * The random value source (a `double()` functor in the source) is modelled as the sequence
 * `source` of the values it returns on successive calls, read through a cursor `k`: the
 * source's next call returns `source(k)`. A run that makes `m` calls leaves the cursor at
 * `k + m`.
 */
module Scintillation {

  /** The engine's StateType: `first` is the current magnitude, `second` the change per sample. */
  datatype State = State(magnitude: real, slope: real)

  /** The effect of running the engine: the magnitudes written, in order; the state left
      behind; and the sample-counter values at which the random value source was called, in
      call order. */
  datatype Ramp = Ramp(output: seq<real>, state: State, draws: seq<nat>)

  /** A decorrelation boundary: the sample counter is a multiple of the period. */
  predicate IsBoundary(counter: nat, period: nat)
    requires period > 0
  {
    counter % period == 0
  }

  /** The slope that takes `current` to `target` in `period` equal steps. */
  function Aim(target: real, current: real, period: nat): real
    requires period > 0
  {
    (target - current) / (period as real)
  }

  /** `m` after `j` steps of `slope`, step by step (its closed form is `SteppedLinear`). */
  function Stepped(m: real, slope: real, j: nat): real
  {
    if j == 0 then m else Stepped(m, slope, j - 1) + slope
  }

  /** One pass of the engine's loop body at sample counter `counter`, appended to `r`. */
  function Tick(r: Ramp, counter: nat, period: nat, source: nat -> real, k: nat): Ramp
    requires period > 0
  {
    var m := r.state.magnitude + r.state.slope;
    if IsBoundary(counter, period) then
      Ramp(r.output + [m], State(m, Aim(source(k + |r.draws|), m, period)), r.draws + [counter])
    else
      Ramp(r.output + [m], State(m, r.state.slope), r.draws)
  }

  /** The first `n` passes of the engine's loop, starting from `state` at sample counter
      `counter` with the source's cursor at `k`. */
  function RunFrom(state: State, counter: nat, period: nat, n: nat, source: nat -> real, k: nat): (r: Ramp)
    requires period > 0
    ensures |r.output| == n
    ensures n == 0 ==> r.state == state && r.draws == []
    ensures n > 0 ==> r.state.magnitude == r.output[n - 1]
    decreases n
  {
    if n == 0 then Ramp([], state, [])
    else Tick(RunFrom(state, counter, period, n - 1, source, k), counter + n - 1, period, source, k)
  }

  /** ScintillationEngine::run (testUtilities/ScintillationEngine.cpp): writes `runLen` ramp
      magnitudes into `buffer`, returns the updated state (the source's in/out reference
      parameter) and the source's cursor after the calls the run made. */
  method Run(buffer: array<real>, runLen: nat, source: nat -> real, state: State,
             sampleCounter: nat, decorrelationSamples: nat, k: nat)
    returns (state': State, k': nat)
    requires decorrelationSamples > 0
    requires runLen <= buffer.Length
    modifies buffer
    ensures var r := RunFrom(state, sampleCounter, decorrelationSamples, runLen, source, k);
            buffer[..runLen] == r.output && state' == r.state && k' == k + |r.draws|
    ensures buffer[runLen..] == old(buffer[runLen..])
  {
    var counter := sampleCounter;
    var i := 0;
    state', k' := state, k;
    ghost var r := RunFrom(state, sampleCounter, decorrelationSamples, 0, source, k);
    while i != runLen
      invariant 0 <= i <= runLen
      invariant counter == sampleCounter + i
      invariant r == RunFrom(state, sampleCounter, decorrelationSamples, i, source, k)
      invariant forall j :: 0 <= j < i ==> buffer[j] == r.output[j]
      invariant state' == r.state && k' == k + |r.draws|
      invariant forall j :: i <= j < buffer.Length ==> buffer[j] == old(buffer[j])
    {
      state', k' := Step(buffer, i, state', counter, decorrelationSamples, source, k', r, k);
      r := Tick(r, counter, decorrelationSamples, source, k);
      counter := counter + 1;
      i := i + 1;
    }
    assert buffer[..runLen] == r.output;
  }

  /** One pass of the loop of `Run`: sample i of the buffer gets the next magnitude, and the
      state and cursor become those of `Tick` on the run so far, `r`. */
  method Step(buffer: array<real>, i: nat, state: State, counter: nat, decorrelationSamples: nat,
              source: nat -> real, k: nat, ghost r: Ramp, ghost k0: nat)
    returns (state': State, k': nat)
    requires decorrelationSamples > 0 && i < buffer.Length
    requires state == r.state && k == k0 + |r.draws|
    modifies buffer
    ensures var t := Tick(r, counter, decorrelationSamples, source, k0);
            state' == t.state && k' == k0 + |t.draws| && t.output == r.output + [state'.magnitude]
    ensures buffer[..] == old(buffer[..])[i := state'.magnitude]
  {
    state', k' := state, k;
    state' := state'.(magnitude := state'.magnitude + state'.slope);
    buffer[i] := state'.magnitude;
    if counter % decorrelationSamples == 0 {
      var target := source(k');
      k' := k' + 1;
      state' := state'.(slope := (target - state'.magnitude) / (decorrelationSamples as real));
    }
  }

  /** Continuity: a run of n1 samples followed by a run of n2 samples, started from where the
      first left off (its state, the next sample counter and the source's cursor), writes the
      same magnitudes, leaves the same state and makes the same draws as one run of n1 + n2. */
  lemma {:induction false} Continuity(state: State, counter: nat, period: nat, n1: nat, n2: nat,
                                      source: nat -> real, k: nat)
    requires period > 0
    ensures var r1 := RunFrom(state, counter, period, n1, source, k);
            var r2 := RunFrom(r1.state, counter + n1, period, n2, source, k + |r1.draws|);
            RunFrom(state, counter, period, n1 + n2, source, k)
              == Ramp(r1.output + r2.output, r2.state, r1.draws + r2.draws)
    decreases n2
  {
    var r1 := RunFrom(state, counter, period, n1, source, k);
    if n2 == 0 {
      assert r1.output + [] == r1.output;
      assert r1.draws + [] == r1.draws;
    } else {
      Continuity(state, counter, period, n1, n2 - 1, source, k);
      var r2' := RunFrom(r1.state, counter + n1, period, n2 - 1, source, k + |r1.draws|);
      var whole' := RunFrom(state, counter, period, n1 + n2 - 1, source, k);
      assert whole' == Ramp(r1.output + r2'.output, r2'.state, r1.draws + r2'.draws);
      TickAfter(r1, r2', counter + n1 + n2 - 1, period, source, k);
      assert RunFrom(state, counter, period, n1 + n2, source, k)
             == Tick(whole', counter + n1 + n2 - 1, period, source, k);
      assert RunFrom(r1.state, counter + n1, period, n2, source, k + |r1.draws|)
             == Tick(r2', counter + n1 + n2 - 1, period, source, k + |r1.draws|);
    }
  }

  /** A pass of the loop body after two runs back to back is a pass after the second one,
      with the source's cursor moved past the first run's draws. */
  lemma TickAfter(r1: Ramp, r2: Ramp, counter: nat, period: nat, source: nat -> real, k: nat)
    requires period > 0
    ensures var t := Tick(r2, counter, period, source, k + |r1.draws|);
            Tick(Ramp(r1.output + r2.output, r2.state, r1.draws + r2.draws), counter, period, source, k)
              == Ramp(r1.output + t.output, t.state, r1.draws + t.draws)
  {
    var m := r2.state.magnitude + r2.state.slope;
    assert (r1.output + r2.output) + [m] == r1.output + (r2.output + [m]);
    if IsBoundary(counter, period) {
      assert (r1.draws + r2.draws) + [counter] == r1.draws + (r2.draws + [counter]);
    }
  }

  /** Entry j of a run is entry j of any longer run from the same start. */
  lemma OutputPrefix(state: State, counter: nat, period: nat, n: nat, m: nat, source: nat -> real, k: nat, j: nat)
    requires period > 0
    requires j < m <= n
    ensures RunFrom(state, counter, period, n, source, k).output[j]
            == RunFrom(state, counter, period, m, source, k).output[j]
  {
    Continuity(state, counter, period, m, n - m, source, k);
  }

  /** The source is called at a counter value of the run exactly when it is a decorrelation
      boundary. */
  lemma {:induction false} DrawsAtBoundaries(state: State, counter: nat, period: nat, n: nat,
                                             source: nat -> real, k: nat)
    requires period > 0
    ensures forall s :: s in RunFrom(state, counter, period, n, source, k).draws
                        <==> counter <= s < counter + n && IsBoundary(s, period)
    decreases n
  {
    if n > 0 {
      DrawsAtBoundaries(state, counter, period, n - 1, source, k);
      var p := RunFrom(state, counter, period, n - 1, source, k);
      var r := RunFrom(state, counter, period, n, source, k);
      var last := counter + n - 1;
      if IsBoundary(last, period) {
        assert r.draws == p.draws + [last];
      } else {
        assert r.draws == p.draws;
      }
    }
  }

  /** The calls come in increasing counter order, so no boundary is drawn for twice. */
  lemma {:induction false} DrawsIncreasing(state: State, counter: nat, period: nat, n: nat,
                                           source: nat -> real, k: nat)
    requires period > 0
    ensures forall i, j :: 0 <= i < j < |RunFrom(state, counter, period, n, source, k).draws| ==>
              RunFrom(state, counter, period, n, source, k).draws[i] < RunFrom(state, counter, period, n, source, k).draws[j]
    decreases n
  {
    if n > 0 {
      DrawsIncreasing(state, counter, period, n - 1, source, k);
      var p := RunFrom(state, counter, period, n - 1, source, k);
      var r := RunFrom(state, counter, period, n, source, k);
      var last := counter + n - 1;
      if IsBoundary(last, period) {
        DrawsAtBoundaries(state, counter, period, n - 1, source, k);
        assert r.draws == p.draws + [last];
        forall i, j | 0 <= i < j < |r.draws|
          ensures r.draws[i] < r.draws[j]
        {
          if j == |p.draws| {
            assert p.draws[i] in p.draws;
            assert r.draws[j] == last;
          } else {
            assert r.draws[i] == p.draws[i] && r.draws[j] == p.draws[j];
          }
        }
      } else {
        assert r.draws == p.draws;
      }
    }
  }

  /** Stepping j times adds j slopes. */
  lemma {:induction false} SteppedLinear(m: real, slope: real, j: nat)
    ensures Stepped(m, slope, j) == m + (j as real) * slope
  {
    if j > 0 {
      SteppedLinear(m, slope, j - 1);
      assert (j as real) * slope == ((j - 1) as real) * slope + slope;
    }
  }

  /** Stepping period times with the aimed slope lands exactly on the target. */
  lemma AimReached(target: real, m: real, period: nat)
    requires period > 0
    ensures Stepped(m, Aim(target, m, period), period) == target
  {
    SteppedLinear(m, Aim(target, m, period), period);
    assert (period as real) * ((target - m) / (period as real)) == target - m;
  }

  /** While no boundary is crossed the output is a straight line: with no boundary among the
      first n - 1 counters, entry j is the starting magnitude stepped j + 1 times by the slope,
      and the slope is kept. */
  lemma {:induction false} LinearSegment(state: State, counter: nat, period: nat, n: nat,
                                         source: nat -> real, k: nat)
    requires period > 0
    requires forall s :: counter <= s < counter + n - 1 ==> !IsBoundary(s, period)
    ensures forall j :: 0 <= j < n ==>
              RunFrom(state, counter, period, n, source, k).output[j]
              == Stepped(state.magnitude, state.slope, j + 1)
    ensures n > 0 ==> RunFrom(state, counter, period, n - 1, source, k).state.slope == state.slope
    decreases n
  {
    if n > 0 {
      LinearSegment(state, counter, period, n - 1, source, k);
      var p := RunFrom(state, counter, period, n - 1, source, k);
      var r := RunFrom(state, counter, period, n, source, k);
      if n > 1 {
        assert !IsBoundary(counter + n - 2, period);
        assert p.state.magnitude == p.output[n - 2];
        var j := n - 2;
        assert p.output[j] == Stepped(state.magnitude, state.slope, j + 1);
      }
      assert p.state.magnitude == Stepped(state.magnitude, state.slope, n - 1);
      assert p.state.slope == state.slope;
      assert r.output == p.output + [p.state.magnitude + p.state.slope];
    }
  }

  /** No boundary falls strictly between a boundary b and the next one, b + period. */
  lemma NoBoundaryInside(b: nat, period: nat)
    requires period > 0
    requires IsBoundary(b, period)
    ensures forall s :: b < s < b + period ==> !IsBoundary(s, period)
  {
    forall s | b < s < b + period
      ensures !IsBoundary(s, period)
    {
      var q := b / period;
      assert b == q * period;
      ModOffset(q, s - b, period);
    }
  }

  /** A multiple of the period plus an offset below the period leaves that offset. */
  lemma ModOffset(q: nat, r: nat, period: nat)
    requires 0 <= r < period
    ensures (q * period + r) % period == r
  {
    var x := q * period + r;
    var d, m := x / period, x % period;
    assert x == d * period + m && 0 <= m < period;
    assert (d - q) * period == r - m;
    MultipleBound(d - q, period);
  }

  /** A non-zero multiple of a positive number is at least that number away from zero. */
  lemma MultipleBound(a: int, p: int)
    requires p > 0
    ensures a >= 1 ==> a * p >= p
    ensures a <= -1 ==> a * p <= -p
  {
    if a >= 1 {
      var e := a - 1;
      assert a * p == e * p + p;
      assert e * p >= 0;
    } else if a <= -1 {
      var e := -a - 1;
      assert a * p == -(e * p) - p;
      assert e * p >= 0;
    }
  }

  /** The target drawn at a boundary is reached exactly one period later: if the run's
      sample i falls on a boundary, sample i + period equals the value the source returned
      there (its call number |draws before i|). */
  lemma TargetReached(state: State, counter: nat, period: nat, n: nat, source: nat -> real, k: nat, i: nat)
    requires period > 0
    requires IsBoundary(counter + i, period)
    requires i + period < n
    ensures RunFrom(state, counter, period, n, source, k).output[i + period]
            == source(k + |RunFrom(state, counter, period, i, source, k).draws|)
  {
    SegmentEnd(state, counter, period, source, k, i);
    OutputPrefix(state, counter, period, n, i + 1 + period, source, k, i + period);
  }

  /** The period of samples after a boundary sample at i, run on its own from the state the
      boundary left, ends on the target drawn there. */
  lemma SegmentEnd(state: State, counter: nat, period: nat, source: nat -> real, k: nat, i: nat)
    requires period > 0
    requires IsBoundary(counter + i, period)
    ensures RunFrom(state, counter, period, i + 1 + period, source, k).output[i + period]
            == source(k + |RunFrom(state, counter, period, i, source, k).draws|)
  {
    var pre := RunFrom(state, counter, period, i + 1, source, k);
    var seg := RunFrom(pre.state, counter + (i + 1), period, period, source, k + |pre.draws|);
    var whole := RunFrom(state, counter, period, i + 1 + period, source, k);
    SegmentTarget(state, counter, period, source, k, i);
    Continuity(state, counter, period, i + 1, period, source, k);
    assert whole.output == pre.output + seg.output;
    assert whole.output[i + period] == seg.output[period - 1];
  }

  /** The last sample of that period lands on the target. */
  lemma SegmentTarget(state: State, counter: nat, period: nat, source: nat -> real, k: nat, i: nat)
    requires period > 0
    requires IsBoundary(counter + i, period)
    ensures var pre := RunFrom(state, counter, period, i + 1, source, k);
            RunFrom(pre.state, counter + (i + 1), period, period, source, k + |pre.draws|).output[period - 1]
            == source(k + |RunFrom(state, counter, period, i, source, k).draws|)
  {
    var t := source(k + |RunFrom(state, counter, period, i, source, k).draws|);
    var pre := RunFrom(state, counter, period, i + 1, source, k);
    var m := pre.output[i];
    assert pre.state == State(m, Aim(t, m, period));
    NoBoundaryInside(counter + i, period);
    var seg := RunFrom(pre.state, counter + (i + 1), period, period, source, k + |pre.draws|);
    LinearSegment(pre.state, counter + (i + 1), period, period, source, k + |pre.draws|);
    assert seg.output[period - 1] == Stepped(m, Aim(t, m, period), period);
    AimReached(t, m, period);
  }

  /** Between boundaries consecutive outputs differ by the slope in force: entry j is entry
      j - 1 plus the slope of the state left by the first j samples, and that slope is the one
      before it unless sample j - 1 fell on a boundary. */
  lemma ConsecutiveOutputs(state: State, counter: nat, period: nat, n: nat, source: nat -> real, k: nat, j: nat)
    requires period > 0
    requires 0 < j < n
    ensures RunFrom(state, counter, period, n, source, k).output[j]
            == RunFrom(state, counter, period, n, source, k).output[j - 1]
               + RunFrom(state, counter, period, j, source, k).state.slope
    ensures !IsBoundary(counter + j - 1, period) ==>
              RunFrom(state, counter, period, j, source, k).state.slope
              == RunFrom(state, counter, period, j - 1, source, k).state.slope
  {
    var before := RunFrom(state, counter, period, j, source, k);
    var next := RunFrom(state, counter, period, j + 1, source, k);
    assert next.output[j] == before.state.magnitude + before.state.slope;
    assert before.state.magnitude == before.output[j - 1];
    OutputPrefix(state, counter, period, n, j + 1, source, k, j);
    OutputPrefix(state, counter, period, n, j, source, k, j - 1);
  }

  /** A fresh run (slope 0, counter 0) first writes the seeded magnitude unchanged, then ramps
      linearly toward the first target: sample j is m + j * (target - m) / period for the
      first period samples. */
  lemma FreshStart(m: real, period: nat, n: nat, source: nat -> real, k: nat)
    requires period > 0
    requires n > 0
    ensures RunFrom(State(m, 0.0), 0, period, n, source, k).output[0] == m
    ensures forall j :: 1 <= j < n && j <= period ==>
              RunFrom(State(m, 0.0), 0, period, n, source, k).output[j]
              == m + (j as real) * Aim(source(k), m, period)
  {
    var first := RunFrom(State(m, 0.0), 0, period, 1, source, k);
    assert first.output[0] == m;
    OutputPrefix(State(m, 0.0), 0, period, n, 1, source, k, 0);
    forall j | 1 <= j < n && j <= period
      ensures RunFrom(State(m, 0.0), 0, period, n, source, k).output[j]
              == m + (j as real) * Aim(source(k), m, period)
    {
      FreshRampLinear(m, period, n, source, k, j);
    }
  }

  /** One sample of `FreshStart`'s ramp, in closed form. */
  lemma FreshRampLinear(m: real, period: nat, n: nat, source: nat -> real, k: nat, j: nat)
    requires period > 0
    requires 1 <= j < n && j <= period
    ensures RunFrom(State(m, 0.0), 0, period, n, source, k).output[j]
            == m + (j as real) * Aim(source(k), m, period)
  {
    FreshRamp(m, period, n, source, k, j);
    SteppedLinear(m, Aim(source(k), m, period), j);
  }

  /** One sample of `FreshStart`'s ramp. */
  lemma FreshRamp(m: real, period: nat, n: nat, source: nat -> real, k: nat, j: nat)
    requires period > 0
    requires 1 <= j < n && j <= period
    ensures RunFrom(State(m, 0.0), 0, period, n, source, k).output[j]
            == Stepped(m, Aim(source(k), m, period), j)
  {
    FreshSegment(m, period, j, source, k);
    OutputPrefix(State(m, 0.0), 0, period, n, 1 + j, source, k, j);
  }

  /** `FreshRamp` for the run that ends at sample j. */
  lemma FreshSegment(m: real, period: nat, j: nat, source: nat -> real, k: nat)
    requires period > 0
    requires 1 <= j <= period
    ensures RunFrom(State(m, 0.0), 0, period, 1 + j, source, k).output[j]
            == Stepped(m, Aim(source(k), m, period), j)
  {
    var start := State(m, 0.0);
    var first := RunFrom(start, 0, period, 1, source, k);
    var sl := Aim(source(k), m, period);
    assert first.state == State(m, sl);
    NoBoundaryInside(0, period);
    LinearSegment(first.state, 1, period, j, source, k + |first.draws|);
    Continuity(start, 0, period, 1, j, source, k);
    var seg := RunFrom(first.state, 1, period, j, source, k + |first.draws|);
    var whole := RunFrom(start, 0, period, 1 + j, source, k);
    assert whole.output == first.output + seg.output;
    assert whole.output[j] == seg.output[j - 1];
  }
}
