/**
 * The member form of the scintillation engine (src/ScintillationEngine.h and .cpp): the
 * buffer and its length are fixed at construction, and every run fills exactly that many
 * entries of that buffer. Its loop is the one of `Scintillation.Run`, so a run is specified by
 * the same function, `Scintillation.RunFrom`.
 */
module TsgScintillationEngine {
  import opened Scintillation

  class ScintillationEngine {
    /** The buffer the engine writes into; it is not owned, and never re-pointed. */
    const scintillationBuffer: array<real>
    /** The number of entries written by each run. */
    const bufLen: nat

    /** The buffer must hold the length given with it. */
    ghost predicate Valid()
    {
      bufLen <= scintillationBuffer.Length
    }

    constructor(theScintillationBuffer: array<real>, theBufLen: nat)
      requires theBufLen <= theScintillationBuffer.Length
      ensures scintillationBuffer == theScintillationBuffer && bufLen == theBufLen
      ensures Valid()
    {
      scintillationBuffer := theScintillationBuffer;
      bufLen := theBufLen;
    }

    /** Runs the ramp over the construction-time buffer: its first `bufLen` entries are the
        run's output, the rest of the buffer is untouched, and the state and the source's
        cursor are advanced. A zero period is excluded, as the header warns. */
    method Run(source: nat -> real, scintillationState: State, sampleCounter: nat,
               decorrelationSamples: nat, k: nat)
      returns (state': State, k': nat)
      requires Valid()
      requires decorrelationSamples > 0
      modifies scintillationBuffer
      ensures var r := RunFrom(scintillationState, sampleCounter, decorrelationSamples, bufLen, source, k);
              scintillationBuffer[..bufLen] == r.output && state' == r.state && k' == k + |r.draws|
      ensures scintillationBuffer[bufLen..] == old(scintillationBuffer[bufLen..])
    {
      state', k' := Scintillation.Run(scintillationBuffer, bufLen, source, scintillationState,
                                      sampleCounter, decorrelationSamples, k);
    }
  }
}
