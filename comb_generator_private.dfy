/**
 * The deprecated duplicate of the member scintillation engine (src/CombGeneratorPrivate.h and
 * .cpp). Its buffer pointer and length are plain fields rather than constants, but nothing
 * assigns them after construction. Its run is specified by the same `Scintillation.RunFrom`
 * as `TsgScintillationEngine.ScintillationEngine.Run`, so both give the same output, final
 * state and draws for the same inputs.
 */
module CombGeneratorPrivate {
  import opened Scintillation

  class ScintillationEngine {
    var scintillationBuffer: array<real>
    var bufLen: nat

    ghost predicate Valid()
      reads this
    {
      bufLen <= scintillationBuffer.Length
    }

    constructor(theScintillationBuffer: array<real>, theBufLen: nat)
      requires theBufLen <= theScintillationBuffer.Length
      ensures scintillationBuffer == theScintillationBuffer && bufLen == theBufLen
      ensures Valid()
    {
      scintillationBuffer := theScintillationBuffer;
      bufLen := theBufLen;
    }

    /** Same contract as the member engine's run; the buffer pointer and length fields are
        left as they were. */
    method Run(source: nat -> real, scintillationParams: State, sampleCounter: nat,
               decorrelationSamples: nat, k: nat)
      returns (params': State, k': nat)
      requires Valid()
      requires decorrelationSamples > 0
      modifies scintillationBuffer
      ensures var r := RunFrom(scintillationParams, sampleCounter, decorrelationSamples, bufLen, source, k);
              scintillationBuffer[..bufLen] == r.output && params' == r.state && k' == k + |r.draws|
      ensures scintillationBuffer[bufLen..] == old(scintillationBuffer[bufLen..])
    {
      params', k' := Scintillation.Run(scintillationBuffer, bufLen, source, scintillationParams,
                                       sampleCounter, decorrelationSamples, k);
    }
  }
}
