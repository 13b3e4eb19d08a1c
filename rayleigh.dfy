/**
 * The Rayleigh distributor, seen from outside: a pseudo-random engine that is re-seeded by
 * `reset(seed)` and answers `getValue(mean)` with a Rayleigh-distributed value of that mean.
 * Its random engine and normal distribution are not modelled; the value returned is whatever
 * the distribution law `law` gives for the current seed, the means requested since that seed
 * was set, and the mean requested now. Two distributors seeded alike and asked alike answer
 * alike; nothing else about the law is assumed.
 */
module Rayleigh {
  import opened Common

  newtype uint32 = x: int | 0 <= x < 0x1_0000_0000

  /** The values a seeded engine yields: (seed, means requested before, mean) to value. */
  type Law = (uint32, seq<real>, real) -> real

  /** The distributor's observable state: its seed and the means requested since seeding. */
  datatype Distributor = Distributor(seed: uint32, requests: seq<real>)

  /** `reset(seed)`: a fresh engine on that seed; earlier requests no longer matter. */
  function Reseeded(seed: uint32): Distributor
  {
    Distributor(seed, [])
  }

  /** The value `getValue(mean)` returns in state `d`. */
  function Value(law: Law, d: Distributor, mean: real): real
  {
    law(d.seed, d.requests, mean)
  }

  /** The values of the next calls `getValue(mean)` that all ask for the same mean: the
      j-th of them (from 0) is answered after j earlier requests of that mean. */
  function Stream(law: Law, d: Distributor, mean: real): nat -> real
  {
    (j: nat) => law(d.seed, d.requests + Repeat(mean, j), mean)
  }
}
