/**
 * The process-wide pseudo-random generator behind `std::rand()`, replaced by
 * an injected stream of draws, and the `rand() % n + k` range idiom.
 */
module Random {

  /** `RAND_MAX` of the Microsoft C runtime the program is built against. */
  const RandMax := 32767

  /** A value `std::rand()` can return: never negative, at most `RAND_MAX`. */
  type RandInt = r: int | 0 <= r <= RandMax

  /** `rand() % n + k`, where `rand()` returned `r`. */
  function Draw(r: RandInt, n: nat, k: int): (v: int)
    requires n > 0
    ensures k <= v < k + n
  {
    r % n + k
  }

  /**
   * The generator's state: the draws it will produce, in order, and how many
   * have been taken so far.
   */
  class Rng {
    const stream: nat -> RandInt
    var drawn: nat

    constructor (stream: nat -> RandInt)
      ensures this.stream == stream && drawn == 0
    {
      this.stream := stream;
      drawn := 0;
    }

    /** `std::rand()`: the next draw of the stream. */
    method Rand() returns (r: RandInt)
      modifies this
      ensures r == stream(old(drawn)) && drawn == old(drawn) + 1
    {
      r := stream(drawn);
      drawn := drawn + 1;
    }
  }
}
