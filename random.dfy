/**
 * `Math.random`, made explicit: an injected stream of draws, each in [0, 1). Every call
 * consumes the next draw.
 */
module Random {

  class Rng {
    const stream: nat -> real
    var drawn: nat

    ghost predicate Valid()
    {
      forall i: nat :: 0.0 <= stream(i) < 1.0
    }

    constructor (stream: nat -> real)
      requires forall i: nat :: 0.0 <= stream(i) < 1.0
      ensures Valid() && this.stream == stream && drawn == 0
    {
      this.stream := stream;
      drawn := 0;
    }

    method Next() returns (r: real)
      requires Valid()
      modifies this
      ensures 0.0 <= r < 1.0
      ensures r == stream(old(drawn)) && drawn == old(drawn) + 1
    {
      r := stream(drawn);
      drawn := drawn + 1;
    }
  }
}
