/** The random source as an injected oracle: an arbitrary stream of numbers and a count of
    the draws taken so far. Any stream may be supplied, so every outcome of a uniform draw
    is covered. */
module Random {
  import opened Grid

  class Rng {
    const stream: nat -> nat
    var drawn: nat

    constructor (stream: nat -> nat)
      ensures this.stream == stream && drawn == 0
    {
      this.stream := stream;
      drawn := 0;
    }

    /** The `i`-th draw as an index below `n`. */
    function Index(i: nat, n: nat): (r: nat)
      requires 0 < n
      ensures r < n
    {
      stream(i) % n
    }

    /** The `i`-th draw as a direction: the draw below 4 picks from the four directions in
        the order they are listed. */
    function DirectionAt(i: nat): (d: Direction)
      ensures d == CARDINAL_DIRECTIONS[Index(i, 4)]
    {
      DirectionOf(Index(i, 4))
    }

    /** `gen_range(0, n)`: an index below `n`; it aborts on an empty range. */
    method GenRange(n: nat) returns (r: nat)
      requires 0 < n
      modifies this
      ensures r == Index(old(drawn), n)
      ensures drawn == old(drawn) + 1
    {
      r := stream(drawn) % n;
      drawn := drawn + 1;
    }

    /** `rand::random::<Direction>()`: a uniform index in `[0, 4)` mapped to a direction. */
    method RandomDirection() returns (d: Direction)
      modifies this
      ensures d == DirectionAt(old(drawn))
      ensures drawn == old(drawn) + 1
    {
      var n := GenRange(4);
      d := DirectionOf(n);
    }
  }
}
