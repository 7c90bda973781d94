/** Python's `random.Random`, kept abstract. A generator seeded with an
    integer yields a fixed, restartable stream of natural numbers; each
    `choice` or `randint` consumes the next number of that stream and
    reduces it to the range it needs. The bits of the Mersenne Twister are
    not modelled: the seeding function is a parameter. */
module Rng {

  /** The numbers a seeded generator produces, by position. */
  type Stream = nat -> nat

  /** `random.Random(seed)`, as the stream it yields. */
  type Seeder = int -> Stream

  class Random {
    /** The draws this generator produces, from position zero on. */
    const stream: Stream
    /** How many draws have been consumed. */
    var pos: nat

    /** `random.Random(seed)`: a new generator at the start of the seed's stream. */
    constructor (seeder: Seeder, seed: int)
      ensures stream == seeder(seed) && pos == 0
    {
      stream := seeder(seed);
      pos := 0;
    }

    /** `rng.choice(xs)`: an element of the non-empty list, chosen by the next draw. */
    method Choice<T>(xs: seq<T>) returns (x: T)
      requires |xs| > 0
      modifies this
      ensures x == xs[stream(old(pos)) % |xs|]
      ensures x in xs
      ensures pos == old(pos) + 1
    {
      x := xs[stream(pos) % |xs|];
      pos := pos + 1;
    }

    /** `rng.randint(lo, hi)`: a number in `[lo, hi]`, chosen by the next draw. */
    method RandInt(lo: int, hi: int) returns (r: int)
      requires lo <= hi
      modifies this
      ensures r == lo + stream(old(pos)) % (hi - lo + 1)
      ensures lo <= r <= hi
      ensures pos == old(pos) + 1
    {
      r := lo + stream(pos) % (hi - lo + 1);
      pos := pos + 1;
    }
  }
}
