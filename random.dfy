/** The random stream the generation steps share. The source seeds one std::mt19937_64 from the
    town seed and hands it to every step; the steps draw from it through std::uniform_int_distribution,
    std::bernoulli_distribution, std::uniform_real_distribution and std::shuffle. The engine and the
    distributions are not modelled: the stream is an arbitrary function from (seed, draw index) to a
    raw natural number, and every distribution call consumes exactly one raw draw. */
module Random {

  /** An engine maps (seed, draw index) to the raw value of that draw. */
  type Engine = (nat, nat) -> nat

  /** A probability as an exact fraction num / den (the source's float probabilities). */
  datatype Probability = Probability(num: nat, den: nat)

  predicate ValidProbability(p: Probability)
  {
    0 < p.den && p.num <= p.den
  }

  /** The value a uniform integer draw in [lo, hi] takes for one raw draw. */
  function Uniform(raw: nat, lo: int, hi: int): (r: int)
    requires lo <= hi
    ensures lo <= r <= hi
  {
    lo + raw % (hi - lo + 1)
  }

  /** Every value in [lo, hi] is the outcome of some raw draw, so the model constrains a step's
      choices no more than the range does. */
  lemma UniformReachesEveryValue(lo: int, hi: int, v: int)
    requires lo <= v <= hi
    ensures Uniform((v - lo) as nat, lo, hi) == v
  {
  }

  /** The outcome of a Bernoulli draw for one raw draw. */
  function Bernoulli(raw: nat, p: Probability): (b: bool)
    requires ValidProbability(p)
  {
    raw % p.den < p.num
  }

  /** Probability 0 never succeeds, probability 1 always does, and any strictly intermediate
      probability can go either way. */
  lemma BernoulliExtremes(raw: nat, p: Probability)
    requires ValidProbability(p)
    ensures p.num == 0 ==> !Bernoulli(raw, p)
    ensures p.num == p.den ==> Bernoulli(raw, p)
    ensures 0 < p.num < p.den ==> Bernoulli(0, p) && !Bernoulli(p.num, p)
  {
  }

  /** The mutable stream: the raw values it will produce and how many have been consumed. */
  class Rng {
    const raw: nat -> nat
    var pos: nat

    /** Seeding: the stream yields engine(seed, 0), engine(seed, 1), ... */
    constructor(seed: nat, engine: Engine)
      ensures forall i: nat :: raw(i) == engine(seed, i)
      ensures pos == 0
    {
      raw := (i: nat) => engine(seed, i);
      pos := 0;
    }

    /** std::uniform_int_distribution<int>(lo, hi)(rng). */
    method UniformInt(lo: int, hi: int) returns (r: int)
      requires lo <= hi
      modifies this
      ensures pos == old(pos) + 1
      ensures r == Uniform(raw(old(pos)), lo, hi)
      ensures lo <= r <= hi
    {
      r := Uniform(raw(pos), lo, hi);
      pos := pos + 1;
    }

    /** std::bernoulli_distribution(p)(rng). */
    method Chance(p: Probability) returns (b: bool)
      requires ValidProbability(p)
      modifies this
      ensures pos == old(pos) + 1
      ensures b == Bernoulli(raw(old(pos)), p)
    {
      b := Bernoulli(raw(pos), p);
      pos := pos + 1;
    }

    /** A draw whose floating-point distribution is not modelled: the raw value is handed to the
        caller, which maps it through an input function. */
    method NextRaw() returns (r: nat)
      modifies this
      ensures pos == old(pos) + 1
      ensures r == raw(old(pos))
    {
      r := raw(pos);
      pos := pos + 1;
    }
  }
}
