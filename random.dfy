/**
 The single shared random engine of both simulation variants.

 The Mersenne-Twister state and the sampling algorithms of the standard
 distributions are not modelled. Instead the engine is an explicit,
 fixed stream of draws: the k-th call of any distribution on the engine
 returns the k-th entry of the corresponding oracle, and `pos` counts the
 calls made so far. Every distribution call consumes exactly one position,
 so the order in which the program consumes randomness is kept.
 */
module Random {

  /** The oracles giving the value of the k-th draw for each distribution
      the program uses. */
  datatype Source = Source(
    uniform: nat -> real,                 // uniform_real_distribution(0.0, 1.0)
    index: (nat, nat) -> nat,             // uniform_int_distribution(0, n - 1)
    bit: nat -> bool,                     // bernoulli_distribution(0.5)
    categorical: (nat, seq<real>) -> nat  // discrete_distribution over weights
  )

  /** What the standard library promises about each distribution. */
  ghost predicate WellFormed(src: Source)
  {
    && (forall k: nat :: 0.0 <= src.uniform(k) < 1.0)
    && (forall k: nat, n: nat :: 0 < n ==> src.index(k, n) < n)
    && (forall k: nat, w: seq<real> :: 0 < |w| ==> src.categorical(k, w) < |w|)
  }

  /** Index (0 or 1) of the parental allele picked by a segregation draw. */
  function Side(b: bool): (i: nat)
    ensures i < 2
  {
    if b then 1 else 0
  }

  /** `n` consecutive draws of uniform_int_distribution(0, m - 1) from
      position `pos` on: a sample of `n` indices with replacement. */
  function Sampled(src: Source, pos: nat, n: nat, m: nat): (s: seq<nat>)
    requires WellFormed(src) && 0 < m
    ensures |s| == n && forall k :: 0 <= k < n ==> s[k] < m
    decreases n
  {
    if n == 0 then [] else Sampled(src, pos, n - 1, m) + [IndexAt(src, pos + n - 1, m)]
  }

  lemma SampledSnoc(src: Source, pos: nat, n: nat, m: nat)
    requires WellFormed(src) && 0 < m
    ensures Sampled(src, pos, n + 1, m) == Sampled(src, pos, n, m) + [IndexAt(src, pos + n, m)]
  {
  }

  // The k-th draw of each distribution, read off the oracles. The engine's
  // methods state their results through these.

  function UniformAt(src: Source, k: nat): real
  {
    src.uniform(k)
  }

  function IndexAt(src: Source, k: nat, n: nat): nat
  {
    src.index(k, n)
  }

  function BitAt(src: Source, k: nat): bool
  {
    src.bit(k)
  }

  function CategoricalAt(src: Source, k: nat, w: seq<real>): nat
  {
    src.categorical(k, w)
  }

  class Rng {
    const src: Source
    var pos: nat

    ghost predicate Valid()
    {
      WellFormed(src)
    }

    constructor (src: Source)
      requires WellFormed(src)
      ensures Valid() && this.src == src && pos == 0
    {
      this.src := src;
      pos := 0;
    }

    /** One draw of uniform_real_distribution(0.0, 1.0). */
    method Uniform() returns (u: real)
      requires Valid()
      modifies this
      ensures pos == old(pos) + 1
      ensures u == UniformAt(src, old(pos)) && 0.0 <= u < 1.0
    {
      u := src.uniform(pos);
      pos := pos + 1;
    }

    /** One draw of uniform_int_distribution(0, n - 1). */
    method UniformIndex(n: nat) returns (i: nat)
      requires Valid() && 0 < n
      modifies this
      ensures pos == old(pos) + 1
      ensures i == IndexAt(src, old(pos), n) && i < n
    {
      i := src.index(pos, n);
      pos := pos + 1;
    }

    /** One draw of bernoulli_distribution(0.5). */
    method Coin() returns (b: bool)
      requires Valid()
      modifies this
      ensures pos == old(pos) + 1
      ensures b == BitAt(src, old(pos))
    {
      b := src.bit(pos);
      pos := pos + 1;
    }

    /** One draw of a discrete_distribution over the given weights. */
    method Categorical(w: seq<real>) returns (i: nat)
      requires Valid() && 0 < |w|
      modifies this
      ensures pos == old(pos) + 1
      ensures i == CategoricalAt(src, old(pos), w) && i < |w|
    {
      i := src.categorical(pos, w);
      pos := pos + 1;
    }
  }

  // ---------------------------------------------------------------------
  // Loops of rounds that each consume draws

  /** `n` rounds of a loop whose round from draw position p is `bf(p)`,
      each starting where the one before it stopped: the rounds in order and
      the next draw position. Both simulation loops that make offspring are
      of this shape. */
  function Rounds<T>(bf: nat -> (T, nat), pos: nat, n: nat): (r: (seq<T>, nat))
    ensures |r.0| == n
    decreases n
  {
    if n == 0 then ([], pos)
    else
      var before := Rounds(bf, pos, n - 1);
      var b := bf(before.1);
      (before.0 + [b.0], b.1)
  }

  /** One more round, given the rounds so far and the draw position after
      them by name. */
  lemma {:induction false} RoundsSnoc<T>(bf: nat -> (T, nat), pos: nat, n: nat, bs: seq<T>, at: nat,
                                         b: T, next: nat)
    requires bs == Rounds(bf, pos, n).0 && at == Rounds(bf, pos, n).1
    requires b == bf(at).0 && next == bf(at).1
    ensures bs + [b] == Rounds(bf, pos, n + 1).0
    ensures next == Rounds(bf, pos, n + 1).1
  {
  }

  /** Round k of the first `n` is the round that starts where the first k
      rounds stop. */
  lemma {:induction false} RoundsEntry<T>(bf: nat -> (T, nat), pos: nat, n: nat, k: nat)
    requires k < n
    ensures Rounds(bf, pos, n).0[k] == bf(Rounds(bf, pos, k).1).0
    decreases n
  {
    if k < n - 1 {
      RoundsEntry(bf, pos, n - 1, k);
    }
  }

  /** n rounds of lo to hi draws each take n lo to n hi draws. */
  lemma {:induction false} RoundsDraws<T>(bf: nat -> (T, nat), pos: nat, n: nat, lo: nat, hi: nat)
    requires forall p: nat :: p + lo <= bf(p).1 <= p + hi
    ensures pos + n * lo <= Rounds(bf, pos, n).1 <= pos + n * hi
    decreases n
  {
    if 0 < n {
      var before := Rounds(bf, pos, n - 1);
      RoundsDraws(bf, pos, n - 1, lo, hi);
      DrawsStep(pos, before.1, bf(before.1).1, n, lo, hi);
    }
  }

  /** n rounds of lo to hi draws each, from one more round and the n - 1
      before it. */
  lemma DrawsStep(pos: nat, at: nat, next: nat, n: nat, lo: nat, hi: nat)
    requires 0 < n && pos + (n - 1) * lo <= at <= pos + (n - 1) * hi
    requires at + lo <= next <= at + hi
    ensures pos + n * lo <= next <= pos + n * hi
  {
    assert n * lo == (n - 1) * lo + lo;
    assert n * hi == (n - 1) * hi + hi;
  }
}
