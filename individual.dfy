/**
 The genotype of the object-oriented variant: the parameter set it reads
 and the four ways an individual comes into being (initial, copy, birth,
 assignment).

 An individual is a value: the program keeps individuals by value in its
 vectors and copies them with the copy constructor and `operator=`, so it
 is a datatype here.
 */
module Individuals {
  import opened Random
  import opened Diploid

  /** The run configuration (file name left out). */
  datatype Parameters = Parameters(
    N: nat,                   // population size, meant to be even
    max_generation: nat,
    n_males_sampled: nat,
    data_print_interval: nat,
    mu_t: real,               // mutation rate of an ornament allele
    mu_p: real,               // mutation rate of a preference allele
    max_mut_p: real,          // largest mutational step of a preference allele
    max_mut_t: real,          // largest mutational step of an ornament allele
    biast: real,              // probability that an ornament mutation is negative
    a: real,
    b: real,
    c: real,
    init_t: real,
    init_p: real,
    only_positive: bool       // clamp mutated alleles at zero
  )

  datatype Individual = Individual(t: Locus, p: Locus)

  /** The constructor used at the start of a run. */
  function Initial(par: Parameters): (ind: Individual)
    ensures ind.t[0] == ind.t[1] == par.init_t
    ensures ind.p[0] == ind.p[1] == par.init_p
  {
    Individual(Homozygous(par.init_t), Homozygous(par.init_p))
  }

  /** The copy constructor: builds a new genotype allele by allele. */
  function Copy(other: Individual): (ind: Individual)
    ensures ind == other
  {
    Individual([other.t[0], other.t[1]], [other.p[0], other.p[1]])
  }

  /** `operator=`: overwrites this individual's alleles with those of
      `other`, one allele index at a time. */
  method Assign(self: Individual, other: Individual) returns (updated: Individual)
    ensures updated == other
  {
    updated := self;
    for allele_idx := 0 to 2
      invariant forall k :: 0 <= k < allele_idx ==> updated.p[k] == other.p[k]
      invariant forall k :: 0 <= k < allele_idx ==> updated.t[k] == other.t[k]
    {
      updated := updated.(p := updated.p[allele_idx := other.p[allele_idx]]);
      updated := updated.(t := updated.t[allele_idx := other.t[allele_idx]]);
    }
    assert updated.p == other.p && updated.t == other.t;
  }

  /** The value an allele takes after a mutational step of size `inc`:
      negative iff the sign draw is below `bias`. */
  function Step(a: real, inc: real, signDraw: real, bias: real): real
  {
    a + (if signDraw < bias then -inc else inc)
  }

  /** `x` is what allele `a` can become: unchanged, or (only when the rate
      is positive) moved by at most the step bound, or clamped to zero. With
      the clamp on, a mutated allele is never negative. */
  ghost predicate Derived(x: real, a: real, mu: real, maxMut: real, onlyPositive: bool)
  {
    || x == a
    || (&& 0.0 < mu
        && (onlyPositive ==> 0.0 <= x)
        && (Abs(x - a) <= Abs(maxMut) || (onlyPositive && x == 0.0)))
  }

  /** `x` is derived from one of the two alleles of locus `l`. */
  ghost predicate FromLocus(x: real, l: Locus, mu: real, maxMut: real, onlyPositive: bool)
  {
    Derived(x, l[0], mu, maxMut, onlyPositive) || Derived(x, l[1], mu, maxMut, onlyPositive)
  }

  /** The first allele of each locus comes from the mother, the second from
      the father, each possibly mutated. */
  ghost predicate Inherits(kid: Individual, mother: Individual, father: Individual, par: Parameters)
  {
    && FromLocus(kid.t[0], mother.t, par.mu_t, par.max_mut_t, par.only_positive)
    && FromLocus(kid.t[1], father.t, par.mu_t, par.max_mut_t, par.only_positive)
    && FromLocus(kid.p[0], mother.p, par.mu_p, par.max_mut_p, par.only_positive)
    && FromLocus(kid.p[1], father.p, par.mu_p, par.max_mut_p, par.only_positive)
  }

  /** One possible mutation of allele `a` with the draws starting at `pos`:
      a draw below `mu` fires it; then a draw scales the step and a third
      decides its sign. Returns the new allele and the next draw position. */
  function MutantAt(src: Source, pos: nat, a: real, mu: real, maxMut: real, bias: real,
                    onlyPositive: bool): (real, nat)
  {
    if src.uniform(pos) < mu then
      var x := Step(a, maxMut * src.uniform(pos + 1), src.uniform(pos + 2), bias);
      (if onlyPositive && x < 0.0 then 0.0 else x, pos + 3)
    else
      (a, pos + 1)
  }

  /** A mutation consumes one draw when it does not fire and three when it
      does; the new allele is derived from the old one; unless the clamp
      applies the sign draw decides the direction, and when it applies a
      negative result becomes zero. */
  lemma MutantAtSpec(src: Source, pos: nat, a: real, mu: real, maxMut: real, bias: real,
                     onlyPositive: bool)
    requires WellFormed(src)
    ensures var r := MutantAt(src, pos, a, mu, maxMut, bias, onlyPositive);
            && (r.1 == pos + 1 || r.1 == pos + 3)
            && (src.uniform(pos) < mu <==> r.1 == pos + 3)
            && (src.uniform(pos) >= mu ==> r.0 == a)
            && Derived(r.0, a, mu, maxMut, onlyPositive)
            && ((&& r.1 == pos + 3 && 0.0 < maxMut && 0.0 < src.uniform(pos + 1)
                 && (!onlyPositive || 0.0 <= Step(a, maxMut * src.uniform(pos + 1), src.uniform(pos + 2), bias))) ==>
                  (r.0 < a <==> src.uniform(pos + 2) < bias))
            && ((&& r.1 == pos + 3 && onlyPositive
                 && Step(a, maxMut * src.uniform(pos + 1), src.uniform(pos + 2), bias) < 0.0) ==> r.0 == 0.0)
  {
    if src.uniform(pos) < mu {
      ScaledStep(maxMut, src.uniform(pos + 1));
    }
  }

  /** A step scaled by a uniform draw is no larger than the bound, and is
      positive when the bound and the draw are. */
  lemma ScaledStep(maxMut: real, u: real)
    requires 0.0 <= u < 1.0
    ensures Abs(maxMut * u) <= Abs(maxMut)
    ensures 0.0 < maxMut && 0.0 < u ==> 0.0 < maxMut * u
  {
    var p := maxMut * u;
    if maxMut < 0.0 {
      assert maxMut <= p <= 0.0;
    } else {
      assert 0.0 <= p <= maxMut;
    }
  }

  /** The mutation loop of the birth constructor from allele index `idx` on:
      at each index the preference allele may mutate (unbiased sign), then
      the ornament allele (sign bias `biast`). */
  function BirthLoop(src: Source, pos: nat, t: Locus, p: Locus, par: Parameters, idx: nat)
    : (Locus, Locus, nat)
    requires idx <= 2
    decreases 2 - idx
  {
    if idx == 2 then (t, p, pos)
    else
      var mp := MutantAt(src, pos, p[idx], par.mu_p, par.max_mut_p, 0.5, par.only_positive);
      var mt := MutantAt(src, mp.1, t[idx], par.mu_t, par.max_mut_t, par.biast, par.only_positive);
      BirthLoop(src, mt.1, t[idx := mt.0], p[idx := mp.0], par, idx + 1)
  }

  /** The mutation loop from index `idx` on consumes two to six draws per
      remaining index, leaves the earlier indices alone, derives each later
      allele from the one before the loop, and changes nothing when both
      rates are zero. */
  lemma {:induction false} BirthLoopSpec(src: Source, pos: nat, t: Locus, p: Locus, par: Parameters, idx: nat)
    requires WellFormed(src) && idx <= 2
    ensures var r := BirthLoop(src, pos, t, p, par, idx);
            && pos + 2 * (2 - idx) <= r.2 <= pos + 6 * (2 - idx)
            && (forall k :: 0 <= k < idx ==> r.0[k] == t[k] && r.1[k] == p[k])
            && (forall k :: idx <= k < 2 ==> Derived(r.0[k], t[k], par.mu_t, par.max_mut_t, par.only_positive))
            && (forall k :: idx <= k < 2 ==> Derived(r.1[k], p[k], par.mu_p, par.max_mut_p, par.only_positive))
            && (par.mu_t <= 0.0 && par.mu_p <= 0.0 ==> r.0 == t && r.1 == p)
    decreases 2 - idx
  {
    if idx < 2 {
      var mp := MutantAt(src, pos, p[idx], par.mu_p, par.max_mut_p, 0.5, par.only_positive);
      var mt := MutantAt(src, mp.1, t[idx], par.mu_t, par.max_mut_t, par.biast, par.only_positive);
      MutantAtSpec(src, pos, p[idx], par.mu_p, par.max_mut_p, 0.5, par.only_positive);
      MutantAtSpec(src, mp.1, t[idx], par.mu_t, par.max_mut_t, par.biast, par.only_positive);
      BirthLoopSpec(src, mt.1, t[idx := mt.0], p[idx := mp.0], par, idx + 1);
    }
  }

  /** The birth constructor with the draws starting at `pos`: four
      segregation draws pick the parental alleles, then the mutation loop.
      Returns the offspring and the next draw position. */
  function BirthAt(src: Source, pos: nat, mother: Individual, father: Individual, par: Parameters)
    : (Individual, nat)
  {
    var t: Locus := [mother.t[Side(src.bit(pos))], father.t[Side(src.bit(pos + 1))]];
    var p: Locus := [mother.p[Side(src.bit(pos + 2))], father.p[Side(src.bit(pos + 3))]];
    var m := BirthLoop(src, pos + 4, t, p, par, 0);
    (Individual(m.0, m.1), m.2)
  }

  /** A birth consumes eight to sixteen draws; the offspring inherits the
      first allele of each locus from the mother and the second from the
      father; without mutation it is exactly the segregated alleles. */
  lemma BirthAtSpec(src: Source, pos: nat, mother: Individual, father: Individual, par: Parameters)
    requires WellFormed(src)
    ensures var r := BirthAt(src, pos, mother, father, par);
            && pos + 8 <= r.1 <= pos + 16
            && Inherits(r.0, mother, father, par)
            && (par.mu_t <= 0.0 && par.mu_p <= 0.0 ==>
                  r.0 == Individual([mother.t[Side(src.bit(pos))], father.t[Side(src.bit(pos + 1))]],
                                    [mother.p[Side(src.bit(pos + 2))], father.p[Side(src.bit(pos + 3))]]))
  {
    var t: Locus := [mother.t[Side(src.bit(pos))], father.t[Side(src.bit(pos + 1))]];
    var p: Locus := [mother.p[Side(src.bit(pos + 2))], father.p[Side(src.bit(pos + 3))]];
    BirthLoopSpec(src, pos + 4, t, p, par, 0);
  }

  /** One mutation block of the birth constructor's allele loop: a rate
      draw, then (if it fires) a step-size draw and a sign draw, then the
      clamp at zero. */
  method MutateAllele(a: real, mu: real, maxMut: real, bias: real, onlyPositive: bool, rng: Rng)
    returns (x: real)
    requires rng.Valid()
    modifies rng
    ensures (x, rng.pos) == MutantAt(rng.src, old(rng.pos), a, mu, maxMut, bias, onlyPositive)
  {
    ghost var start := rng.pos;
    x := a;
    var u := rng.Uniform();
    if u < mu {
      var v := rng.Uniform();
      var increment := maxMut * v;
      var w := rng.Uniform();
      x := Step(x, increment, w, bias);
      if onlyPositive && x < 0.0 {
        x := 0.0;
      }
      assert u == rng.src.uniform(start) && v == rng.src.uniform(start + 1) && w == rng.src.uniform(start + 2);
      assert rng.pos == start + 3;
      assert MutantAt(rng.src, start, a, mu, maxMut, bias, onlyPositive).1 == start + 3;
      assert MutantAt(rng.src, start, a, mu, maxMut, bias, onlyPositive).0 == x;
    } else {
      assert MutantAt(rng.src, start, a, mu, maxMut, bias, onlyPositive) == (a, start + 1);
    }
    assert (x, rng.pos) == MutantAt(rng.src, start, a, mu, maxMut, bias, onlyPositive);
  }

  /** The birth constructor. */
  method Birth(mother: Individual, father: Individual, rng: Rng, par: Parameters)
    returns (kid: Individual)
    requires rng.Valid()
    modifies rng
    ensures (kid, rng.pos) == BirthAt(rng.src, old(rng.pos), mother, father, par)
    ensures Inherits(kid, mother, father, par)
  {
    ghost var start := rng.pos;
    var s0 := rng.Coin();
    var s1 := rng.Coin();
    var s2 := rng.Coin();
    var s3 := rng.Coin();
    var t: Locus := [mother.t[Side(s0)], father.t[Side(s1)]];
    var p: Locus := [mother.p[Side(s2)], father.p[Side(s3)]];
    t, p := MutationLoop(t, p, par, rng);
    kid := Individual(t, p);
    BirthAtSpec(rng.src, start, mother, father, par);
  }

  /** The allele loop of the birth constructor: at each allele index the
      preference allele, then the ornament allele, may mutate. */
  method MutationLoop(t: Locus, p: Locus, par: Parameters, rng: Rng) returns (t': Locus, p': Locus)
    requires rng.Valid()
    modifies rng
    ensures (t', p', rng.pos) == BirthLoop(rng.src, old(rng.pos), t, p, par, 0)
  {
    ghost var start := rng.pos;
    t', p' := t, p;
    for allele_idx := 0 to 2
      invariant rng.Valid()
      invariant BirthLoop(rng.src, rng.pos, t', p', par, allele_idx) == BirthLoop(rng.src, start, t, p, par, 0)
    {
      ghost var pos0, tb, pb := rng.pos, t', p';
      var np := MutateAllele(p'[allele_idx], par.mu_p, par.max_mut_p, 0.5, par.only_positive, rng);
      p' := p'[allele_idx := np];
      var nt := MutateAllele(t'[allele_idx], par.mu_t, par.max_mut_t, par.biast, par.only_positive, rng);
      t' := t'[allele_idx := nt];
      assert BirthLoop(rng.src, pos0, tb, pb, par, allele_idx) == BirthLoop(rng.src, rng.pos, t', p', par, allele_idx + 1);
    }
  }

  /** With both mutation rates zero, the offspring of two initial
      individuals is again an initial individual. */
  lemma NoDriftWithoutMutation(kid: Individual, par: Parameters)
    requires par.mu_t <= 0.0 && par.mu_p <= 0.0
    requires Inherits(kid, Initial(par), Initial(par), par)
    ensures kid == Initial(par)
  {
    assert kid.t == Initial(par).t && kid.p == Initial(par).p;
  }

  /** With the clamp on, non-negative parents have non-negative offspring. */
  lemma NonNegativeInheritance(kid: Individual, mother: Individual, father: Individual,
                               par: Parameters)
    requires par.only_positive && Inherits(kid, mother, father, par)
    requires forall k :: 0 <= k < 2 ==> 0.0 <= mother.t[k] && 0.0 <= mother.p[k]
    requires forall k :: 0 <= k < 2 ==> 0.0 <= father.t[k] && 0.0 <= father.p[k]
    ensures forall k :: 0 <= k < 2 ==> 0.0 <= kid.t[k] && 0.0 <= kid.p[k]
  {
  }
}
