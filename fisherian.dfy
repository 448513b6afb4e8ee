/**
 The procedural engine: a fixed-capacity population of gonochorists in
 global arrays, viability selection into survivor arrays, roulette-wheel
 mate choice among a small sample of males, a parent-index table with one
 clutch per surviving female, and a next generation of at most N offspring
 sampled from that table.
 */
module Fisherian {
  import opened Random
  import opened Diploid
  import opened Outcome

  /** Population capacity (the length of every population array). */
  const N: nat := 5000
  /** Largest number of males a female assesses. */
  const MateSample: nat := 10
  /** Offspring entries each surviving female adds to the parent table. */
  const ClutchSize: nat := 10
  /** Upper end of `uniform_mutation`, the distribution of mutational steps. */
  const MaxStep: real := 0.4
  /** Cap on one male's attractiveness. */
  const MaxAttraction: real := 100.0

  /** The run's parameters, as set from the command line. */
  datatype Settings = Settings(
    a: real, b: real, c: real, biast: real,
    mu_p: real, mu_t: real, sdmu_p: real, sdmu_t: real,
    sexlimp: real, sexlimt: real, pref: int,
    init_t: real, init_p: real)

  /** The `Individual` struct: two diploid loci and their expressed values. */
  datatype Individual = Individual(t: Locus, p: Locus, t_expr: real, p_expr: real)

  /** A zero-initialised array element. */
  const Blank := Individual(Homozygous(0.0), Homozygous(0.0), 0.0, 0.0)

  /** An individual as `Init` sets it up. */
  function Initial(s: Settings): Individual
  {
    Individual(Homozygous(s.init_t), Homozygous(s.init_p), s.init_t, s.init_p)
  }

  // ---------------------------------------------------------------------
  // Mutation and inheritance

  /** `mutate(G, mu, sdmu, bias)` with the draws from `pos` on: a first
      uniform draw below `mu` fires a mutation, whose step is a draw of
      `uniform_mutation` (0.4 times a uniform draw) and whose sign is
      negative when a third draw falls below `bias`. `sdmu` plays no part.
      Returns the new allele and the next draw position. */
  function MutatedAt(src: Source, pos: nat, g: real, mu: real, bias: real): (real, nat)
  {
    if src.uniform(pos) < mu then
      var effect := MaxStep * src.uniform(pos + 1);
      (if src.uniform(pos + 2) < bias then g - effect else g + effect, pos + 3)
    else
      (g, pos + 1)
  }

  /** `mutate` draws once when the allele stays and three times when it
      mutates; a mutation moves it by less than `MaxStep`, downwards when
      the third draw is below the bias and upwards otherwise. */
  lemma MutatedAtSpec(src: Source, pos: nat, g: real, mu: real, bias: real)
    requires WellFormed(src)
    ensures var r := MutatedAt(src, pos, g, mu, bias);
            && r.1 == (if src.uniform(pos) < mu then pos + 3 else pos + 1)
            && (src.uniform(pos) < mu || r.0 == g)
            && Abs(r.0 - g) < MaxStep
            && (src.uniform(pos) < mu ==>
                  && Abs(r.0 - g) == MaxStep * src.uniform(pos + 1)
                  && (src.uniform(pos + 2) < bias ==> r.0 <= g)
                  && (bias <= src.uniform(pos + 2) ==> g <= r.0))
  {
  }

  /** `x` is one of the alleles of `l`, or, when mutation can fire, within
      one mutational step of one of them. */
  ghost predicate FromParent(x: real, l: Locus, mu: real)
  {
    || x == l[0] || x == l[1]
    || (0.0 < mu && (Abs(x - l[0]) < MaxStep || Abs(x - l[1]) < MaxStep))
  }

  /** One inherited allele with the draws from `pos` on: a segregation
      draw picks the allele of the parental locus `l` at index 0 or 1,
      which then may mutate. */
  function AlleleAt(src: Source, pos: nat, l: Locus, mu: real, bias: real): (real, nat)
  {
    MutatedAt(src, pos + 1, l[Side(src.bit(pos))], mu, bias)
  }

  /** An inherited allele takes two or four draws and comes from the
      parental locus; without mutation it is the parental allele picked. */
  lemma AlleleAtSpec(src: Source, pos: nat, l: Locus, mu: real, bias: real)
    requires WellFormed(src)
    ensures var r := AlleleAt(src, pos, l, mu, bias);
            && r.1 == (if src.uniform(pos + 1) < mu then pos + 4 else pos + 2)
            && FromParent(r.0, l, mu)
            && (mu <= 0.0 ==> r.0 == l[Side(src.bit(pos))])
  {
    MutatedAtSpec(src, pos + 1, l[Side(src.bit(pos))], mu, bias);
  }

  /** Where one allele of a kid comes from: the parental locus it is
      drawn from and the mutation rate and bias that apply to it. */
  datatype Gene = Gene(parent: Locus, mu: real, bias: real)

  /** The four alleles `Create_Kid` inherits, in the order it draws them:
      t[0] from the mother and t[1] from the father with mutation bias
      `biast`, then p[0] and p[1] likewise with bias 0.5. */
  function Genes(mother: Individual, father: Individual, s: Settings): (g: seq<Gene>)
    ensures |g| == 4
  {
    [Gene(mother.t, s.mu_t, s.biast), Gene(father.t, s.mu_t, s.biast),
     Gene(mother.p, s.mu_p, 0.5), Gene(father.p, s.mu_p, 0.5)]
  }

  /** The alleles inherited one after the other from `pos` on, and the
      next draw position. */
  function Inherits(src: Source, pos: nat, genes: seq<Gene>): (r: (seq<real>, nat))
    ensures |r.0| == |genes|
    decreases |genes|
  {
    if |genes| == 0 then ([], pos)
    else
      var a := AlleleAt(src, pos, genes[0].parent, genes[0].mu, genes[0].bias);
      var rest := Inherits(src, a.1, genes[1..]);
      ([a.0] + rest.0, rest.1)
  }

  /** Four inherited alleles, one inheritance after the other. */
  lemma InheritsFour(src: Source, pos: nat, g: seq<Gene>)
    requires |g| == 4
    ensures var a0 := AlleleAt(src, pos, g[0].parent, g[0].mu, g[0].bias);
            var a1 := AlleleAt(src, a0.1, g[1].parent, g[1].mu, g[1].bias);
            var a2 := AlleleAt(src, a1.1, g[2].parent, g[2].mu, g[2].bias);
            var a3 := AlleleAt(src, a2.1, g[3].parent, g[3].mu, g[3].bias);
            Inherits(src, pos, g) == ([a0.0, a1.0, a2.0, a3.0], a3.1)
  {
    var a0 := AlleleAt(src, pos, g[0].parent, g[0].mu, g[0].bias);
    var a1 := AlleleAt(src, a0.1, g[1].parent, g[1].mu, g[1].bias);
    var a2 := AlleleAt(src, a1.1, g[2].parent, g[2].mu, g[2].bias);
    var a3 := AlleleAt(src, a2.1, g[3].parent, g[3].mu, g[3].bias);
    assert g[1..][1..] == g[2..] && g[2..][1..] == g[3..] && g[3..][1..] == [];
    assert Inherits(src, a3.1, g[3..][1..]) == ([], a3.1);
    var r3 := Inherits(src, a2.1, g[3..]);
    assert r3 == ([a3.0] + Inherits(src, a3.1, g[3..][1..]).0, Inherits(src, a3.1, g[3..][1..]).1);
    assert r3.0 == [a3.0] + [] && r3.1 == a3.1;
    var r2 := Inherits(src, a1.1, g[2..]);
    assert r2.0 == [a2.0] + r3.0 && r2.1 == a3.1;
    var r1 := Inherits(src, a0.1, g[1..]);
    assert r1.0 == [a1.0] + r2.0 && r1.1 == a3.1;
    assert Inherits(src, pos, g) == ([a0.0] + r1.0, r1.1);
    assert [a0.0] + ([a1.0] + ([a2.0] + ([a3.0] + []))) == [a0.0, a1.0, a2.0, a3.0];
  }

  /** `Create_Kid` with the draws from `pos` on: the kid takes the four
      alleles of `Genes` in that order; its expressed values are left as
      they were. */
  function KidAt(src: Source, pos: nat, mother: Individual, father: Individual,
                 kid: Individual, s: Settings): (Individual, nat)
  {
    var r := Inherits(src, pos, Genes(mother, father, s));
    (kid.(t := [r.0[0], r.0[1]], p := [r.0[2], r.0[3]]), r.1)
  }

  /** `Create_Kid` takes 8 to 16 draws, leaves the expressed values alone
      and gives each allele of the kid from the matching parent; without
      mutation it copies the parental alleles the segregation draws pick. */
  lemma KidAtSpec(src: Source, pos: nat, mother: Individual, father: Individual, kid: Individual, s: Settings)
    requires WellFormed(src)
    ensures var r := KidAt(src, pos, mother, father, kid, s);
            && pos + 8 <= r.1 <= pos + 16
            && r.0.t_expr == kid.t_expr && r.0.p_expr == kid.p_expr
            && FromParent(r.0.t[0], mother.t, s.mu_t) && FromParent(r.0.t[1], father.t, s.mu_t)
            && FromParent(r.0.p[0], mother.p, s.mu_p) && FromParent(r.0.p[1], father.p, s.mu_p)
            && (s.mu_t <= 0.0 && s.mu_p <= 0.0 ==>
                  && r.1 == pos + 8
                  && r.0.t[0] == mother.t[Side(src.bit(pos))]
                  && r.0.t[1] == father.t[Side(src.bit(pos + 2))]
                  && r.0.p[0] == mother.p[Side(src.bit(pos + 4))]
                  && r.0.p[1] == father.p[Side(src.bit(pos + 6))])
  {
    InheritsFour(src, pos, Genes(mother, father, s));
    var t0 := AlleleAt(src, pos, mother.t, s.mu_t, s.biast);
    var t1 := AlleleAt(src, t0.1, father.t, s.mu_t, s.biast);
    var p0 := AlleleAt(src, t1.1, mother.p, s.mu_p, 0.5);
    AlleleAtSpec(src, pos, mother.t, s.mu_t, s.biast);
    AlleleAtSpec(src, t0.1, father.t, s.mu_t, s.biast);
    AlleleAtSpec(src, t1.1, mother.p, s.mu_p, 0.5);
    AlleleAtSpec(src, p0.1, father.p, s.mu_p, 0.5);
  }

  /** A kid of the next generation: its alleles come from its parents as
      `Create_Kid` allows and its expressed values are the means of its
      two alleles. */
  ghost predicate KidOf(kid: Individual, mother: Individual, father: Individual, s: Settings)
  {
    && FromParent(kid.t[0], mother.t, s.mu_t) && FromParent(kid.t[1], father.t, s.mu_t)
    && FromParent(kid.p[0], mother.p, s.mu_p) && FromParent(kid.p[1], father.p, s.mu_p)
    && kid.t_expr == Expressed(kid.t) && kid.p_expr == Expressed(kid.p)
  }

  // ---------------------------------------------------------------------
  // Viability selection

  datatype Sex = Female | Male

  /** Survival probability: exp(-b p^2 + (1 - sexlimt)(-c) t^2) for a
      female, exp(-c t^2 + (1 - sexlimp)(-b) p^2) for a male, on the
      expressed values, with `exp` supplied. */
  function Fitness(s: Settings, exp: real -> real, sex: Sex, ind: Individual): real
  {
    var t := ind.t_expr;
    var p := ind.p_expr;
    match sex
    case Female => exp(-s.b * p * p + (1.0 - s.sexlimt) * (-s.c) * t * t)
    case Male => exp(-s.c * t * t + (1.0 - s.sexlimp) * -s.b * p * p)
  }

  function FitnessOf(s: Settings, exp: real -> real, sex: Sex): Individual -> real
  {
    (ind: Individual) => Fitness(s, exp, sex, ind)
  }

  /** The indices below `n` of the individuals that survive when the one
      at index i takes draw `u(pos + i)`. */
  function Sieve<T>(v: seq<T>, n: nat, u: nat -> real, pos: nat, w: T -> real): (idx: seq<nat>)
    requires n <= |v|
    ensures |idx| <= n && forall j :: 0 <= j < |idx| ==> idx[j] < n
    decreases n
  {
    if n == 0 then []
    else Sieve(v, n - 1, u, pos, w) + (if u(pos + n - 1) < w(v[n - 1]) then [n - 1] else [])
  }

  predicate Increasing(s: seq<nat>)
  {
    forall j, k :: 0 <= j < k < |s| ==> s[j] < s[k]
  }

  /** The sieved indices are listed in increasing order. */
  lemma {:induction false} SieveIncreasing<T>(v: seq<T>, n: nat, u: nat -> real, pos: nat, w: T -> real)
    requires n <= |v|
    ensures Increasing(Sieve(v, n, u, pos, w))
    decreases n
  {
    if n > 0 {
      var before := Sieve(v, n - 1, u, pos, w);
      SieveIncreasing(v, n - 1, u, pos, w);
      var idx := Sieve(v, n, u, pos, w);
      forall j, k | 0 <= j < k < |idx|
        ensures idx[j] < idx[k]
      {
        assert idx[j] == before[j];
        if k == |before| {
          assert idx[k] == n - 1 && before[j] < n - 1;
        } else {
          assert idx[k] == before[k] && before[j] < before[k];
        }
      }
    }
  }

  /** Index i is sieved exactly when its draw is below its survival
      probability. */
  lemma {:induction false} SieveMembers<T>(v: seq<T>, n: nat, u: nat -> real, pos: nat, w: T -> real)
    requires n <= |v|
    ensures forall i :: 0 <= i < n ==> (i in Sieve(v, n, u, pos, w) <==> u(pos + i) < w(v[i]))
    decreases n
  {
    if n > 0 {
      var before := Sieve(v, n - 1, u, pos, w);
      SieveMembers(v, n - 1, u, pos, w);
      assert forall j :: 0 <= j < |before| ==> before[j] < n - 1;
      assert forall i :: 0 <= i < n - 1 ==> (i in Sieve(v, n, u, pos, w) <==> i in before);
    }
  }

  /** The survivors among the first `n` individuals, in order, when the
      one at index i takes draw `u(pos + i)`. */
  function Kept<T>(v: seq<T>, n: nat, u: nat -> real, pos: nat, w: T -> real): (r: seq<T>)
    requires n <= |v|
    ensures |r| <= n
    decreases n
  {
    if n == 0 then []
    else Kept(v, n - 1, u, pos, w) + (if u(pos + n - 1) < w(v[n - 1]) then [v[n - 1]] else [])
  }

  lemma {:induction false} KeptSnoc<T>(v: seq<T>, n: nat, u: nat -> real, pos: nat, w: T -> real)
    requires n < |v|
    ensures Kept(v, n + 1, u, pos, w) == Kept(v, n, u, pos, w) + (if u(pos + n) < w(v[n]) then [v[n]] else [])
  {
  }

  /** The elements of `v` at the given indices, in that order. */
  function Pick<T>(v: seq<T>, idx: seq<nat>): (r: seq<T>)
    requires forall j :: 0 <= j < |idx| ==> idx[j] < |v|
    ensures |r| == |idx| && forall j :: 0 <= j < |idx| ==> r[j] == v[idx[j]]
  {
    seq(|idx|, j requires 0 <= j < |idx| => v[idx[j]])
  }

  lemma {:induction false} PickSnoc<T>(v: seq<T>, idx: seq<nat>, i: nat)
    requires forall j :: 0 <= j < |idx| ==> idx[j] < |v|
    requires i < |v|
    ensures Pick(v, idx + [i]) == Pick(v, idx) + [v[i]]
  {
    var l, r := Pick(v, idx + [i]), Pick(v, idx) + [v[i]];
    forall j | 0 <= j < |l|
      ensures l[j] == r[j]
    {
      if j < |idx| {
        assert (idx + [i])[j] == idx[j];
      }
    }
  }

  /** The survivors are exactly the individuals at the sieved indices. */
  lemma {:induction false} KeptIsSieved<T>(v: seq<T>, n: nat, u: nat -> real, pos: nat, w: T -> real)
    requires n <= |v|
    ensures Kept(v, n, u, pos, w) == Pick(v, Sieve(v, n, u, pos, w))
    decreases n
  {
    if n > 0 {
      var idx := Sieve(v, n - 1, u, pos, w);
      KeptIsSieved(v, n - 1, u, pos, w);
      SieveStep(v, n - 1, u, pos, w);
      if u(pos + n - 1) < w(v[n - 1]) {
        PickSnoc(v, idx, n - 1);
        assert Kept(v, n, u, pos, w) == Pick(v, idx) + [v[n - 1]];
      } else {
        assert Kept(v, n, u, pos, w) == Pick(v, idx);
      }
    }
  }

  /** The sum of the expressed ornaments. */
  function SumOrnament(s: seq<Individual>): real
    decreases |s|
  {
    if s == [] then 0.0 else SumOrnament(s[..|s| - 1]) + s[|s| - 1].t_expr
  }

  lemma {:induction false} SieveStep<T>(v: seq<T>, n: nat, u: nat -> real, pos: nat, w: T -> real)
    requires n < |v|
    ensures Sieve(v, n + 1, u, pos, w) == Sieve(v, n, u, pos, w) + (if u(pos + n) < w(v[n]) then [n] else [])
  {
  }

  lemma {:induction false} SumOrnamentSnoc(s: seq<Individual>, x: Individual)
    ensures SumOrnament(s + [x]) == SumOrnament(s) + x.t_expr
  {
    assert (s + [x])[..|s|] == s;
  }

  // ---------------------------------------------------------------------
  // Mate choice

  /** The preference-function selectors the program knows: 0 open-ended,
      1 absolute, 2 relative. */
  predicate KnownPreference(pref: int)
  {
    0 <= pref <= 2
  }

  /** A male's attractiveness: the preference function of his expressed
      ornament, capped at 100. */
  function Attraction(s: Settings, exp: real -> real, male: Individual, p: real,
                      meanOrn: real): (po: real)
    requires KnownPreference(s.pref)
    ensures po <= MaxAttraction
  {
    var orn := male.t_expr;
    var po :=
      if s.pref == 0 then exp(s.a * orn * p)
      else if s.pref == 1 then exp(-s.a * (orn - p) * (orn - p))
      else
        var reltr := orn - meanOrn;
        exp(-s.a * (reltr - p) * (reltr - p));
    if po > MaxAttraction then MaxAttraction else po
  }

  /** The attractiveness `w` of each sampled candidate (zero for an index
      outside `males`, which a sample never holds). */
  function Weights(males: seq<Individual>, cands: seq<nat>, w: Individual -> real): (ws: seq<real>)
    ensures |ws| == |cands|
    decreases |cands|
  {
    if cands == [] then []
    else
      var n := |cands| - 1;
      Weights(males, cands[..n], w) + [if cands[n] < |males| then w(males[cands[n]]) else 0.0]
  }

  /** Weight j is the attractiveness of candidate j. */
  lemma {:induction false} WeightsEntry(males: seq<Individual>, cands: seq<nat>, w: Individual -> real, j: nat)
    requires j < |cands|
    ensures Weights(males, cands, w)[j] == if cands[j] < |males| then w(males[cands[j]]) else 0.0
    decreases |cands|
  {
    var n := |cands| - 1;
    if j < n {
      WeightsEntry(males, cands[..n], w, j);
    }
  }

  lemma {:induction false} WeightsSnoc(males: seq<Individual>, cands: seq<nat>, c: nat, w: Individual -> real)
    requires c < |males|
    ensures Weights(males, cands + [c], w) == Weights(males, cands, w) + [w(males[c])]
  {
    assert (cands + [c])[..|cands|] == cands;
  }

  function Sum(ws: seq<real>): real
    decreases |ws|
  {
    if ws == [] then 0.0 else Sum(ws[..|ws| - 1]) + ws[|ws| - 1]
  }

  /** The cumulative distribution `Fitness[j]`: the running sum of the
      weights up to and including j. */
  function Cumulative(ws: seq<real>): (cum: seq<real>)
    ensures |cum| == |ws|
    decreases |ws|
  {
    if ws == [] then [] else Cumulative(ws[..|ws| - 1]) + [Sum(ws)]
  }

  /** Entry j of the cumulative distribution is the sum of the weights up
      to and including j. */
  lemma {:induction false} CumulativeEntry(ws: seq<real>, j: nat)
    requires j < |ws|
    ensures Cumulative(ws)[j] == Sum(ws[..j + 1])
    decreases |ws|
  {
    var n := |ws| - 1;
    if j < n {
      CumulativeEntry(ws[..n], j);
      assert ws[..n][..j + 1] == ws[..j + 1];
    } else {
      assert ws[..j + 1] == ws;
    }
  }

  lemma {:induction false} SumSnoc(ws: seq<real>, x: real)
    ensures Sum(ws + [x]) == Sum(ws) + x
  {
    assert (ws + [x])[..|ws|] == ws;
  }

  lemma {:induction false} CumulativeSnoc(ws: seq<real>, x: real)
    ensures Cumulative(ws + [x]) == Cumulative(ws) + [Sum(ws) + x]
  {
    assert (ws + [x])[..|ws|] == ws;
  }

  /** The first index from `i` on whose cumulative value reaches `r`. */
  function FirstAtLeast(cum: seq<real>, r: real, i: nat): (j: Option<nat>)
    requires i <= |cum|
    ensures j.Some? ==> i <= j.value < |cum| && r <= cum[j.value]
    decreases |cum| - i
  {
    if i == |cum| then None
    else if r <= cum[i] then Some(i)
    else FirstAtLeast(cum, r, i + 1)
  }

  /** No entry from `i` on before the one found reaches `r`, and none at
      all when nothing is found. */
  lemma {:induction false} FirstAtLeastIsFirst(cum: seq<real>, r: real, i: nat)
    requires i <= |cum|
    ensures var j := FirstAtLeast(cum, r, i);
            forall k :: i <= k < (if j.Some? then j.value else |cum|) ==> cum[k] < r
    decreases |cum| - i
  {
    if i < |cum| && cum[i] < r {
      FirstAtLeastIsFirst(cum, r, i + 1);
    }
  }

  /** The number of males assessed: N_mate_sample, or all survivors when
      there are fewer. */
  function SampleSize(survivors: nat): (k: nat)
    ensures k <= MateSample && k <= survivors
    ensures k == MateSample || k == survivors
    ensures 0 < survivors ==> 0 < k
  {
    if MateSample > survivors then survivors else MateSample
  }

  /** The candidate at the first cumulative weight that reaches `r`, or
      `fallback` when there is none. */
  function Wheel(cum: seq<real>, cands: seq<nat>, r: real, fallback: nat): (father: nat)
    requires |cum| == |cands|
    ensures father in cands || father == fallback
  {
    match FirstAtLeast(cum, r, 0)
    case Some(j) => cands[j]
    case None => fallback
  }

  /** The point the wheel is spun to: the uniform draw `u` scaled to the
      total weight. */
  function Point(u: real, total: real): real
  {
    u * total
  }

  /** The roulette wheel: the wheel on the cumulative weights, at the draw
      `u` scaled to the total weight. */
  function Roulette(cands: seq<nat>, ws: seq<real>, u: real, fallback: nat): (father: nat)
    requires |ws| == |cands|
    ensures father in cands || father == fallback
  {
    Wheel(Cumulative(ws), cands, Point(u, Sum(ws)), fallback)
  }

  /** `Choose` with the draws from `pos` on, among the surviving `males`,
      for the attractiveness `w`; `known` tells whether the preference
      selector is one the program knows. The candidates are the first
      SampleSize draws; with an unknown selector the program stops at the
      first candidate; otherwise a uniform draw scaled to the total weight
      picks the first candidate whose cumulative weight reaches it, and a
      uniform index draw made in any case is the father when none does.
      Returns the father (None when the program stops) and the next draw
      position. */
  function ChooseWith(src: Source, pos: nat, males: seq<Individual>, w: Individual -> real, known: bool)
    : (r: (Option<nat>, nat))
    requires WellFormed(src) && 0 < |males|
    ensures r.0.None? <==> !known
    ensures r.1 == if known then pos + SampleSize(|males|) + 2 else pos + 1
    ensures r.0.Some? ==> r.0.value < |males|
  {
    if !known then (None, pos + 1)
    else
      var k := SampleSize(|males|);
      var cands := Sampled(src, pos, k, |males|);
      var ws := Weights(males, cands, w);
      (Some(Roulette(cands, ws, UniformAt(src, pos + k), IndexAt(src, pos + k + 1, |males|))), pos + k + 2)
  }

  /** `Choose(p, father)` with the mean surviving ornament `meanOrn`. */
  function ChooseAt(src: Source, pos: nat, p: real, males: seq<Individual>, meanOrn: real,
                    s: Settings, exp: real -> real): (r: (Option<nat>, nat))
    requires WellFormed(src) && 0 < |males|
    ensures r.0.None? <==> !KnownPreference(s.pref)
    ensures r.1 == if KnownPreference(s.pref) then pos + SampleSize(|males|) + 2 else pos + 1
  {
    ChooseWith(src, pos, males, AttractionOf(s, exp, p, meanOrn), KnownPreference(s.pref))
  }

  /** Every weight is non-negative. */
  predicate NonNegative(ws: seq<real>)
  {
    forall i :: 0 <= i < |ws| ==> 0.0 <= ws[i]
  }

  lemma {:induction false} SumNonNegative(ws: seq<real>)
    requires forall j :: 0 <= j < |ws| ==> 0.0 <= ws[j]
    ensures 0.0 <= Sum(ws)
    decreases |ws|
  {
    if ws != [] {
      SumNonNegative(ws[..|ws| - 1]);
    }
  }

  lemma {:induction false} SumPrefixMonotone(ws: seq<real>, j: nat, k: nat)
    requires j <= k <= |ws|
    requires forall i :: 0 <= i < |ws| ==> 0.0 <= ws[i]
    ensures Sum(ws[..j]) <= Sum(ws[..k])
    decreases k - j
  {
    if j < k {
      SumPrefixMonotone(ws, j, k - 1);
      assert ws[..k][..k - 1] == ws[..k - 1];
    }
  }

  /** With non-negative weights the cumulative distribution never
      decreases, and its last entry is the total weight. */
  lemma {:induction false} CumulativeIsDistribution(ws: seq<real>)
    requires forall i :: 0 <= i < |ws| ==> 0.0 <= ws[i]
    ensures forall j, k :: 0 <= j <= k < |ws| ==> Cumulative(ws)[j] <= Cumulative(ws)[k]
    ensures 0 < |ws| ==> Cumulative(ws)[|ws| - 1] == Sum(ws)
  {
    forall j, k | 0 <= j <= k < |ws|
      ensures Cumulative(ws)[j] <= Cumulative(ws)[k]
    {
      CumulativeEntry(ws, j);
      CumulativeEntry(ws, k);
      SumPrefixMonotone(ws, j + 1, k + 1);
    }
  }

  /** Every attractiveness is in [0, 100] when `exp` is non-negative. */
  lemma {:induction false} AttractionBounds(s: Settings, exp: real -> real, male: Individual, p: real, meanOrn: real)
    requires KnownPreference(s.pref)
    requires forall x :: 0.0 <= exp(x)
    ensures 0.0 <= Attraction(s, exp, male, p, meanOrn) <= MaxAttraction
  {
  }

  lemma {:induction false} ScaledBelow(u: real, total: real)
    requires 0.0 <= u < 1.0 && 0.0 <= total
    ensures Point(u, total) <= total
  {
    assert u * total <= total by {
      assert total - u * total == (1.0 - u) * total;
    }
  }

  /** A point no larger than the total of non-negative weights is reached
      by some entry of their cumulative distribution. */
  lemma {:induction false} WheelStops(ws: seq<real>, r: real)
    requires 0 < |ws| && forall i :: 0 <= i < |ws| ==> 0.0 <= ws[i]
    requires r <= Sum(ws)
    ensures FirstAtLeast(Cumulative(ws), r, 0).Some?
  {
    CumulativeIsDistribution(ws);
    FirstAtLeastIsFirst(Cumulative(ws), r, 0);
  }

  lemma {:induction false} WeightsNonNegative(males: seq<Individual>, cands: seq<nat>, w: Individual -> real)
    requires forall m :: 0.0 <= w(m)
    ensures NonNegative(Weights(males, cands, w))
  {
    forall j | 0 <= j < |cands|
      ensures 0.0 <= Weights(males, cands, w)[j]
    {
      WeightsEntry(males, cands, w, j);
    }
  }

  /** With non-negative weights and a draw in [0, 1) the wheel stops at a
      candidate. */
  lemma {:induction false} RouletteStops(cands: seq<nat>, ws: seq<real>, u: real, fallback: nat)
    requires |ws| == |cands| && 0 < |ws|
    requires forall i :: 0 <= i < |ws| ==> 0.0 <= ws[i]
    requires 0.0 <= u < 1.0
    ensures Roulette(cands, ws, u, fallback) in cands
  {
    var total := Sum(ws);
    SumNonNegative(ws);
    ScaledBelow(u, total);
    WheelStops(ws, Point(u, total));
    var first := FirstAtLeast(Cumulative(ws), Point(u, total), 0);
    assert Roulette(cands, ws, u, fallback) == cands[first.value];
  }

  lemma {:induction false} ChooseAtKnown(src: Source, pos: nat, p: real, males: seq<Individual>, meanOrn: real,
                      s: Settings, exp: real -> real)
    requires WellFormed(src) && 0 < |males| && KnownPreference(s.pref)
    ensures var k := SampleSize(|males|);
            var cands := Sampled(src, pos, k, |males|);
            ChooseAt(src, pos, p, males, meanOrn, s, exp).0
              == Some(Roulette(cands, Weights(males, cands, AttractionOf(s, exp, p, meanOrn)),
                               src.uniform(pos + k), src.index(pos + k + 1, |males|)))
  {
  }

  /** The father is one of the sampled candidates or the default draw. */
  lemma {:induction false} ChooseAtCandidate(src: Source, pos: nat, p: real, males: seq<Individual>, meanOrn: real,
                          s: Settings, exp: real -> real)
    requires WellFormed(src) && 0 < |males|
    ensures var r := ChooseAt(src, pos, p, males, meanOrn, s, exp);
            r.0.Some? ==>
              || r.0.value in Sampled(src, pos, SampleSize(|males|), |males|)
              || r.0.value == src.index(pos + SampleSize(|males|) + 1, |males|)
  {
    if KnownPreference(s.pref) {
      ChooseAtKnown(src, pos, p, males, meanOrn, s, exp);
    }
  }

  /** The father is always a sampled candidate when every attractiveness
      of the sample is non-negative. */
  lemma {:induction false} ChooseAtSampled(src: Source, pos: nat, p: real, males: seq<Individual>,
                                           meanOrn: real, s: Settings, exp: real -> real)
    requires WellFormed(src) && 0 < |males| && KnownPreference(s.pref)
    requires NonNegative(Weights(males, Sampled(src, pos, SampleSize(|males|), |males|), AttractionOf(s, exp, p, meanOrn)))
    ensures var r := ChooseAt(src, pos, p, males, meanOrn, s, exp);
            r.0.Some? && r.0.value in Sampled(src, pos, SampleSize(|males|), |males|)
  {
    ChooseWithSampled(src, pos, males, AttractionOf(s, exp, p, meanOrn));
  }

  /** `ChooseWithSampled` for any attractiveness `w` that is non-negative
      on the sample. */
  lemma {:induction false} ChooseWithSampled(src: Source, pos: nat, males: seq<Individual>, w: Individual -> real)
    requires WellFormed(src) && 0 < |males|
    requires NonNegative(Weights(males, Sampled(src, pos, SampleSize(|males|), |males|), w))
    ensures ChooseWith(src, pos, males, w, true).0.value in Sampled(src, pos, SampleSize(|males|), |males|)
  {
    var k := SampleSize(|males|);
    var cands := Sampled(src, pos, k, |males|);
    var ws := Weights(males, cands, w);
    assert NonNegative(ws);
    var u, fallback := UniformAt(src, pos + k), IndexAt(src, pos + k + 1, |males|);
    assert ChooseWith(src, pos, males, w, true).0 == Some(Roulette(cands, ws, u, fallback));
    RouletteStops(cands, ws, u, fallback);
  }

  /** With a non-negative `exp` the default draw is never the father. */
  lemma {:induction false} FallbackNeverUsed(src: Source, pos: nat, p: real, males: seq<Individual>,
                                             meanOrn: real, s: Settings, exp: real -> real)
    requires WellFormed(src) && 0 < |males| && KnownPreference(s.pref)
    requires forall x :: 0.0 <= exp(x)
    ensures var r := ChooseAt(src, pos, p, males, meanOrn, s, exp);
            r.0.Some? && r.0.value in Sampled(src, pos, SampleSize(|males|), |males|)
  {
    var cands := Sampled(src, pos, SampleSize(|males|), |males|);
    var w := AttractionOf(s, exp, p, meanOrn);
    forall m: Individual
      ensures 0.0 <= w(m)
    {
      AttractionBounds(s, exp, m, p, meanOrn);
    }
    WeightsNonNegative(males, cands, w);
    ChooseAtSampled(src, pos, p, males, meanOrn, s, exp);
  }



  /** `Choose` for each surviving female in turn, with her expressed
      preference, the draws of one following those of the one before.
      Returns the fathers, None once the program stops at an unknown
      selector, and the next draw position. */
  function ChooseAll(src: Source, pos: nat, females: seq<Individual>, males: seq<Individual>, meanOrn: real,
                     s: Settings, exp: real -> real): (r: (Option<seq<nat>>, nat))
    requires WellFormed(src) && 0 < |males|
    ensures r.0.Some? ==> |r.0.value| == |females| && forall j :: 0 <= j < |females| ==> r.0.value[j] < |males|
    ensures r.0.None? <==> 0 < |females| && !KnownPreference(s.pref)
    ensures r.0.None? ==> r.1 == pos + 1
    decreases |females|
  {
    if females == [] then (Some([]), pos)
    else
      var n := |females| - 1;
      var before := ChooseAll(src, pos, females[..n], males, meanOrn, s, exp);
      match before.0
      case None => before
      case Some(fathers) =>
        var c := ChooseAt(src, before.1, females[n].p_expr, males, meanOrn, s, exp);
        (if c.0.Some? then Some(fathers + [c.0.value]) else None, c.1)
  }

  /** One more female: the first i + 1 females of a sequence, given the
      fathers chosen by the first i and the draw position after them. */
  lemma {:induction false} ChooseAllPrefix(src: Source, pos: nat, females: seq<Individual>, i: nat,
                                           males: seq<Individual>, meanOrn: real, s: Settings, exp: real -> real,
                                           fathers: seq<nat>, at: nat)
    requires WellFormed(src) && 0 < |males| && i < |females|
    requires ChooseAll(src, pos, females[..i], males, meanOrn, s, exp) == (Some(fathers), at)
    ensures var c := ChooseAt(src, at, females[i].p_expr, males, meanOrn, s, exp);
            ChooseAll(src, pos, females[..i + 1], males, meanOrn, s, exp)
              == (if c.0.Some? then Some(fathers + [c.0.value]) else None, c.1)
  {
    assert females[..i + 1][..i] == females[..i];
  }

  /** With a known selector every female makes SampleSize + 2 draws. */
  lemma {:induction false} ChooseAllDraws(src: Source, pos: nat, females: seq<Individual>, males: seq<Individual>,
                                          meanOrn: real, s: Settings, exp: real -> real)
    requires WellFormed(src) && 0 < |males| && KnownPreference(s.pref)
    ensures ChooseAll(src, pos, females, males, meanOrn, s, exp).1 == pos + |females| * (SampleSize(|males|) + 2)
    decreases |females|
  {
    if females != [] {
      var n := |females| - 1;
      var k := SampleSize(|males|) + 2;
      var before := ChooseAll(src, pos, females[..n], males, meanOrn, s, exp);
      ChooseAllDraws(src, pos, females[..n], males, meanOrn, s, exp);
      var c := ChooseAt(src, before.1, females[n].p_expr, males, meanOrn, s, exp);
      assert ChooseAll(src, pos, females, males, meanOrn, s, exp).1 == c.1 == before.1 + k;
      MulSucc(n, k);
    }
  }

  /** (n + 1) k unfolded, on its own so that the induction above sees no
      product of two variables. */
  lemma MulSucc(n: nat, k: nat)
    ensures n * k + k == (n + 1) * k
  {
  }

  // ---------------------------------------------------------------------
  // Egg counts

  /** The number of entries of `fathers` equal to `m`: the number of
      females that chose male m. */
  function Count(fathers: seq<nat>, m: nat): (c: nat)
    ensures c <= |fathers|
    decreases |fathers|
  {
    if fathers == [] then 0
    else Count(fathers[..|fathers| - 1], m) + (if fathers[|fathers| - 1] == m then 1 else 0)
  }

  lemma {:induction false} CountSnoc(fathers: seq<nat>, f: nat, m: nat)
    ensures Count(fathers + [f], m) == Count(fathers, m) + (if f == m then 1 else 0)
  {
    assert (fathers + [f])[..|fathers|] == fathers;
  }

  /** A male has a positive count exactly when some female chose him. */
  lemma {:induction false} CountPositive(fathers: seq<nat>, m: nat)
    ensures 0 < Count(fathers, m) <==> m in fathers
    decreases |fathers|
  {
    if fathers != [] {
      var n := |fathers| - 1;
      CountPositive(fathers[..n], m);
      assert fathers == fathers[..n] + [fathers[n]];
    }
  }

  /** The counts of males 0 .. m - 1 together. */
  function CountBelow(fathers: seq<nat>, m: nat): nat
    decreases m
  {
    if m == 0 then 0 else CountBelow(fathers, m - 1) + Count(fathers, m - 1)
  }

  lemma {:induction false} CountBelowSnoc(fathers: seq<nat>, f: nat, m: nat)
    ensures CountBelow(fathers + [f], m) == CountBelow(fathers, m) + (if f < m then 1 else 0)
    decreases m
  {
    if m > 0 {
      CountBelowSnoc(fathers, f, m - 1);
      CountSnoc(fathers, f, m - 1);
    }
  }

  /** When every father is one of the first `m` males, their counts add
      up to the number of females: the father eggs of a generation add up
      to its mother eggs. */
  lemma {:induction false} CountsAddUp(fathers: seq<nat>, m: nat)
    requires forall j :: 0 <= j < |fathers| ==> fathers[j] < m
    ensures CountBelow(fathers, m) == |fathers|
    decreases |fathers|
  {
    if fathers == [] {
      ZeroCountBelow(m);
    } else {
      var n := |fathers| - 1;
      CountsAddUp(fathers[..n], m);
      CountBelowSnoc(fathers[..n], fathers[n], m);
      assert fathers[..n] + [fathers[n]] == fathers;
    }
  }

  lemma {:induction false} ZeroCountBelow(m: nat)
    ensures CountBelow([], m) == 0
    decreases m
  {
    if m > 0 {
      ZeroCountBelow(m - 1);
    }
  }

  // ---------------------------------------------------------------------
  // The next generation

  /** One sampled offspring: the parent-table row it was drawn from, the
      kid, and whether it became a son. */
  datatype Birth = Birth(row: nat, kid: Individual, son: bool)

  /** Entry `i` of `v`, or a blank individual past its end. */
  function Member(v: seq<Individual>, i: nat): (x: Individual)
    ensures i < |v| ==> x == v[i]
  {
    if i < |v| then v[i] else Blank
  }

  /** One round of the replacement loop of `NextGen` with the draws from
      `pos` on. Row r of the parent table holds mother r / ClutchSize and
      her mate, so a uniform index into its `|fathers| * ClutchSize` rows
      picks the parents; `Create_Kid` makes the kid, whose expressed values
      become the means of its alleles (every field of the uninitialised
      `Kid` is written, so it starts blank here); a uniform draw below one
      half makes it a son. Past the end of `fathers` the mate is male 0, a
      case the draws of a well-formed source never reach. */
  function BirthAt(src: Source, pos: nat, fathers: seq<nat>, fsurv: seq<Individual>, msurv: seq<Individual>,
                   s: Settings): (Birth, nat)
  {
    var row := IndexAt(src, pos, |fathers| * ClutchSize);
    var mother := row / ClutchSize;
    var father := if mother < |fathers| then fathers[mother] else 0;
    var k := KidAt(src, pos + 1, Member(fsurv, mother), Member(msurv, father), Blank, s);
    var kid := k.0.(t_expr := Expressed(k.0.t), p_expr := Expressed(k.0.p));
    (Birth(row, kid, UniformAt(src, k.1) < 0.5), k.1 + 1)
  }

  /** `BirthAt` with the row drawn and the kid made given by name. */
  lemma {:induction false} BirthAtParts(src: Source, pos: nat, fathers: seq<nat>, fsurv: seq<Individual>,
                                        msurv: seq<Individual>, s: Settings, row: nat, kid: Individual, next: nat)
    requires WellFormed(src) && 0 < |fathers|
    requires row == IndexAt(src, pos, |fathers| * ClutchSize)
    requires (kid, next) == KidAt(src, pos + 1, Member(fsurv, row / ClutchSize),
                                  Member(msurv, fathers[row / ClutchSize]), Blank, s)
    ensures BirthAt(src, pos, fathers, fsurv, msurv, s).0
            == Birth(row, kid.(t_expr := Expressed(kid.t), p_expr := Expressed(kid.p)), UniformAt(src, next) < 0.5)
    ensures BirthAt(src, pos, fathers, fsurv, msurv, s).1 == next + 1
  {
  }

  /** `bf` gives, at every draw position, the round `BirthAt` gives. */
  ghost predicate Breeds(bf: nat -> (Birth, nat), src: Source, fathers: seq<nat>, fsurv: seq<Individual>,
                         msurv: seq<Individual>, s: Settings)
  {
    forall pos: nat {:trigger BirthAt(src, pos, fathers, fsurv, msurv, s)} ::
      bf(pos) == BirthAt(src, pos, fathers, fsurv, msurv, s)
  }

  /** The first `n` rounds of the replacement loop, each starting where
      the one before it stopped: the births in order and the next draw
      position. */
  function Offspring(src: Source, pos: nat, fathers: seq<nat>, fsurv: seq<Individual>, msurv: seq<Individual>,
                     n: nat, s: Settings): (r: (seq<Birth>, nat))
    ensures |r.0| == n
    decreases n
  {
    if n == 0 then ([], pos)
    else
      var before := Offspring(src, pos, fathers, fsurv, msurv, n - 1, s);
      var b := BirthAt(src, before.1, fathers, fsurv, msurv, s);
      (before.0 + [b.0], b.1)
  }

  /** Some `bf` gives the rounds `BirthAt` gives. */
  lemma BreedsSome(src: Source, fathers: seq<nat>, fsurv: seq<Individual>, msurv: seq<Individual>, s: Settings)
    ensures exists bf :: Breeds(bf, src, fathers, fsurv, msurv, s)
  {
    var bf := (pos: nat) => BirthAt(src, pos, fathers, fsurv, msurv, s);
    assert Breeds(bf, src, fathers, fsurv, msurv, s);
  }

  /** `n` rounds of a `bf` that gives the rounds `BirthAt` gives are the
      first `n` rounds of the replacement loop. */
  lemma {:induction false} BreedsOffspring(bf: nat -> (Birth, nat), src: Source, pos: nat, fathers: seq<nat>,
                                           fsurv: seq<Individual>, msurv: seq<Individual>, n: nat, s: Settings)
    requires Breeds(bf, src, fathers, fsurv, msurv, s)
    ensures Rounds(bf, pos, n) == Offspring(src, pos, fathers, fsurv, msurv, n, s)
    decreases n
  {
    if 0 < n {
      BreedsOffspring(bf, src, pos, fathers, fsurv, msurv, n - 1, s);
      var before := Offspring(src, pos, fathers, fsurv, msurv, n - 1, s);
      assert bf(before.1) == BirthAt(src, before.1, fathers, fsurv, msurv, s);
    }
  }

  /** `xs` with its first `n` entries set to zero. */
  function Cleared(xs: seq<int>, n: nat): (r: seq<int>)
    ensures |r| == |xs|
  {
    seq(|xs|, i requires 0 <= i < |xs| => if i < n then 0 else xs[i])
  }

  /** The kid of one round descends, as `Create_Kid` allows, from the
      surviving female of the row drawn and from the male she chose. */
  lemma BirthDescends(src: Source, pos: nat, fathers: seq<nat>, fsurv: seq<Individual>,
                      msurv: seq<Individual>, s: Settings)
    requires WellFormed(src) && 0 < |fathers| == |fsurv|
    requires forall i :: 0 <= i < |fathers| ==> fathers[i] < |msurv|
    ensures var b := BirthAt(src, pos, fathers, fsurv, msurv, s).0;
            && b.row < |fathers| * ClutchSize
            && KidOf(b.kid, fsurv[b.row / ClutchSize], msurv[fathers[b.row / ClutchSize]], s)
  {
    var mother := IndexAt(src, pos, |fathers| * ClutchSize) / ClutchSize;
    KidAtSpec(src, pos + 1, fsurv[mother], msurv[fathers[mother]], Blank, s);
  }

  /** One round takes 10 to 18 draws: the row, the 8 to 16 of
      `Create_Kid`, and the sex. */
  lemma BirthDraws(src: Source, pos: nat, fathers: seq<nat>, fsurv: seq<Individual>,
                   msurv: seq<Individual>, s: Settings)
    requires WellFormed(src) && 0 < |fathers|
    ensures pos + 10 <= BirthAt(src, pos, fathers, fsurv, msurv, s).1 <= pos + 18
  {
    var mother := IndexAt(src, pos, |fathers| * ClutchSize) / ClutchSize;
    KidAtSpec(src, pos + 1, Member(fsurv, mother), Member(msurv, fathers[mother]), Blank, s);
  }

  /** Every kid of the next generation descends, as `Create_Kid` allows,
      from the surviving female of the row it was drawn from and from the
      male she chose. */
  lemma {:induction false} OffspringDescend(src: Source, pos: nat, fathers: seq<nat>, fsurv: seq<Individual>,
                                            msurv: seq<Individual>, n: nat, s: Settings, j: nat)
    requires WellFormed(src) && 0 < |fathers| == |fsurv|
    requires forall i :: 0 <= i < |fathers| ==> fathers[i] < |msurv|
    requires j < n
    ensures var b := Offspring(src, pos, fathers, fsurv, msurv, n, s).0[j];
            && b.row < |fathers| * ClutchSize
            && KidOf(b.kid, fsurv[b.row / ClutchSize], msurv[fathers[b.row / ClutchSize]], s)
    decreases n
  {
    var before := Offspring(src, pos, fathers, fsurv, msurv, n - 1, s);
    assert Offspring(src, pos, fathers, fsurv, msurv, n, s).0
           == before.0 + [BirthAt(src, before.1, fathers, fsurv, msurv, s).0];
    if j < n - 1 {
      OffspringDescend(src, pos, fathers, fsurv, msurv, n - 1, s, j);
    } else {
      BirthDescends(src, before.1, fathers, fsurv, msurv, s);
    }
  }

  /** Each round of the replacement loop takes 10 to 18 draws. */
  lemma {:induction false} OffspringDraws(src: Source, pos: nat, fathers: seq<nat>, fsurv: seq<Individual>,
                                          msurv: seq<Individual>, n: nat, s: Settings)
    requires WellFormed(src) && 0 < |fathers|
    ensures var r := Offspring(src, pos, fathers, fsurv, msurv, n, s);
            pos + 10 * n <= r.1 <= pos + 18 * n
    decreases n
  {
    if 0 < n {
      var before := Offspring(src, pos, fathers, fsurv, msurv, n - 1, s);
      OffspringDraws(src, pos, fathers, fsurv, msurv, n - 1, s);
      BirthDraws(src, before.1, fathers, fsurv, msurv, s);
      assert Offspring(src, pos, fathers, fsurv, msurv, n, s).1 == BirthAt(src, before.1, fathers, fsurv, msurv, s).1;
      assert 10 * n == 10 * (n - 1) + 10 && 18 * n == 18 * (n - 1) + 18;
    }
  }

  /** The kids of the births, in order. */
  function Kids(bs: seq<Birth>): (ks: seq<Individual>)
    ensures |ks| == |bs| && forall i :: 0 <= i < |bs| ==> ks[i] == bs[i].kid
    decreases |bs|
  {
    if bs == [] then [] else Kids(bs[..|bs| - 1]) + [bs[|bs| - 1].kid]
  }

  /** The kids of the births that made a son (`son`) or a daughter, in
      order. */
  function Brood(bs: seq<Birth>, son: bool): seq<Individual>
    decreases |bs|
  {
    if bs == [] then []
    else
      var n := |bs| - 1;
      Brood(bs[..n], son) + (if bs[n].son == son then [bs[n].kid] else [])
  }

  lemma {:induction false} BroodSnoc(bs: seq<Birth>, b: Birth, son: bool)
    ensures Brood(bs + [b], son) == Brood(bs, son) + (if b.son == son then [b.kid] else [])
  {
    assert (bs + [b])[..|bs|] == bs;
  }

  /** Sons and daughters split the kids: every kid is in exactly one of
      the two. */
  lemma {:induction false} BroodPartition(bs: seq<Birth>)
    ensures multiset(Brood(bs, true)) + multiset(Brood(bs, false)) == multiset(Kids(bs))
    decreases |bs|
  {
    if bs != [] {
      var n := |bs| - 1;
      BroodPartition(bs[..n]);
      assert Kids(bs) == Kids(bs[..n]) + [bs[n].kid];
    }
  }

  /** The numbers of sons and daughters add up to the number of kids. */
  lemma {:induction false} BroodSizes(bs: seq<Birth>)
    ensures |Brood(bs, true)| + |Brood(bs, false)| == |bs|
  {
    BroodPartition(bs);
    assert |multiset(Brood(bs, true)) + multiset(Brood(bs, false))| == |multiset(Kids(bs))|;
  }

  /** The preference function of `Choose` as a function of the male, for
      the given female preference and mean surviving ornament; zero for an
      unknown selector, where the program stops before using it. */
  function AttractionOf(s: Settings, exp: real -> real, p: real, meanOrn: real): Individual -> real
  {
    male => if KnownPreference(s.pref) then Attraction(s, exp, male, p, meanOrn) else 0.0
  }

  /** Appending a candidate extends the cumulative weights by the new
      total, and the total by the candidate's attractiveness. */
  lemma {:induction false} WheelSnoc(males: seq<Individual>, cands: seq<nat>, mate: nat, w: Individual -> real,
                                     cum: seq<real>, total: real)
    requires mate < |males|
    requires cum == Cumulative(Weights(males, cands, w)) && total == Sum(Weights(males, cands, w))
    ensures cum + [total + w(males[mate])] == Cumulative(Weights(males, cands + [mate], w))
    ensures total + w(males[mate]) == Sum(Weights(males, cands + [mate], w))
  {
    var ws := Weights(males, cands, w);
    WeightsSnoc(males, cands, mate, w);
    CumulativeSnoc(ws, w(males[mate]));
    SumSnoc(ws, w(males[mate]));
  }

  /** One round of the first loop of `Choose`, with the sample, the
      running totals and the last total after `j` rounds given by name:
      the next draw `mate` extends all three. */
  lemma {:induction false} SampleStep(src: Source, pos: nat, j: nat, males: seq<Individual>, w: Individual -> real,
                                      cs: seq<nat>, fs: seq<real>, total: real, mate: nat, po: real)
    requires WellFormed(src) && 0 < |males|
    requires cs == Sampled(src, pos, j, |males|)
    requires fs == Cumulative(Weights(males, cs, w)) && total == Sum(Weights(males, cs, w))
    requires mate == IndexAt(src, pos + j, |males|) && mate < |males| && po == w(males[mate])
    ensures cs + [mate] == Sampled(src, pos, j + 1, |males|)
    ensures fs + [total + po] == Cumulative(Weights(males, cs + [mate], w))
    ensures total + po == Sum(Weights(males, cs + [mate], w))
  {
    SampledSnoc(src, pos, j, |males|);
    WheelSnoc(males, cs, mate, w, fs, total);
  }

  /** `ChooseWith` for a known selector, with the sample, its cumulative
      weights and their total given by name. */
  lemma {:induction false} ChooseWithKnown(src: Source, pos: nat, males: seq<Individual>, w: Individual -> real,
                                           known: bool, n: nat, k: nat, cs: seq<nat>, fs: seq<real>, total: real,
                                           chosen: nat, next: nat)
    requires WellFormed(src) && known && 0 < |males| == n && k == SampleSize(n)
    requires cs == Sampled(src, pos, k, n)
    requires fs == Cumulative(Weights(males, cs, w))
    requires total == Sum(Weights(males, cs, w))
    requires chosen == Wheel(fs, cs, Point(UniformAt(src, pos + SampleSize(|males|)), total),
                             IndexAt(src, pos + SampleSize(|males|) + 1, n))
    requires next == pos + SampleSize(|males|) + 2
    ensures ChooseWith(src, pos, males, w, known) == (Some(chosen), next)
  {
    var ws := Weights(males, cs, w);
    ChooseWithKnownIs(src, pos, males, w, known, n, k, cs, ws);
    RouletteIs(cs, ws, UniformAt(src, pos + SampleSize(|males|)), IndexAt(src, pos + SampleSize(|males|) + 1, n),
               fs, total, chosen);
  }

  /** The end of `Choose` for a known selector: the sample of `k` drawn
      from `pos` on, recorded with the running totals of its weights, and
      the wheel spun with the two draws from `at = pos + k` on, give the
      father `ChooseWith` picks and the draw position `next = at + 2`. */
  lemma ChooseWithSpun(src: Source, pos: nat, males: seq<Individual>, w: Individual -> real,
                       known: bool, n: nat, k: nat, cs: seq<nat>, fs: seq<real>, total: real,
                       at: nat, chosen: nat, next: nat)
    requires WellFormed(src) && known && 0 < |males| == n && k == SampleSize(n)
    requires at == pos + k && next == at + 2
    requires cs == Sampled(src, pos, k, n)
    requires fs == Cumulative(Weights(males, cs, w))
    requires total == Sum(Weights(males, cs, w))
    requires chosen == Wheel(fs, cs, Point(UniformAt(src, at), total), IndexAt(src, at + 1, n))
    ensures ChooseWith(src, pos, males, w, known) == (Some(chosen), next)
  {
    SpinPositions(at, pos, k, n, males, next);
    WheelAt(src, at, pos, males, fs, cs, total, n, chosen);
    ChooseWithKnown(src, pos, males, w, known, n, k, cs, fs, total, chosen, next);
  }

  /** The draw position `at` after a sample of `k = SampleSize(n)` from
      `pos` on, and the position `next` two draws later, written in the
      terms `ChooseWith` uses. */
  lemma SpinPositions(at: nat, pos: nat, k: nat, n: nat, males: seq<Individual>, next: nat)
    requires at == pos + k && k == SampleSize(n) && n == |males| && next == at + 2
    ensures at == pos + SampleSize(|males|) && next == pos + SampleSize(|males|) + 2
  {
  }

  /** The wheel spun with the draws at position `at`, read at the same
      position written as `pos + SampleSize(|males|)`. */
  lemma WheelAt(src: Source, at: nat, pos: nat, males: seq<Individual>, fs: seq<real>, cs: seq<nat>, total: real,
                n: nat, chosen: nat)
    requires |fs| == |cs| && at == pos + SampleSize(|males|)
    requires chosen == Wheel(fs, cs, Point(UniformAt(src, at), total), IndexAt(src, at + 1, n))
    ensures chosen == Wheel(fs, cs, Point(UniformAt(src, pos + SampleSize(|males|)), total),
                            IndexAt(src, pos + SampleSize(|males|) + 1, n))
  {
  }

  /** `ChooseWith` for a known selector, unfolded, with the sample and its
      weights given by name. */
  lemma ChooseWithKnownIs(src: Source, pos: nat, males: seq<Individual>, w: Individual -> real, known: bool,
                          n: nat, k: nat, cs: seq<nat>, ws: seq<real>)
    requires WellFormed(src) && known && 0 < |males| == n && k == SampleSize(n)
    requires cs == Sampled(src, pos, k, n) && ws == Weights(males, cs, w)
    ensures |ws| == |cs|
    ensures ChooseWith(src, pos, males, w, known)
         == (Some(Roulette(cs, ws, UniformAt(src, pos + SampleSize(|males|)), IndexAt(src, pos + SampleSize(|males|) + 1, n))),
             pos + SampleSize(|males|) + 2)
  {
    ChooseWithIs(src, pos, males, w, known);
  }

  /** `ChooseWith` for a known selector, unfolded. */
  lemma ChooseWithIs(src: Source, pos: nat, males: seq<Individual>, w: Individual -> real, known: bool)
    requires WellFormed(src) && 0 < |males| && known
    ensures var k := SampleSize(|males|);
            var cands := Sampled(src, pos, k, |males|);
            var father := Roulette(cands, Weights(males, cands, w), UniformAt(src, pos + k), IndexAt(src, pos + k + 1, |males|));
            ChooseWith(src, pos, males, w, known) == (Some(father), pos + k + 2)
  {
  }

  /** The roulette wheel, with its cumulative weights, their total and its
      result given by name. */
  lemma RouletteIs(cs: seq<nat>, ws: seq<real>, u: real, fallback: nat, fs: seq<real>, total: real, chosen: nat)
    requires |ws| == |cs| && fs == Cumulative(ws) && total == Sum(ws)
    requires chosen == Wheel(fs, cs, Point(u, total), fallback)
    ensures Roulette(cs, ws, u, fallback) == chosen
  {
  }

  /** `ChooseWith` for an unknown selector: no father, one draw. */
  lemma ChooseWithUnknown(src: Source, pos: nat, males: seq<Individual>, w: Individual -> real, known: bool)
    requires WellFormed(src) && 0 < |males| && !known
    ensures ChooseWith(src, pos, males, w, known) == (None, pos + 1)
  {
  }

  /** `a[len] = x`, read as appending to the first `len` entries. */
  method Push<T>(a: array<T>, len: nat, x: T)
    requires len < a.Length
    modifies a
    ensures a[..len + 1] == old(a[..len]) + [x]
    ensures forall j :: len < j < a.Length ==> a[j] == old(a[j])
  {
    a[len] := x;
    assert a[..len + 1] == old(a[..len]) + [x];
  }

  // ---------------------------------------------------------------------
  // The engine

  class Engine {
    const s: Settings
    const rng: Rng
    const females: array<Individual>
    const males: array<Individual>
    const femaleSurvivors: array<Individual>
    const maleSurvivors: array<Individual>
    /** Row r holds the mother and father index of the r-th offspring. */
    const parents: array2<int>
    const fatherEggs: array<int>
    const motherEggs: array<int>
    var popsize: nat
    var nFemales: nat
    var nMales: nat
    var fSurvivors: nat
    var mSurvivors: nat
    var meanOrnSurv: real
    var doStats: bool

    ghost predicate Valid()
      reads this
    {
      && rng.Valid()
      && females.Length == N && males.Length == N
      && femaleSurvivors.Length == N && maleSurvivors.Length == N
      && parents.Length0 == N * ClutchSize && parents.Length1 == 2
      && fatherEggs.Length == N && motherEggs.Length == N
      && females != males && females != femaleSurvivors && females != maleSurvivors
      && males != femaleSurvivors && males != maleSurvivors
      && femaleSurvivors != maleSurvivors
      && fatherEggs != motherEggs
      && nFemales + nMales == popsize <= N
      && fSurvivors <= N && mSurvivors <= N
    }

    /** The globals as the program starts: zeroed arrays, a population of
        N split evenly, no survivors yet. */
    constructor (settings: Settings, rng: Rng)
      requires rng.Valid()
      ensures Valid() && s == settings && this.rng == rng
      ensures fresh(females) && fresh(males) && fresh(femaleSurvivors) && fresh(maleSurvivors)
      ensures fresh(parents) && fresh(fatherEggs) && fresh(motherEggs)
      ensures popsize == N && nFemales == N / 2 && nMales == N / 2
      ensures fSurvivors == 0 && mSurvivors == 0 && meanOrnSurv == 0.0 && !doStats
      ensures forall i :: 0 <= i < N ==>
                && females[i] == Blank && males[i] == Blank
                && femaleSurvivors[i] == Blank && maleSurvivors[i] == Blank
                && fatherEggs[i] == 0 && motherEggs[i] == 0
      ensures forall r, c :: 0 <= r < N * ClutchSize && 0 <= c < 2 ==> parents[r, c] == 0
    {
      s := settings;
      this.rng := rng;
      females := new Individual[N](_ => Blank);
      males := new Individual[N](_ => Blank);
      femaleSurvivors := new Individual[N](_ => Blank);
      maleSurvivors := new Individual[N](_ => Blank);
      parents := new int[N * ClutchSize, 2]((_, _) => 0);
      fatherEggs := new int[N](_ => 0);
      motherEggs := new int[N](_ => 0);
      popsize := N;
      nFemales := N / 2;
      nMales := N / 2;
      fSurvivors := 0;
      mSurvivors := 0;
      meanOrnSurv := 0.0;
      doStats := false;
    }

    /** The body of one `Init` iteration: both alleles of both loci, then
        the expressed values. */
    static method InitOne(ind: Individual, s: Settings) returns (r: Individual)
      ensures r == Initial(s)
    {
      r := ind;
      for j := 0 to 2
        invariant forall l :: 0 <= l < j ==> r.t[l] == s.init_t && r.p[l] == s.init_p
      {
        r := r.(t := r.t[j := s.init_t], p := r.p[j := s.init_p]);
      }
      r := r.(t_expr := s.init_t, p_expr := s.init_p);
      assert r.t == Homozygous(s.init_t) && r.p == Homozygous(s.init_p);
    }

    /** `Init`: the first Nfemales females and the first Nmales males
        become initial individuals; the rest of the arrays is untouched. */
    method Init()
      requires Valid()
      modifies females, males
      ensures forall i :: 0 <= i < nFemales ==> females[i] == Initial(s)
      ensures forall i :: nFemales <= i < N ==> females[i] == old(females[i])
      ensures forall i :: 0 <= i < nMales ==> males[i] == Initial(s)
      ensures forall i :: nMales <= i < N ==> males[i] == old(males[i])
    {
      for i := 0 to nFemales
        invariant forall k :: 0 <= k < i ==> females[k] == Initial(s)
        invariant forall k :: i <= k < N ==> females[k] == old(females[k])
        invariant forall k :: 0 <= k < N ==> males[k] == old(males[k])
      {
        females[i] := InitOne(females[i], s);
      }
      for i := 0 to nMales
        invariant forall k :: 0 <= k < i ==> males[k] == Initial(s)
        invariant forall k :: i <= k < N ==> males[k] == old(males[k])
        invariant forall k :: 0 <= k < nFemales ==> females[k] == Initial(s)
        invariant forall k :: nFemales <= k < N ==> females[k] == old(females[k])
      {
        males[i] := InitOne(males[i], s);
      }
    }

    /** `mutate` on the shared engine. */
    method Mutate(g: real, mu: real, sdmu: real, bias: real) returns (x: real)
      requires Valid()
      modifies rng
      ensures (x, rng.pos) == MutatedAt(rng.src, old(rng.pos), g, mu, bias)
    {
      x := g;
      var u := rng.Uniform();
      if u < mu {
        var step := rng.Uniform();
        var effect := MaxStep * step;
        var v := rng.Uniform();
        x := x + (if v < bias then -effect else effect);
      }
    }

    /** One allele of `Create_Kid`: a segregation draw, then `mutate`. */
    method Inherit(l: Locus, mu: real, sdmu: real, bias: real) returns (x: real)
      requires Valid()
      modifies rng
      ensures (x, rng.pos) == AlleleAt(rng.src, old(rng.pos), l, mu, bias)
    {
      var b := rng.Coin();
      x := Mutate(l[Side(b)], mu, sdmu, bias);
    }

    /** `Create_Kid(mother, father, kid)`: the mother and father are indices
        into the survivor arrays, which `Create_Kid` asserts are in range. */
    method CreateKid(mother: int, father: int, kid: Individual, ghost m: Individual, ghost f: Individual)
      returns (r: Individual)
      requires Valid() && 0 <= mother < fSurvivors && 0 <= father < mSurvivors
      requires femaleSurvivors[mother] == m && maleSurvivors[father] == f
      modifies rng
      ensures (r, rng.pos) == KidAt(rng.src, old(rng.pos), m, f, kid, s)
    {
      var m, f := femaleSurvivors[mother], maleSurvivors[father];
      var t0 := Inherit(m.t, s.mu_t, s.sdmu_t, s.biast);
      var t1 := Inherit(f.t, s.mu_t, s.sdmu_t, s.biast);
      var p0 := Inherit(m.p, s.mu_p, s.sdmu_p, 0.5);
      var p1 := Inherit(f.p, s.mu_p, s.sdmu_p, 0.5);
      r := kid.(t := [t0, t1], p := [p0, p1]);
      InheritsFour(rng.src, old(rng.pos), Genes(m, f, s));
    }

    /** One survival loop: each of the first `count` individuals of `from`
        takes a uniform draw and is appended to `to` when the draw is below
        its survival probability. Also returns the sum of the kept
        individuals' expressed ornaments. */
    static method Sift(rng: Rng, from: array<Individual>, count: nat, to: array<Individual>,
                       w: Individual -> real)
      returns (kept: nat, ornaments: real)
      requires rng.Valid() && count <= from.Length == to.Length && from != to
      modifies to, rng
      ensures kept <= count
      ensures to[..kept] == Kept(old(from[..]), count, rng.src.uniform, old(rng.pos), w)
      ensures ornaments == SumOrnament(to[..kept])
      ensures forall j :: kept <= j < to.Length ==> to[j] == old(to[j])
      ensures rng.pos == old(rng.pos) + count
    {
      ghost var start, v := rng.pos, from[..];
      ghost var survivors: seq<Individual> := [];
      kept, ornaments := 0, 0.0;
      for i := 0 to count
        invariant rng.pos == start + i && kept <= i && from[..] == v
        invariant survivors == Kept(v, i, rng.src.uniform, start, w)
        invariant to[..kept] == survivors && ornaments == SumOrnament(survivors)
        invariant forall j :: kept <= j < to.Length ==> to[j] == old(to[j])
      {
        kept, ornaments, survivors := SiftStep(rng, from, to, i, kept, ornaments, w, v, start, survivors);
      }
    }

    /** One round of a survival loop: individual `i` takes its draw. */
    static method SiftStep(rng: Rng, from: array<Individual>, to: array<Individual>, i: nat, kept: nat,
                           ornaments: real, w: Individual -> real, ghost v: seq<Individual>, ghost start: nat,
                           ghost survivors: seq<Individual>)
      returns (newKept: nat, newOrnaments: real, ghost newSurvivors: seq<Individual>)
      requires rng.Valid() && i < from.Length == to.Length && from != to && v == from[..]
      requires rng.pos == start + i && kept <= i
      requires survivors == Kept(v, i, rng.src.uniform, start, w)
      requires to[..kept] == survivors && ornaments == SumOrnament(survivors)
      modifies to, rng
      ensures rng.pos == start + i + 1 && newKept <= i + 1 && from[..] == v
      ensures newSurvivors == Kept(v, i + 1, rng.src.uniform, start, w)
      ensures to[..newKept] == newSurvivors && newOrnaments == SumOrnament(newSurvivors)
      ensures kept <= newKept && forall j :: newKept <= j < to.Length ==> to[j] == old(to[j])
    {
      var draw := rng.Uniform();
      newKept, newOrnaments := Admit(to, kept, ornaments, from[i], draw, w, v, i, rng.src.uniform, start);
      newSurvivors := to[..newKept];
    }

    /** The rest of a round of a survival loop once individual `i`, `x`,
        has drawn `draw`: append it when the draw is below its survival
        probability. */
    static method Admit(to: array<Individual>, kept: nat, ornaments: real, x: Individual, draw: real,
                        w: Individual -> real, ghost v: seq<Individual>, ghost i: nat,
                        ghost u: nat -> real, ghost start: nat)
      returns (newKept: nat, newOrnaments: real)
      requires i < |v| && v[i] == x && draw == u(start + i) && kept <= i < to.Length
      requires to[..kept] == Kept(v, i, u, start, w)
      requires ornaments == SumOrnament(to[..kept])
      modifies to
      ensures newKept <= i + 1
      ensures to[..newKept] == Kept(v, i + 1, u, start, w)
      ensures newOrnaments == SumOrnament(to[..newKept])
      ensures kept <= newKept && forall j :: newKept <= j < to.Length ==> to[j] == old(to[j])
    {
      KeptSnoc(v, i, u, start, w);
      newKept, newOrnaments := kept, ornaments;
      if draw < w(x) {
        SumOrnamentSnoc(to[..kept], x);
        Push(to, kept, x);
        newOrnaments := ornaments + x.t_expr;
        newKept := kept + 1;
      }
    }

    /** Both survival loops of `Survive`: the females take the first
        `nf` draws, the males the next `nm`. */
    static method SiftBoth(rng: Rng, females: array<Individual>, nf: nat, femaleSurvivors: array<Individual>,
                           males: array<Individual>, nm: nat, maleSurvivors: array<Individual>,
                           wf: Individual -> real, wm: Individual -> real)
      returns (fs: nat, ms: nat, ornaments: real)
      requires rng.Valid() && nf <= females.Length == femaleSurvivors.Length
      requires nm <= males.Length == maleSurvivors.Length
      requires females != femaleSurvivors && males != maleSurvivors && femaleSurvivors != maleSurvivors
      requires females != maleSurvivors && males != femaleSurvivors
      modifies femaleSurvivors, maleSurvivors, rng
      ensures fs <= nf && ms <= nm
      ensures femaleSurvivors[..fs] == Kept(old(females[..]), nf, rng.src.uniform, old(rng.pos), wf)
      ensures maleSurvivors[..ms] == Kept(old(males[..]), nm, rng.src.uniform, old(rng.pos) + nf, wm)
      ensures ornaments == SumOrnament(maleSurvivors[..ms])
      ensures forall j :: fs <= j < femaleSurvivors.Length ==> femaleSurvivors[j] == old(femaleSurvivors[j])
      ensures forall j :: ms <= j < maleSurvivors.Length ==> maleSurvivors[j] == old(maleSurvivors[j])
      ensures rng.pos == old(rng.pos) + nf + nm
    {
      ghost var mv, start := males[..], rng.pos;
      var ignored;
      fs, ignored := Sift(rng, females, nf, femaleSurvivors, wf);
      ghost var fKept := femaleSurvivors[..fs];
      assert males[..] == mv && rng.pos == start + nf;
      ms, ornaments := Sift(rng, males, nm, maleSurvivors, wm);
      assert femaleSurvivors[..fs] == fKept;
    }

    /** `Survive`: the females, then the males, are sifted into the
        survivor arrays; the run stops when either sex has no survivor, and
        otherwise `meanornsurv` becomes the mean ornament of the surviving
        males. */
    method Survive(exp: real -> real) returns (status: Status)
      requires Valid()
      modifies this`fSurvivors, this`mSurvivors, this`meanOrnSurv, femaleSurvivors, maleSurvivors, rng
      ensures Valid()
      ensures fSurvivors <= nFemales && mSurvivors <= nMales
      ensures femaleSurvivors[..fSurvivors] ==
              Kept(old(females[..]), nFemales, rng.src.uniform, old(rng.pos), FitnessOf(s, exp, Female))
      ensures maleSurvivors[..mSurvivors] ==
              Kept(old(males[..]), nMales, rng.src.uniform, old(rng.pos) + nFemales, FitnessOf(s, exp, Male))
      ensures forall j :: fSurvivors <= j < N ==> femaleSurvivors[j] == old(femaleSurvivors[j])
      ensures forall j :: mSurvivors <= j < N ==> maleSurvivors[j] == old(maleSurvivors[j])
      ensures rng.pos == old(rng.pos) + nFemales + nMales
      ensures status == Running || status == Extinct
      ensures status == Extinct <==> fSurvivors == 0 || mSurvivors == 0
      ensures status == Extinct ==> meanOrnSurv == SumOrnament(maleSurvivors[..mSurvivors])
      ensures status == Running ==>
                && meanOrnSurv == SumOrnament(maleSurvivors[..mSurvivors]) / mSurvivors as real
                && fSurvivors < popsize && mSurvivors < popsize
    {
      var fs, ms, ornaments :=
        SiftBoth(rng, females, nFemales, femaleSurvivors, males, nMales, maleSurvivors,
                 FitnessOf(s, exp, Female), FitnessOf(s, exp, Male));
      status := Settle(fs, ms, ornaments);
    }

    /** The end of `Survive`: store the survivor counts and the mean
        surviving ornament, and report extinction when either sex has no
        survivor. */
    method Settle(fs: nat, ms: nat, ornaments: real) returns (status: Status)
      requires Valid() && fs <= nFemales && ms <= nMales
      modifies this`fSurvivors, this`mSurvivors, this`meanOrnSurv
      ensures Valid() && fSurvivors == fs && mSurvivors == ms
      ensures status == Running || status == Extinct
      ensures status == Extinct <==> fs == 0 || ms == 0
      ensures status == Extinct ==> meanOrnSurv == ornaments
      ensures status == Running ==> meanOrnSurv == ornaments / ms as real && fs < popsize && ms < popsize
    {
      fSurvivors, mSurvivors := fs, ms;
      if fs == 0 || ms == 0 {
        meanOrnSurv := ornaments;
        return Extinct;
      }
      meanOrnSurv := ornaments / ms as real;
      status := Running;
    }

    /** The first loop of `Choose`: draw `k` candidates from the first `n`
        entries of `pool`, writing each one's index and the running total
        of their attractiveness `w`; the program stops at the first draw
        when the preference selector is unknown (`known` false). */
    static method Assess(rng: Rng, pool: array<Individual>, n: nat, k: nat, known: bool,
                         w: Individual -> real, fitness: array<real>, candidates: array<nat>,
                         ghost males: seq<Individual>)
      returns (ok: bool, sumFitness: real, ghost cs: seq<nat>, ghost fs: seq<real>)
      requires rng.Valid() && 0 < k <= n <= pool.Length && males == pool[..n]
      requires k <= fitness.Length && k <= candidates.Length
      modifies rng, fitness, candidates
      ensures ok == known
      ensures rng.pos == old(rng.pos) + (if known then k else 1)
      ensures candidates[..k] == cs && fitness[..k] == fs
      ensures known ==> cs == Sampled(rng.src, old(rng.pos), k, n)
      ensures known ==> fs == Cumulative(Weights(males, Sampled(rng.src, old(rng.pos), k, n), w))
      ensures known ==> sumFitness == Sum(Weights(males, Sampled(rng.src, old(rng.pos), k, n), w))
    {
      ghost var start := rng.pos;
      sumFitness := 0.0;
      for j := 0 to k
        invariant rng.pos == start + j
        invariant 0 < j ==> known
        invariant candidates[..j] == Sampled(rng.src, start, j, n)
        invariant fitness[..j] == Cumulative(Weights(males, Sampled(rng.src, start, j, n), w))
        invariant sumFitness == Sum(Weights(males, Sampled(rng.src, start, j, n), w))
      {
        var randomMate := rng.UniformIndex(n);
        if !known {
          return false, sumFitness, candidates[..k], fitness[..k];
        }
        sumFitness := Enter(pool, n, w, fitness, candidates, j, sumFitness, randomMate, rng.src, start, males);
      }
      ok, cs, fs := true, candidates[..k], fitness[..k];
    }

    /** The rest of a round of the first loop of `Choose` once the male
        `mate` is drawn: record his index and the new running total. */
    static method Enter(pool: array<Individual>, n: nat, w: Individual -> real,
                        fitness: array<real>, candidates: array<nat>, j: nat, total: real,
                        mate: nat, ghost src: Source, ghost start: nat, ghost males: seq<Individual>)
      returns (newTotal: real)
      requires WellFormed(src) && 0 < n <= pool.Length && males == pool[..n]
      requires j < fitness.Length && j < candidates.Length && mate == IndexAt(src, start + j, n)
      requires candidates[..j] == Sampled(src, start, j, n)
      requires fitness[..j] == Cumulative(Weights(males, Sampled(src, start, j, n), w))
      requires total == Sum(Weights(males, Sampled(src, start, j, n), w))
      modifies fitness, candidates
      ensures candidates[..j + 1] == Sampled(src, start, j + 1, n)
      ensures fitness[..j + 1] == Cumulative(Weights(males, Sampled(src, start, j + 1, n), w))
      ensures newTotal == Sum(Weights(males, Sampled(src, start, j + 1, n), w))
    {
      ghost var cs, fs := candidates[..j], fitness[..j];
      var po := w(pool[mate]);
      assert males[mate] == pool[mate];
      SampleStep(src, start, j, males, w, cs, fs, total, mate, po);
      newTotal := total + po;
      Record(fitness, candidates, j, newTotal, mate);
    }

    /** One entry of the mate sample: `Fitness[j]` and `Candidates[j]`. */
    static method Record(fitness: array<real>, candidates: array<nat>, j: nat, f: real, c: nat)
      requires j < fitness.Length && j < candidates.Length
      modifies fitness, candidates
      ensures fitness[..j + 1] == old(fitness[..j]) + [f]
      ensures candidates[..j + 1] == old(candidates[..j]) + [c]
    {
      fitness[j] := f;
      candidates[j] := c;
      assert fitness[..j + 1] == old(fitness[..j]) + [f];
      assert candidates[..j + 1] == old(candidates[..j]) + [c];
    }

    /** The second loop of `Choose`: the first of the first `k` candidates
        whose cumulative weight reaches `r`, or `fallback` when none does. */
    static method Spin(fitness: array<real>, candidates: array<nat>, k: nat, r: real, fallback: nat)
      returns (chosen: nat)
      requires k <= fitness.Length && k <= candidates.Length
      ensures chosen == Wheel(fitness[..k], candidates[..k], r, fallback)
    {
      chosen := fallback;
      for j := 0 to k
        invariant FirstAtLeast(fitness[..k], r, 0) == FirstAtLeast(fitness[..k], r, j)
      {
        if r <= fitness[j] {
          chosen := candidates[j];
          break;
        }
      }
    }

    /** `Choose(p, father)` over the first `n` entries of `pool`, with the
        attractiveness `w` and `known` telling whether the selector is one
        the program knows. */
    static method ChooseFrom(rng: Rng, pool: array<Individual>, n: nat, known: bool, w: Individual -> real)
      returns (father: Option<nat>)
      requires rng.Valid() && 0 < n <= pool.Length
      modifies rng
      ensures (father, rng.pos) == ChooseWith(rng.src, old(rng.pos), old(pool[..n]), w, known)
    {
      var fitness := new real[MateSample];
      var candidates := new nat[MateSample];
      father := Pick(rng, pool, n, known, w, fitness, candidates);
    }

    /** The body of `Choose`, with its two work arrays of N_mate_sample
        entries given. */
    static method Pick(rng: Rng, pool: array<Individual>, n: nat, known: bool, w: Individual -> real,
                       fitness: array<real>, candidates: array<nat>)
      returns (father: Option<nat>)
      requires rng.Valid() && 0 < n <= pool.Length
      requires fitness.Length == MateSample && candidates.Length == MateSample
      modifies rng, fitness, candidates
      ensures (father, rng.pos) == ChooseWith(rng.src, old(rng.pos), old(pool[..n]), w, known)
    {
      ghost var start, males := rng.pos, pool[..n];
      var currentMateSample := SampleSize(n);
      var ok, sumFitness, cs, fs := Assess(rng, pool, n, currentMateSample, known, w, fitness, candidates, males);
      if !ok {
        ChooseWithUnknown(rng.src, start, males, w, known);
        return None;
      }
      ghost var at := rng.pos;
      var chosen := SpinWheel(rng, fitness, candidates, currentMateSample, sumFitness, n, fs, cs);
      ChooseWithSpun(rng.src, start, males, w, known, n, currentMateSample, cs, fs, sumFitness, at, chosen, rng.pos);
      father := Some(chosen);
    }

    /** The end of `Choose`: a uniform draw scaled to the total weight, the
        default draw of a random survivor, and the spin of the wheel over
        the first `k` cumulative weights `cum` and candidates `cands`. */
    static method SpinWheel(rng: Rng, fitness: array<real>, candidates: array<nat>, k: nat,
                            sumFitness: real, n: nat, ghost cum: seq<real>, ghost cands: seq<nat>)
      returns (chosen: nat)
      requires rng.Valid() && 0 < n && k <= fitness.Length && k <= candidates.Length
      requires fitness[..k] == cum && candidates[..k] == cands
      modifies rng
      ensures rng.pos == old(rng.pos) + 2
      ensures chosen == Wheel(cum, cands, Point(UniformAt(rng.src, old(rng.pos)), sumFitness),
                              IndexAt(rng.src, old(rng.pos) + 1, n))
    {
      var u := rng.Uniform();
      var fallback := rng.UniformIndex(n);
      chosen := Spin(fitness, candidates, k, Point(u, sumFitness), fallback);
    }

    /** `Choose(p, father)` among the surviving males, with the mean
        surviving ornament as it is. */
    method Choose(p: real, exp: real -> real) returns (father: Option<nat>)
      requires Valid() && 0 < mSurvivors
      modifies rng
      ensures father == ChooseAt(rng.src, old(rng.pos), p, maleSurvivors[..mSurvivors], meanOrnSurv, s, exp).0
      ensures rng.pos == ChooseAt(rng.src, old(rng.pos), p, maleSurvivors[..mSurvivors], meanOrnSurv, s, exp).1
    {
      father := ChooseFrom(rng, maleSurvivors, mSurvivors, KnownPreference(s.pref),
                           AttractionOf(s, exp, p, meanOrnSurv));
    }

    /** The `do_stats` block at the start of `NextGen`: the egg counts of
        the surviving males and females start from zero. */
    method ResetEggs()
      requires Valid()
      modifies fatherEggs, motherEggs
      ensures forall m :: 0 <= m < N ==> fatherEggs[m] == if m < mSurvivors then 0 else old(fatherEggs[m])
      ensures forall i :: 0 <= i < N ==> motherEggs[i] == if i < fSurvivors then 0 else old(motherEggs[i])
    {
      for i := 0 to mSurvivors
        invariant forall m :: 0 <= m < N ==> fatherEggs[m] == if m < i then 0 else old(fatherEggs[m])
        invariant motherEggs[..] == old(motherEggs[..])
      {
        fatherEggs[i] := 0;
      }
      for i := 0 to fSurvivors
        invariant forall k :: 0 <= k < N ==> motherEggs[k] == if k < i then 0 else old(motherEggs[k])
        invariant forall m :: 0 <= m < N ==> fatherEggs[m] == if m < mSurvivors then 0 else old(fatherEggs[m])
      {
        motherEggs[i] := 0;
      }
    }

    /** The clutch of female `i` in the parent table: rows `offspring` up
        to `offspring + ClutchSize` get her index and her mate's. */
    method WriteClutch(i: nat, father: nat, offspring: nat)
      requires Valid() && offspring + ClutchSize <= N * ClutchSize
      modifies parents
      ensures forall r :: 0 <= r < offspring ==> parents[r, 0] == old(parents[r, 0]) && parents[r, 1] == old(parents[r, 1])
      ensures forall r :: offspring <= r < offspring + ClutchSize ==> parents[r, 0] == i && parents[r, 1] == father
    {
      for j := 0 to ClutchSize
        invariant forall r :: 0 <= r < offspring ==> parents[r, 0] == old(parents[r, 0]) && parents[r, 1] == old(parents[r, 1])
        invariant forall r :: offspring <= r < offspring + j ==> parents[r, 0] == i && parents[r, 1] == father
      {
        parents[offspring + j, 0] := i;
        parents[offspring + j, 1] := father;
      }
    }

    /** The `do_stats` block of one pairing: female `i` and her mate each
        gain a clutch of eggs. */
    method Tally(i: nat, father: nat)
      requires Valid() && i < N && father < N
      modifies fatherEggs, motherEggs
      ensures forall m :: 0 <= m < N ==>
                fatherEggs[m] == old(fatherEggs[m]) + (if m == father then ClutchSize else 0)
      ensures forall k :: 0 <= k < N ==>
                motherEggs[k] == old(motherEggs[k]) + (if k == i then ClutchSize else 0)
    {
      motherEggs[i] := motherEggs[i] + ClutchSize;
      fatherEggs[father] := fatherEggs[father] + ClutchSize;
    }

    /** The first `rows` rows of the parent table hold, in row r, mother
        r / ClutchSize and her mate among `fathers`. */
    ghost predicate TableHolds(rows: nat, fathers: seq<nat>)
      reads parents
    {
      rows <= |fathers| * ClutchSize && rows <= parents.Length0 && parents.Length1 == 2 &&
      forall r :: 0 <= r < rows ==> parents[r, 0] == r / ClutchSize && parents[r, 1] == fathers[r / ClutchSize]
    }

    /** The egg counts after `fathers` are the mates of the first
        |fathers| surviving females, starting from `f0` and `m0`: a clutch
        for each of those females and a clutch per female for each male. */
    ghost predicate EggsHold(fathers: seq<nat>, f0: seq<int>, m0: seq<int>)
      reads fatherEggs, motherEggs
    {
      && fatherEggs.Length == N && motherEggs.Length == N && |f0| == N && |m0| == N
      && (forall m :: 0 <= m < N ==> fatherEggs[m] == f0[m] + ClutchSize * Count(fathers, m))
      && (forall k :: 0 <= k < N ==> motherEggs[k] == m0[k] + (if k < |fathers| then ClutchSize else 0))
    }

    /** What one pairing writes once female `i` has chosen `father`: her
        clutch in the parent table and, with `do_stats` set, the eggs. */
    method Enroll(i: nat, father: nat, offspring: nat, ghost chosen: seq<nat>, ghost f0: seq<int>, ghost m0: seq<int>)
      requires Valid() && i < fSurvivors && father < mSurvivors
      requires |chosen| == i && offspring == i * ClutchSize && TableHolds(offspring, chosen)
      requires doStats ==> EggsHold(chosen, f0, m0)
      requires !doStats ==> fatherEggs[..] == f0 && motherEggs[..] == m0
      modifies parents, fatherEggs, motherEggs
      ensures TableHolds(offspring + ClutchSize, chosen + [father])
      ensures doStats ==> EggsHold(chosen + [father], f0, m0)
      ensures !doStats ==> fatherEggs[..] == f0 && motherEggs[..] == m0
    {
      if doStats {
        Tally(i, father);
        forall m | 0 <= m < N
          ensures fatherEggs[m] == f0[m] + ClutchSize * Count(chosen + [father], m)
        {
          CountSnoc(chosen, father, m);
        }
      }
      WriteClutch(i, father, offspring);
      ghost var next := chosen + [father];
      forall r | 0 <= r < offspring + ClutchSize
        ensures parents[r, 0] == r / ClutchSize && parents[r, 1] == next[r / ClutchSize]
      {
        if r < offspring {
          assert r / ClutchSize < i;
        } else {
          assert r / ClutchSize == i;
        }
      }
    }

    /** One round of the pairing loop: female `i` chooses a mate with her
        expressed preference, and `Enroll` records the pair. `paired` is
        false when `Choose` stops the program. */
    method PairOne(exp: real -> real, i: nat, offspring: nat, ghost chosen: seq<nat>, ghost start: nat,
                   ghost fsurv: seq<Individual>, ghost msurv: seq<Individual>, ghost f0: seq<int>, ghost m0: seq<int>)
      returns (paired: bool, ghost next: seq<nat>)
      requires Valid() && 0 < mSurvivors && i < fSurvivors
      requires femaleSurvivors[..fSurvivors] == fsurv && maleSurvivors[..mSurvivors] == msurv
      requires ChooseAll(rng.src, start, fsurv[..i], msurv, meanOrnSurv, s, exp) == (Some(chosen), rng.pos)
      requires |chosen| == i && offspring == i * ClutchSize && TableHolds(offspring, chosen)
      requires doStats ==> EggsHold(chosen, f0, m0)
      requires !doStats ==> fatherEggs[..] == f0 && motherEggs[..] == m0
      modifies rng, parents, fatherEggs, motherEggs
      ensures !paired ==> ChooseAll(rng.src, start, fsurv[..i + 1], msurv, meanOrnSurv, s, exp) == (None, rng.pos)
      ensures paired ==> ChooseAll(rng.src, start, fsurv[..i + 1], msurv, meanOrnSurv, s, exp) == (Some(next), rng.pos)
      ensures paired ==> |next| == i + 1 && TableHolds(offspring + ClutchSize, next)
      ensures paired && doStats ==> EggsHold(next, f0, m0)
      ensures !doStats ==> fatherEggs[..] == f0 && motherEggs[..] == m0
    {
      ghost var at := rng.pos;
      var father := Choose(femaleSurvivors[i].p_expr, exp);
      ChooseAllPrefix(rng.src, start, fsurv, i, msurv, meanOrnSurv, s, exp, chosen, at);
      if father.None? {
        return false, chosen;
      }
      Enroll(i, father.value, offspring, chosen, f0, m0);
      paired, next := true, chosen + [father.value];
    }

    /** The pairing loop of `NextGen`: each surviving female in turn
        chooses a mate with her expressed preference and gets a clutch of
        rows in the parent table; with `do_stats` set, the egg counts of
        both parents grow by a clutch. `paired` is false when `Choose`
        stops the program; otherwise `fathers` are the mates chosen. */
    method PairUp(exp: real -> real) returns (paired: bool, ghost fathers: seq<nat>)
      requires Valid() && 0 < mSurvivors
      modifies rng, parents, fatherEggs, motherEggs
      ensures paired == ChooseAll(rng.src, old(rng.pos), femaleSurvivors[..fSurvivors],
                                  maleSurvivors[..mSurvivors], meanOrnSurv, s, exp).0.Some?
      ensures paired ==> Some(fathers) == ChooseAll(rng.src, old(rng.pos), femaleSurvivors[..fSurvivors],
                                                    maleSurvivors[..mSurvivors], meanOrnSurv, s, exp).0
      ensures rng.pos == ChooseAll(rng.src, old(rng.pos), femaleSurvivors[..fSurvivors],
                                   maleSurvivors[..mSurvivors], meanOrnSurv, s, exp).1
      ensures paired ==> TableHolds(fSurvivors * ClutchSize, fathers)
      ensures paired && doStats ==> EggsHold(fathers, old(fatherEggs[..]), old(motherEggs[..]))
      ensures !doStats ==> fatherEggs[..] == old(fatherEggs[..]) && motherEggs[..] == old(motherEggs[..])
    {
      ghost var start, fsurv, msurv := rng.pos, femaleSurvivors[..fSurvivors], maleSurvivors[..mSurvivors];
      ghost var f0, m0 := fatherEggs[..], motherEggs[..];
      ghost var chosen: seq<nat> := [];
      var offspring := 0;
      for i := 0 to fSurvivors
        invariant femaleSurvivors[..fSurvivors] == fsurv && maleSurvivors[..mSurvivors] == msurv
        invariant ChooseAll(rng.src, start, fsurv[..i], msurv, meanOrnSurv, s, exp) == (Some(chosen), rng.pos)
        invariant |chosen| == i && offspring == i * ClutchSize && TableHolds(offspring, chosen)
        invariant doStats ==> EggsHold(chosen, f0, m0)
        invariant !doStats ==> fatherEggs[..] == f0 && motherEggs[..] == m0
      {
        var ok;
        ok, chosen := PairOne(exp, i, offspring, chosen, start, fsurv, msurv, f0, m0);
        if !ok {
          assert fsurv[..fSurvivors] == fsurv;
          return false, chosen;
        }
        offspring := offspring + ClutchSize;
      }
      assert fsurv[..fSurvivors] == fsurv;
      paired, fathers := true, chosen;
    }

    /** What the replacement loop reads and does not change: the survivors
        are `fsurv` and `msurv`, and the first `offspring` rows of the
        parent table pair each of them with her mate among `fathers`. */
    ghost predicate Frozen(offspring: nat, fathers: seq<nat>, fsurv: seq<Individual>, msurv: seq<Individual>)
      reads parents, femaleSurvivors, maleSurvivors
    {
      && |fathers| == |fsurv| <= femaleSurvivors.Length && |msurv| <= maleSurvivors.Length
      && offspring == |fsurv| * ClutchSize
      && femaleSurvivors[..|fsurv|] == fsurv && maleSurvivors[..|msurv|] == msurv
      && TableHolds(offspring, fathers) && (forall j :: 0 <= j < |fathers| ==> fathers[j] < |msurv|)
    }

    /** One round of the replacement loop of `NextGen`: an index into the
        first `offspring` rows of the parent table, `Create_Kid` for the
        parents of that row, the expressed values of the kid, and a uniform
        draw placing it among the sons (below one half) or the daughters.
        `bf` is the round as `BirthAt` states it. */
    method Breed(offspring: nat, sons: nat, daughters: nat, ghost fathers: seq<nat>, ghost at: nat,
                 ghost fsurv: seq<Individual>, ghost msurv: seq<Individual>, ghost bf: nat -> (Birth, nat))
      returns (newSons: nat, newDaughters: nat, ghost b: Birth)
      requires Valid() && rng.pos == at && Frozen(offspring, fathers, fsurv, msurv) && 0 < |fathers|
      requires |fsurv| == fSurvivors && |msurv| == mSurvivors && Breeds(bf, rng.src, fathers, fsurv, msurv, s)
      requires sons < N && daughters < N
      modifies rng, males, females
      ensures b == bf(at).0 && rng.pos == bf(at).1
      ensures newSons == sons + (if b.son then 1 else 0) && newDaughters == daughters + (if b.son then 0 else 1)
      ensures males[..newSons] == old(males[..sons]) + (if b.son then [b.kid] else [])
      ensures females[..newDaughters] == old(females[..daughters]) + (if b.son then [] else [b.kid])
    {
      var row := rng.UniformIndex(offspring);
      ghost var mother := row / ClutchSize;
      assert mother < |fsurv| && parents[row, 0] == mother && parents[row, 1] == fathers[mother];
      assert femaleSurvivors[mother] == Member(fsurv, mother) && maleSurvivors[fathers[mother]] == Member(msurv, fathers[mother]);
      label A:
      var kid := CreateKid(parents[row, 0], parents[row, 1], Blank, Member(fsurv, mother), Member(msurv, fathers[mother]));
      assert row == IndexAt(rng.src, at, |fathers| * ClutchSize);
      assert old(rng.pos) == at && at + 1 == old@A(rng.pos);
      assert (kid, rng.pos) == KidAt(rng.src, old@A(rng.pos), Member(fsurv, mother), Member(msurv, fathers[mother]), Blank, s);
      assert (kid, rng.pos) == KidAt(rng.src, at + 1, Member(fsurv, row / ClutchSize), Member(msurv, fathers[row / ClutchSize]), Blank, s);
      BirthAtParts(rng.src, at, fathers, fsurv, msurv, s, row, kid, rng.pos);
      kid := kid.(t_expr := Expressed(kid.t), p_expr := Expressed(kid.p));
      var u := rng.Uniform();
      b := Birth(row, kid, u < 0.5);
      newSons, newDaughters := sons, daughters;
      if u < 0.5 {
        Push(males, sons, kid);
        newSons := sons + 1;
      } else {
        Push(females, daughters, kid);
        newDaughters := daughters + 1;
      }
    }

    /** The replacement loop of `NextGen`: `size` offspring sampled from
        the first `offspring` rows of the parent table replace the
        population, the sons at the front of `Males` and the daughters at
        the front of `Females`. `bf` is the round as `BirthAt` states it. */
    method Replace(size: nat, offspring: nat, ghost fathers: seq<nat>, ghost bf: nat -> (Birth, nat))
      returns (sons: nat, daughters: nat, ghost births: seq<Birth>)
      requires Valid() && 0 < |fathers| == fSurvivors && offspring == fSurvivors * ClutchSize
      requires size <= offspring && size <= N
      requires TableHolds(offspring, fathers) && forall j :: 0 <= j < |fathers| ==> fathers[j] < mSurvivors
      requires Breeds(bf, rng.src, fathers, femaleSurvivors[..fSurvivors], maleSurvivors[..mSurvivors], s)
      modifies rng, males, females
      ensures births == Rounds(bf, old(rng.pos), size).0 && rng.pos == Rounds(bf, old(rng.pos), size).1
      ensures sons + daughters == size
      ensures males[..sons] == Brood(births, true) && females[..daughters] == Brood(births, false)
    {
      ghost var start, fsurv, msurv := rng.pos, femaleSurvivors[..fSurvivors], maleSurvivors[..mSurvivors];
      births := [];
      sons, daughters := 0, 0;
      for i := 0 to size
        invariant Frozen(offspring, fathers, fsurv, msurv)
        invariant births == Rounds(bf, start, i).0 && rng.pos == Rounds(bf, start, i).1
        invariant sons + daughters == i
        invariant males[..sons] == Brood(births, true) && females[..daughters] == Brood(births, false)
      {
        sons, daughters, births := ReplaceStep(offspring, sons, daughters, fathers, fsurv, msurv, bf, start, i, births);
      }
    }

    /** One round of `Replace`, from the births of the first `i` rounds to
        those of the first i + 1. */
    method ReplaceStep(offspring: nat, sons: nat, daughters: nat, ghost fathers: seq<nat>,
                       ghost fsurv: seq<Individual>, ghost msurv: seq<Individual>, ghost bf: nat -> (Birth, nat),
                       ghost start: nat, ghost i: nat, ghost births: seq<Birth>)
      returns (newSons: nat, newDaughters: nat, ghost newBirths: seq<Birth>)
      requires Valid() && Frozen(offspring, fathers, fsurv, msurv) && 0 < |fathers|
      requires |fsurv| == fSurvivors && |msurv| == mSurvivors && Breeds(bf, rng.src, fathers, fsurv, msurv, s)
      requires i < N && sons + daughters == i
      requires births == Rounds(bf, start, i).0 && rng.pos == Rounds(bf, start, i).1
      requires males[..sons] == Brood(births, true) && females[..daughters] == Brood(births, false)
      modifies rng, males, females
      ensures newBirths == Rounds(bf, start, i + 1).0 && rng.pos == Rounds(bf, start, i + 1).1
      ensures newSons + newDaughters == i + 1 && Frozen(offspring, fathers, fsurv, msurv)
      ensures males[..newSons] == Brood(newBirths, true) && females[..newDaughters] == Brood(newBirths, false)
    {
      ghost var at := rng.pos;
      ghost var b;
      newSons, newDaughters, b := Breed(offspring, sons, daughters, fathers, at, fsurv, msurv, bf);
      RoundsSnoc(bf, start, i, births, at, b, rng.pos);
      BroodSnoc(births, b, true);
      BroodSnoc(births, b, false);
      newBirths := births + [b];
    }

    /** The population after the replacement loop of `NextGen`, whose
        rounds `bf` gives as `BirthAt` states them, starting at draw
        position `at`, with the first fSurvivors * ClutchSize rows of the
        parent table pairing each survivor in `fsurv` with her mate among
        `fathers`: popsize is min(offspring, N), and the sons and the
        daughters of those rounds are at the front of `Males` and
        `Females`. */
    ghost predicate Replaced(fathers: seq<nat>, at: nat, bf: nat -> (Birth, nat),
                             fsurv: seq<Individual>, msurv: seq<Individual>)
      reads this, rng, parents, males, females
    {
      var offspring := fSurvivors * ClutchSize;
      var births := Rounds(bf, at, popsize);
      && TableHolds(offspring, fathers)
      && Breeds(bf, rng.src, fathers, fsurv, msurv, s)
      && popsize == (if offspring < N then offspring else N)
      && nMales + nFemales == popsize && rng.pos == births.1
      && nMales <= males.Length && nFemales <= females.Length
      && males[..nMales] == Brood(births.0, true) && females[..nFemales] == Brood(births.0, false)
    }

    /** The egg counts once the survivors have paired with `fathers`,
        from `f0` and `m0` before the `do_stats` block: with `do_stats`
        set, those of the survivors start from zero and grow by a clutch
        with each pairing; otherwise they are as they were. */
    ghost predicate Tallied(fathers: seq<nat>, f0: seq<int>, m0: seq<int>)
      reads this, fatherEggs, motherEggs
    {
      && (doStats ==> EggsHold(fathers, Cleared(f0, mSurvivors), Cleared(m0, fSurvivors)))
      && (!doStats ==> fatherEggs[..] == f0 && motherEggs[..] == m0)
    }

    /** `NextGen`: with `do_stats` set the egg counts of the survivors
        start from zero; each surviving female in turn chooses a mate and
        gets a clutch of rows in the parent table; then min(offspring, N)
        kids sampled from those rows replace the population. The run stops
        with WrongPreference when `Choose` stops the program. `bf` is the
        round of the replacement loop as `BirthAt` states it, so the births
        are those of `Offspring` (`BreedsOffspring`). */
    method NextGen(exp: real -> real)
      returns (status: Status, ghost fathers: seq<nat>, ghost at: nat, ghost bf: nat -> (Birth, nat))
      requires Valid() && 0 < fSurvivors && 0 < mSurvivors
      modifies this`popsize, this`nMales, this`nFemales, rng, parents, fatherEggs, motherEggs, males, females
      ensures Valid() && (status == Running || status == WrongPreference)
      ensures var c := ChooseAll(rng.src, old(rng.pos), old(femaleSurvivors[..fSurvivors]),
                                 old(maleSurvivors[..mSurvivors]), old(meanOrnSurv), s, exp);
              && (status == WrongPreference <==> c.0.None?)
              && (status == WrongPreference ==> rng.pos == c.1)
              && (status == Running ==> c == (Some(fathers), at))
      ensures status == WrongPreference ==>
                popsize == old(popsize) && nMales == old(nMales) && nFemales == old(nFemales) && unchanged(males, females)
      ensures status == Running ==>
                && Replaced(fathers, at, bf, old(femaleSurvivors[..fSurvivors]), old(maleSurvivors[..mSurvivors]))
                && Tallied(fathers, old(fatherEggs[..]), old(motherEggs[..]))
    {
      ghost var fsurv, msurv := femaleSurvivors[..fSurvivors], maleSurvivors[..mSurvivors];
      var paired;
      paired, fathers := Pair(exp, fsurv, msurv, meanOrnSurv);
      at := rng.pos;
      status, bf := Finish(paired, fathers, fsurv, msurv, old(fatherEggs[..]), old(motherEggs[..]));
    }

    /** The end of `NextGen` once the pairing loop is over: stop when
        `Choose` stopped the program, otherwise replace the population. */
    method Finish(paired: bool, ghost fathers: seq<nat>, ghost fsurv: seq<Individual>, ghost msurv: seq<Individual>,
                  ghost f0: seq<int>, ghost m0: seq<int>)
      returns (status: Status, ghost bf: nat -> (Birth, nat))
      requires Valid() && femaleSurvivors[..fSurvivors] == fsurv && maleSurvivors[..mSurvivors] == msurv
      requires paired ==> 0 < |fathers| == fSurvivors && TableHolds(fSurvivors * ClutchSize, fathers)
      requires paired ==> forall j :: 0 <= j < |fathers| ==> fathers[j] < mSurvivors
      requires paired ==> Tallied(fathers, f0, m0)
      modifies this`popsize, this`nMales, this`nFemales, rng, males, females
      ensures Valid() && (status == Running <==> paired) && (status == Running || status == WrongPreference)
      ensures !paired ==> unchanged(this, rng, males, females)
      ensures paired ==> Replaced(fathers, old(rng.pos), bf, fsurv, msurv) && Tallied(fathers, f0, m0)
    {
      if !paired {
        return WrongPreference, _ => (Birth(0, Blank, false), 0);
      }
      bf := Repopulate(fathers, fsurv, msurv);
      status := Running;
    }

    /** The first part of `NextGen`: the `do_stats` block and the pairing
        loop. */
    method Pair(exp: real -> real, ghost fsurv: seq<Individual>, ghost msurv: seq<Individual>, ghost mean: real)
      returns (paired: bool, ghost fathers: seq<nat>)
      requires Valid() && 0 < mSurvivors
      requires femaleSurvivors[..fSurvivors] == fsurv && maleSurvivors[..mSurvivors] == msurv && meanOrnSurv == mean
      modifies rng, parents, fatherEggs, motherEggs
      ensures var c := ChooseAll(rng.src, old(rng.pos), fsurv, msurv, mean, s, exp);
              && paired == c.0.Some? && rng.pos == c.1
              && (paired ==> c.0.value == fathers && TableHolds(fSurvivors * ClutchSize, fathers))
      ensures paired ==> Tallied(fathers, old(fatherEggs[..]), old(motherEggs[..]))
    {
      if doStats {
        ghost var f0, m0 := fatherEggs[..], motherEggs[..];
        ResetEggs();
        assert fatherEggs[..] == Cleared(f0, mSurvivors) && motherEggs[..] == Cleared(m0, fSurvivors);
      }
      paired, fathers := PairUp(exp);
    }

    /** The end of `NextGen`, once the survivors have paired with
        `fathers`: popsize becomes min(offspring, N) and that many kids
        replace the population. */
    method Repopulate(ghost fathers: seq<nat>, ghost fsurv: seq<Individual>, ghost msurv: seq<Individual>)
      returns (ghost bf: nat -> (Birth, nat))
      requires Valid() && 0 < |fathers| == fSurvivors
      requires femaleSurvivors[..fSurvivors] == fsurv && maleSurvivors[..mSurvivors] == msurv
      requires TableHolds(fSurvivors * ClutchSize, fathers) && forall j :: 0 <= j < |fathers| ==> fathers[j] < mSurvivors
      modifies this`popsize, this`nMales, this`nFemales, rng, males, females
      ensures Valid() && Replaced(fathers, old(rng.pos), bf, fsurv, msurv)
      ensures unchanged(fatherEggs, motherEggs)
    {
      var offspring := fSurvivors * ClutchSize;
      var size := if offspring < N then offspring else N;
      BreedsSome(rng.src, fathers, fsurv, msurv, s);
      bf :| Breeds(bf, rng.src, fathers, fsurv, msurv, s);
      var sons, daughters, births := Replace(size, offspring, fathers, bf);
      popsize, nMales, nFemales := size, sons, daughters;
    }
  }
}
