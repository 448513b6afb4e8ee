/**
 The object-oriented engine: a `Fisher` object owns the male, female and
 offspring vectors and runs survival, mate choice and fixed-size
 reproduction on them.
 */
module Fisher {
  import opened Random
  import opened Diploid
  import opened Individuals
  import opened Outcome
  import opened Sweep

  datatype Cohort = Males | Females

  /** Survival probability of an individual: exp(-c t^2) for a male,
      exp(-b p^2) for a female, with `exp` supplied. */
  function Psurvive(par: Parameters, exp: real -> real, cohort: Cohort, ind: Individual): real
  {
    match cohort
    case Males =>
      var t := Expressed(ind.t);
      exp(-par.c * t * t)
    case Females =>
      var p := Expressed(ind.p);
      exp(-par.b * p * p)
  }

  /** The survival probability of a cohort as a function of the individual. */
  function SurvivalOf(par: Parameters, exp: real -> real, cohort: Cohort): Individual -> real
  {
    (ind: Individual) => Psurvive(par, exp, cohort, ind)
  }

  /** The attractiveness exp(a p t) of a male to a female expressing
      preference `p`. */
  function Score(male: Individual, p: real, par: Parameters, exp: real -> real): real
  {
    exp(par.a * p * Expressed(male.t))
  }

  /** The scores of the sampled males. */
  function Scores(males: seq<Individual>, idx: seq<nat>, p: real, par: Parameters,
                  exp: real -> real): (s: seq<real>)
    requires forall k :: 0 <= k < |idx| ==> idx[k] < |males|
    ensures |s| == |idx|
    ensures forall k :: 0 <= k < |idx| ==> s[k] == Score(males[idx[k]], p, par, exp)
  {
    seq(|idx|, k requires 0 <= k < |idx| => Score(males[idx[k]], p, par, exp))
  }

  lemma ScoresSnoc(males: seq<Individual>, idx: seq<nat>, j: nat, p: real, par: Parameters,
                    exp: real -> real)
    requires forall k :: 0 <= k < |idx| ==> idx[k] < |males|
    requires j < |males|
    ensures Scores(males, idx + [j], p, par, exp)
         == Scores(males, idx, p, par, exp) + [Score(males[j], p, par, exp)]
  {
    var l := Scores(males, idx + [j], p, par, exp);
    var r := Scores(males, idx, p, par, exp) + [Score(males[j], p, par, exp)];
    forall k | 0 <= k < |l|
      ensures l[k] == r[k]
    {
      if k < |idx| {
        assert (idx + [j])[k] == idx[k];
      } else {
        assert (idx + [j])[k] == j;
      }
    }
  }

  /** `choose` with the draws starting at `pos`: `n_males_sampled` sampled
      indices, one categorical draw that is only checked, and a second
      categorical draw whose sampled index is returned. */
  function ChooseAt(src: Source, pos: nat, males: seq<Individual>, p: real,
                    par: Parameters, exp: real -> real): nat
    requires WellFormed(src) && 0 < |males| && 0 < par.n_males_sampled
  {
    var n := par.n_males_sampled;
    var indices := Sampled(src, pos, n, |males|);
    var scores := Scores(males, indices, p, par, exp);
    indices[src.categorical(pos + n + 1, scores)]
  }

  lemma ChooseAtDraws(src: Source, pos: nat, males: seq<Individual>, p: real,
                      par: Parameters, exp: real -> real, indices: seq<nat>, scores: seq<real>)
    requires WellFormed(src) && 0 < |males| && 0 < par.n_males_sampled
    requires indices == Sampled(src, pos, par.n_males_sampled, |males|)
    requires scores == Scores(males, indices, p, par, exp)
    ensures ChooseAt(src, pos, males, p, par, exp)
         == indices[CategoricalAt(src, pos + par.n_males_sampled + 1, scores)]
  {
  }

  /** The chosen male is one of the sampled males, so a valid index. */
  lemma ChooseAtSpec(src: Source, pos: nat, males: seq<Individual>, p: real,
                     par: Parameters, exp: real -> real)
    requires WellFormed(src) && 0 < |males| && 0 < par.n_males_sampled
    ensures var idx := ChooseAt(src, pos, males, p, par, exp);
            idx < |males| && idx in Sampled(src, pos, par.n_males_sampled, |males|)
  {
  }

  /** One offspring of `reproduce`: the mother drawn, the father she
      chose and the kid of the two. */
  datatype Bred = Bred(mother: nat, father: nat, kid: Individual)

  /** One round of the offspring loop of `reproduce` with the draws
      starting at `pos`: a uniform index picks the mother among the
      females, `choose` picks the father with her expressed preference,
      and the birth constructor makes the kid. Returns the round and the
      next draw position. */
  function BredAt(src: Source, pos: nat, females: seq<Individual>, males: seq<Individual>,
                  par: Parameters, exp: real -> real): (Bred, nat)
    requires WellFormed(src) && 0 < |females| && 0 < |males| && 0 < par.n_males_sampled
  {
    var m := IndexAt(src, pos, |females|);
    var p := Expressed(females[m].p);
    ChooseAtSpec(src, pos + 1, males, p, par, exp);
    var f := ChooseAt(src, pos + 1, males, p, par, exp);
    var b := BirthAt(src, pos + par.n_males_sampled + 3, females[m], males[f], par);
    (Bred(m, f, b.0), b.1)
  }

  /** One round of the offspring loop: the mother is the index drawn first
      and is in range; the father is the one `choose` returns at the next
      draw, one of the males it sampled; the kid inherits from the two; the
      round takes n_males_sampled + 11 to n_males_sampled + 19 draws. */
  lemma BredAtSpec(src: Source, pos: nat, females: seq<Individual>, males: seq<Individual>,
                   par: Parameters, exp: real -> real)
    requires WellFormed(src) && 0 < |females| && 0 < |males| && 0 < par.n_males_sampled
    ensures var r := BredAt(src, pos, females, males, par, exp);
            var b := r.0;
            && b.mother == IndexAt(src, pos, |females|) && b.mother < |females|
            && b.father == ChooseAt(src, pos + 1, males, Expressed(females[b.mother].p), par, exp)
            && b.father < |males|
            && b.father in Sampled(src, pos + 1, par.n_males_sampled, |males|)
            && Inherits(b.kid, females[b.mother], males[b.father], par)
            && pos + par.n_males_sampled + 11 <= r.1 <= pos + par.n_males_sampled + 19
  {
    var r := BredAt(src, pos, females, males, par, exp);
    BredAtSteps(src, pos, females, males, par, exp);
    BirthAtSpec(src, pos + par.n_males_sampled + 3, females[r.0.mother], males[r.0.father], par);
  }

  /** The three steps of a round: the mother, the father she chooses and
      the birth from the two. */
  lemma BredAtSteps(src: Source, pos: nat, females: seq<Individual>, males: seq<Individual>,
                    par: Parameters, exp: real -> real)
    requires WellFormed(src) && 0 < |females| && 0 < |males| && 0 < par.n_males_sampled
    ensures var b := BredAt(src, pos, females, males, par, exp).0;
            b.mother == IndexAt(src, pos, |females|) && b.mother < |females|
    ensures var b := BredAt(src, pos, females, males, par, exp).0;
            && b.father == ChooseAt(src, pos + 1, males, Expressed(females[b.mother].p), par, exp)
            && b.father < |males|
            && b.father in Sampled(src, pos + 1, par.n_males_sampled, |males|)
    ensures var r := BredAt(src, pos, females, males, par, exp);
            var b := r.0;
            (b.kid, r.1) == BirthAt(src, pos + par.n_males_sampled + 3, females[b.mother], males[b.father], par)
  {
    var m := IndexAt(src, pos, |females|);
    ChooseAtSpec(src, pos + 1, males, Expressed(females[m].p), par, exp);
  }

  /** The parents of one round are in range and its kid inherits from them. */
  lemma BredAtKin(src: Source, pos: nat, females: seq<Individual>, males: seq<Individual>,
                  par: Parameters, exp: real -> real)
    requires WellFormed(src) && 0 < |females| && 0 < |males| && 0 < par.n_males_sampled
    ensures var b := BredAt(src, pos, females, males, par, exp).0;
            && b.mother < |females| && b.father < |males|
            && Inherits(b.kid, females[b.mother], males[b.father], par)
  {
    BredAtSpec(src, pos, females, males, par, exp);
  }

  /** `BredAt` with the mother, the father and the kid given by name. */
  lemma BredAtParts(src: Source, pos: nat, females: seq<Individual>, males: seq<Individual>,
                    par: Parameters, exp: real -> real, m: nat, f: nat, kid: Individual, next: nat)
    requires WellFormed(src) && 0 < |females| && 0 < |males| && 0 < par.n_males_sampled
    requires m == IndexAt(src, pos, |females|) && m < |females|
    requires f == ChooseAt(src, pos + 1, males, Expressed(females[m].p), par, exp) && f < |males|
    requires (kid, next) == BirthAt(src, pos + par.n_males_sampled + 3, females[m], males[f], par)
    ensures BredAt(src, pos, females, males, par, exp) == (Bred(m, f, kid), next)
  {
  }

  /** The offspring loop's round as a function of the draw position. */
  function Round(src: Source, females: seq<Individual>, males: seq<Individual>,
                 par: Parameters, exp: real -> real): nat -> (Bred, nat)
    requires WellFormed(src) && 0 < |females| && 0 < |males| && 0 < par.n_males_sampled
  {
    (p: nat) => BredAt(src, p, females, males, par, exp)
  }

  /** The first `n` rounds of the offspring loop, each starting where the
      one before it stopped: the rounds in order and the next draw position. */
  function BredFrom(src: Source, pos: nat, females: seq<Individual>, males: seq<Individual>,
                    par: Parameters, exp: real -> real, n: nat): (r: (seq<Bred>, nat))
    requires WellFormed(src) && 0 < |females| && 0 < |males| && 0 < par.n_males_sampled
  {
    Rounds(Round(src, females, males, par, exp), pos, n)
  }

  /** The mothers and the fathers of the rounds, in order. */
  function Parents(bred: seq<Bred>): (r: (seq<nat>, seq<nat>))
    ensures |r.0| == |r.1| == |bred|
    ensures forall k :: 0 <= k < |bred| ==> r.0[k] == bred[k].mother && r.1[k] == bred[k].father
  {
    (seq(|bred|, k requires 0 <= k < |bred| => bred[k].mother),
     seq(|bred|, k requires 0 <= k < |bred| => bred[k].father))
  }

  /** The rounds given as the three sequences the offspring loop fills:
      each round is its mother, its father and its kid, and so the kid
      inherits from the two. */
  lemma Unzipped(bred: seq<Bred>, kids: seq<Individual>, mothers: seq<nat>, fathers: seq<nat>,
                 females: seq<Individual>, males: seq<Individual>, par: Parameters)
    requires |kids| == |bred| && (mothers, fathers) == Parents(bred)
    requires forall k :: 0 <= k < |bred| ==> kids[k] == bred[k].kid
    requires forall k :: 0 <= k < |bred| ==>
               && bred[k].mother < |females| && bred[k].father < |males|
               && Inherits(bred[k].kid, females[bred[k].mother], males[bred[k].father], par)
    ensures forall k :: 0 <= k < |bred| ==> bred[k] == Bred(mothers[k], fathers[k], kids[k])
    ensures forall k :: 0 <= k < |bred| ==>
              && mothers[k] < |females| && fathers[k] < |males|
              && Inherits(kids[k], females[mothers[k]], males[fathers[k]], par)
  {
  }

  /** One more round of the offspring loop appends the round that starts
      where the others stop. */
  lemma BredFromSnoc(src: Source, pos: nat, females: seq<Individual>, males: seq<Individual>,
                     par: Parameters, exp: real -> real, n: nat, bred: seq<Bred>, at: nat, b: Bred, next: nat)
    requires WellFormed(src) && 0 < |females| && 0 < |males| && 0 < par.n_males_sampled
    requires (bred, at) == BredFrom(src, pos, females, males, par, exp, n)
    requires (b, next) == BredAt(src, at, females, males, par, exp)
    ensures BredFrom(src, pos, females, males, par, exp, n + 1) == (bred + [b], next)
  {
    assert Round(src, females, males, par, exp)(at) == (b, next);
  }

  /** Round k of the first `n` of the offspring loop is the round that
      starts where the first k stop. */
  lemma BredFromEntry(src: Source, pos: nat, females: seq<Individual>, males: seq<Individual>,
                      par: Parameters, exp: real -> real, n: nat, k: nat)
    requires WellFormed(src) && 0 < |females| && 0 < |males| && 0 < par.n_males_sampled
    requires k < n
    ensures BredFrom(src, pos, females, males, par, exp, n).0[k]
         == BredAt(src, BredFrom(src, pos, females, males, par, exp, k).1, females, males, par, exp).0
  {
    RoundsEntry(Round(src, females, males, par, exp), pos, n, k);
  }

  /** Every offspring of the loop has a mother drawn uniformly among the
      females and the father she chose among the males `choose` sampled
      for her, and inherits from the two. */
  lemma BredFromSpec(src: Source, pos: nat, females: seq<Individual>, males: seq<Individual>,
                     par: Parameters, exp: real -> real, n: nat, k: nat)
    requires WellFormed(src) && 0 < |females| && 0 < |males| && 0 < par.n_males_sampled
    requires k < n
    ensures var at := BredFrom(src, pos, females, males, par, exp, k).1;
            var b := BredFrom(src, pos, females, males, par, exp, n).0[k];
            && b.mother == IndexAt(src, at, |females|) && b.mother < |females|
            && b.father == ChooseAt(src, at + 1, males, Expressed(females[b.mother].p), par, exp)
            && b.father in Sampled(src, at + 1, par.n_males_sampled, |males|)
            && Inherits(b.kid, females[b.mother], males[b.father], par)
  {
    var at := BredFrom(src, pos, females, males, par, exp, k).1;
    BredFromEntry(src, pos, females, males, par, exp, n, k);
    BredAtSpec(src, at, females, males, par, exp);
  }

  /** Every one of the first `n` rounds has a mother among the females and
      a father among the males, and its kid inherits from the two. */
  lemma BredFromParentage(src: Source, pos: nat, females: seq<Individual>, males: seq<Individual>,
                          par: Parameters, exp: real -> real, n: nat)
    requires WellFormed(src) && 0 < |females| && 0 < |males| && 0 < par.n_males_sampled
    ensures var bred := BredFrom(src, pos, females, males, par, exp, n).0;
            forall k :: 0 <= k < n ==>
              && bred[k].mother < |females| && bred[k].father < |males|
              && Inherits(bred[k].kid, females[bred[k].mother], males[bred[k].father], par)
  {
    var bred := BredFrom(src, pos, females, males, par, exp, n).0;
    forall k | 0 <= k < n
      ensures && bred[k].mother < |females| && bred[k].father < |males|
              && Inherits(bred[k].kid, females[bred[k].mother], males[bred[k].father], par)
    {
      var at := BredFrom(src, pos, females, males, par, exp, k).1;
      BredFromEntry(src, pos, females, males, par, exp, n, k);
      BredAtKin(src, at, females, males, par, exp);
    }
  }
  lemma BredFromUnzipped(src: Source, pos: nat, females: seq<Individual>, males: seq<Individual>,
                         par: Parameters, exp: real -> real, n: nat,
                         bred: seq<Bred>, kids: seq<Individual>, mothers: seq<nat>, fathers: seq<nat>)
    requires WellFormed(src) && 0 < |females| && 0 < |males| && 0 < par.n_males_sampled
    requires bred == BredFrom(src, pos, females, males, par, exp, n).0
    requires |kids| == n && (mothers, fathers) == Parents(bred)
    requires forall k :: 0 <= k < n ==> kids[k] == bred[k].kid
    ensures |mothers| == n && |fathers| == n
    ensures forall k :: 0 <= k < n ==> bred[k] == Bred(mothers[k], fathers[k], kids[k])
    ensures forall k :: 0 <= k < n ==>
              && mothers[k] < |females| && fathers[k] < |males|
              && Inherits(kids[k], females[mothers[k]], males[fathers[k]], par)
  {
    BredFromParentage(src, pos, females, males, par, exp, n);
    Unzipped(bred, kids, mothers, fathers, females, males, par);
  }

  /** The first `n` rounds take between n (n_males_sampled + 11) and
      n (n_males_sampled + 19) draws. */
  lemma BredFromDraws(src: Source, pos: nat, females: seq<Individual>, males: seq<Individual>,
                      par: Parameters, exp: real -> real, n: nat)
    requires WellFormed(src) && 0 < |females| && 0 < |males| && 0 < par.n_males_sampled
    ensures var r := BredFrom(src, pos, females, males, par, exp, n);
            var k := par.n_males_sampled;
            pos + n * (k + 11) <= r.1 <= pos + n * (k + 19)
  {
    var k := par.n_males_sampled;
    var bf := Round(src, females, males, par, exp);
    forall p: nat
      ensures p + (k + 11) <= bf(p).1 <= p + (k + 19)
    {
      BredAtSpec(src, p, females, males, par, exp);
    }
    RoundsDraws(bf, pos, n, k + 11, k + 19);
  }

  /** With N even, as the parameter set requires, the refill loops of
      `reproduce` place every offspring: the females followed by the males
      are the whole brood. */
  lemma EvenBroodPlacesAll(kids: seq<Individual>, n: nat)
    requires |kids| == n && n % 2 == 0
    ensures kids[..n / 2] + kids[n / 2 .. 2 * (n / 2)] == kids
  {
    assert 2 * (n / 2) == n;
  }

  class Fisher {
    const par: Parameters
    const rng: Rng
    var males: seq<Individual>
    var females: seq<Individual>
    var offspring: seq<Individual>
    var generation: nat
    var fraction_females_survive: real
    var fraction_males_survive: real

    ghost predicate Valid()
    {
      rng.Valid() && 2 <= par.N
    }

    /** Both cohorts start as N/2 initial individuals. */
    constructor (params: Parameters, rng: Rng)
      requires rng.Valid() && 2 <= params.N
      ensures Valid() && par == params && this.rng == rng
      ensures males == seq(params.N / 2, _ => Initial(params))
      ensures females == seq(params.N / 2, _ => Initial(params))
      ensures offspring == [] && generation == 0
      ensures fraction_females_survive == 0.0 && fraction_males_survive == 0.0
    {
      par := params;
      this.rng := rng;
      males := seq(params.N / 2, _ => Initial(params));
      females := seq(params.N / 2, _ => Initial(params));
      offspring := [];
      generation := 0;
      fraction_females_survive := 0.0;
      fraction_males_survive := 0.0;
    }

    /** One survival loop over a cohort: the iterator advances past a
        survivor; a dying individual is swapped with the back and popped,
        and the one swapped in is evaluated on the next iteration. */
    static method SurvivalSweep(v: seq<Individual>, cohort: Cohort, par: Parameters, exp: real -> real, rng: Rng)
      returns (w: seq<Individual>)
      requires rng.Valid()
      modifies rng
      ensures var r := SweepFrom(v, 0, rng.src.uniform, old(rng.pos), SurvivalOf(par, exp, cohort));
              w == r.survivors && rng.pos == r.next
      ensures multiset(w) <= multiset(v)
    {
      ghost var f := SurvivalOf(par, exp, cohort);
      ghost var r := SweepFrom(v, 0, rng.src.uniform, rng.pos, f);
      w := v;
      var i := 0;
      while i < |w|
        invariant i <= |w|
        invariant var r' := SweepFrom(w, i, rng.src.uniform, rng.pos, f);
                  (r'.survivors, r'.next) == (r.survivors, r.next)
        decreases |w| - i
      {
        var psurvive := Psurvive(par, exp, cohort, w[i]);
        assert psurvive == f(w[i]);
        var u := rng.Uniform();
        if u > psurvive {
          w := SwapWithBack(w, i);
          w := PopBack(w);
        } else {
          i := i + 1;
        }
      }
      SweepShrinks(v, rng.src.uniform, old(rng.pos), f);
    }

    /** Viability selection on both cohorts, males first, then the
        realised fractions relative to N/2. */
    method Survival(exp: real -> real)
      requires Valid()
      modifies this, rng
      ensures Valid() && offspring == old(offspring) && generation == old(generation)
      ensures var m := SweepFrom(old(males), 0, rng.src.uniform, old(rng.pos), SurvivalOf(par, exp, Males));
              var f := SweepFrom(old(females), 0, rng.src.uniform, m.next, SurvivalOf(par, exp, Females));
              && males == m.survivors && females == f.survivors && rng.pos == f.next
      ensures multiset(males) <= multiset(old(males)) && |males| <= |old(males)|
      ensures multiset(females) <= multiset(old(females)) && |females| <= |old(females)|
      ensures rng.pos == old(rng.pos) + |old(males)| + |old(females)|
      ensures fraction_females_survive == |females| as real / (par.N / 2) as real
      ensures fraction_males_survive == |males| as real / (par.N / 2) as real
    {
      males := SurvivalSweep(males, Males, par, exp, rng);
      females := SurvivalSweep(females, Females, par, exp, rng);
      fraction_females_survive := |females| as real / (par.N / 2) as real;
      fraction_males_survive := |males| as real / (par.N / 2) as real;
    }

    /** Mate choice for one female among `n_males_sampled` males drawn with
        replacement: sample and score, one categorical draw that is only
        checked, then the categorical draw whose sampled index is returned. */
    method Choose(female: Individual, exp: real -> real) returns (idx: nat)
      requires Valid() && 0 < |males| && 0 < par.n_males_sampled
      modifies rng
      ensures idx == ChooseAt(rng.src, old(rng.pos), males, Expressed(female.p), par, exp)
      ensures rng.pos == old(rng.pos) + par.n_males_sampled + 2
      ensures idx < |males|
    {
      ghost var start := rng.pos;
      var p := Expressed(female.p);
      var male_indices, male_scores := SampleMales(males, p, par, exp, rng);
      var sampled_male := rng.Categorical(male_scores);
      assert sampled_male < par.n_males_sampled;
      var chosen := rng.Categorical(male_scores);
      idx := male_indices[chosen];
      ChooseAtDraws(rng.src, start, males, p, par, exp, male_indices, male_scores);
      ChooseAtSpec(rng.src, start, males, p, par, exp);
    }

    /** The sampling loop of `choose`: `n_males_sampled` indices drawn with
        replacement and the score of each sampled male. */
    static method SampleMales(males: seq<Individual>, p: real, par: Parameters, exp: real -> real, rng: Rng)
      returns (male_indices: seq<nat>, male_scores: seq<real>)
      requires rng.Valid() && 0 < |males|
      modifies rng
      ensures rng.pos == old(rng.pos) + par.n_males_sampled
      ensures male_indices == Sampled(rng.src, old(rng.pos), par.n_males_sampled, |males|)
      ensures male_scores == Scores(males, male_indices, p, par, exp)
    {
      ghost var start := rng.pos;
      male_scores, male_indices := [], [];
      for male_idx := 0 to par.n_males_sampled
        invariant rng.pos == start + male_idx
        invariant male_indices == Sampled(rng.src, start, male_idx, |males|)
        invariant male_scores == Scores(males, male_indices, p, par, exp)
      {
        var current_male_idx := rng.UniformIndex(|males|);
        var male_score := Score(males[current_male_idx], p, par, exp);
        ScoresSnoc(males, male_indices, current_male_idx, p, par, exp);
        male_scores := male_scores + [male_score];
        male_indices := male_indices + [current_male_idx];
      }
    }

    /** The N offspring of `reproduce`, each from a uniformly drawn
        surviving mother and the male she chooses, as `BredFrom` states
        them. */
    method Breed(exp: real -> real)
      returns (kids: seq<Individual>, ghost mothers: seq<nat>, ghost fathers: seq<nat>)
      requires Valid() && 0 < par.n_males_sampled && 0 < |females| && 0 < |males|
      modifies rng
      ensures |kids| == par.N && |mothers| == par.N && |fathers| == par.N
      ensures var r := BredFrom(rng.src, old(rng.pos), females, males, par, exp, par.N);
              && rng.pos == r.1
              && forall k :: 0 <= k < par.N ==> r.0[k] == Bred(mothers[k], fathers[k], kids[k])
      ensures forall k :: 0 <= k < par.N ==>
                && mothers[k] < |females| && fathers[k] < |males|
                && Inherits(kids[k], females[mothers[k]], males[fathers[k]], par)
    {
      ghost var start := rng.pos;
      ghost var bred: seq<Bred> := [];
      kids := [];
      for offspring_idx := 0 to par.N
        invariant |kids| == |bred| == offspring_idx
        invariant (bred, rng.pos) == BredFrom(rng.src, start, females, males, par, exp, offspring_idx)
        invariant forall k :: 0 <= k < offspring_idx ==> kids[k] == bred[k].kid
      {
        var kid;
        kid, bred := BreedStep(exp, start, offspring_idx, bred);
        kids := kids + [kid];
      }
      mothers, fathers := Parents(bred).0, Parents(bred).1;
      BredFromUnzipped(rng.src, start, females, males, par, exp, par.N, bred, kids, mothers, fathers);
    }

    /** One round of `Breed`, from the rounds of the first `i` to those of
        the first i + 1. */
    method BreedStep(exp: real -> real, ghost start: nat, ghost i: nat, ghost bred: seq<Bred>)
      returns (kid: Individual, ghost newBred: seq<Bred>)
      requires Valid() && 0 < par.n_males_sampled && 0 < |females| && 0 < |males|
      requires (bred, rng.pos) == BredFrom(rng.src, start, females, males, par, exp, i)
      modifies rng
      ensures (newBred, rng.pos) == BredFrom(rng.src, start, females, males, par, exp, i + 1)
      ensures newBred == bred + [newBred[i]] && newBred[i].kid == kid
    {
      ghost var at := rng.pos;
      var mother_id, father_id;
      mother_id, father_id, kid := BreedOne(exp);
      BredFromSnoc(rng.src, start, females, males, par, exp, i, bred, at,
                   Bred(mother_id, father_id, kid), rng.pos);
      newBred := bred + [Bred(mother_id, father_id, kid)];
    }

    /** One round of the offspring loop of `reproduce`: the mother drawn,
        the father she chooses and their kid. */
    method BreedOne(exp: real -> real) returns (mother_id: nat, father_id: nat, kid: Individual)
      requires Valid() && 0 < par.n_males_sampled && 0 < |females| && 0 < |males|
      modifies rng
      ensures (Bred(mother_id, father_id, kid), rng.pos) == BredAt(rng.src, old(rng.pos), females, males, par, exp)
      ensures mother_id < |females| && father_id < |males|
      ensures Inherits(kid, females[mother_id], males[father_id], par)
    {
      ghost var at := rng.pos;
      mother_id := rng.UniformIndex(|females|);
      father_id := Choose(females[mother_id], exp);
      kid := Birth(females[mother_id], males[father_id], rng, par);
      BredAtParts(rng.src, at, females, males, par, exp, mother_id, father_id, kid, rng.pos);
    }

    /** The refill loops of `reproduce`: the first `half` offspring in
        order, then the next `half`. */
    static method SplitBrood(kids: seq<Individual>, half: nat)
      returns (daughters: seq<Individual>, sons: seq<Individual>)
      requires 2 * half <= |kids|
      ensures daughters == kids[..half] && sons == kids[half..2 * half]
    {
      var offspring_counter := 0;
      daughters, sons := [], [];
      for female_idx := 0 to half
        invariant offspring_counter == female_idx
        invariant daughters == kids[..female_idx]
      {
        daughters := daughters + [kids[offspring_counter]];
        offspring_counter := offspring_counter + 1;
      }
      for male_idx := 0 to half
        invariant offspring_counter == half + male_idx
        invariant sons == kids[half..offspring_counter]
      {
        sons := sons + [kids[offspring_counter]];
        offspring_counter := offspring_counter + 1;
      }
    }

    /** Fixed-size reproduction: N offspring from the survivors; the first
        N/2 become the females, the next N/2 the males. With either cohort
        empty the program stops instead, before any draw. */
    method Reproduce(exp: real -> real)
      returns (status: Status, ghost mothers: seq<nat>, ghost fathers: seq<nat>)
      requires Valid() && (0 < |females| && 0 < |males| ==> 0 < par.n_males_sampled)
      modifies this, rng
      ensures Valid() && generation == old(generation)
      ensures fraction_females_survive == old(fraction_females_survive)
      ensures fraction_males_survive == old(fraction_males_survive)
      ensures status == Running || status == Extinct
      ensures status == Extinct <==> |old(females)| == 0 || |old(males)| == 0
      ensures status == Extinct ==>
                offspring == [] && males == old(males) && females == old(females) && rng.pos == old(rng.pos)
      ensures status == Running ==>
                && |offspring| == par.N && |mothers| == par.N && |fathers| == par.N
                && (var r := BredFrom(rng.src, old(rng.pos), old(females), old(males), par, exp, par.N);
                    && rng.pos == r.1
                    && forall k :: 0 <= k < par.N ==> r.0[k] == Bred(mothers[k], fathers[k], offspring[k]))
                && (forall k :: 0 <= k < par.N ==>
                      && mothers[k] < |old(females)| && fathers[k] < |old(males)|
                      && Inherits(offspring[k], old(females)[mothers[k]], old(males)[fathers[k]], par))
                && females == offspring[..par.N / 2]
                && males == offspring[par.N / 2 .. 2 * (par.N / 2)]
                && |females| == |males| == par.N / 2
    {
      offspring := [];
      mothers, fathers := [], [];
      if |females| < 1 || |males| < 1 {
        return Extinct, mothers, fathers;
      }
      var kids;
      kids, mothers, fathers := Breed(exp);
      offspring := kids;
      females, males := SplitBrood(kids, par.N / 2);
      status := Running;
    }
  }

  /** Without mutation, a generation bred from initial individuals consists
      of initial individuals only. */
  lemma NoDriftInReproduction(offspring: seq<Individual>, mothers: seq<nat>, fathers: seq<nat>,
                              females: seq<Individual>, males: seq<Individual>, par: Parameters)
    requires par.mu_t <= 0.0 && par.mu_p <= 0.0
    requires forall k :: 0 <= k < |females| ==> females[k] == Initial(par)
    requires forall k :: 0 <= k < |males| ==> males[k] == Initial(par)
    requires |mothers| == |fathers| == |offspring|
    requires forall k :: 0 <= k < |offspring| ==>
               && mothers[k] < |females| && fathers[k] < |males|
               && Inherits(offspring[k], females[mothers[k]], males[fathers[k]], par)
    ensures forall k :: 0 <= k < |offspring| ==> offspring[k] == Initial(par)
  {
    forall k | 0 <= k < |offspring| ensures offspring[k] == Initial(par) {
      NoDriftWithoutMutation(offspring[k], par);
    }
  }
}
