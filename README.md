# fisher_sexsel in Dafny

A model of the two individual-based simulations of Fisherian sexual
selection in `src/ibm`, with proofs about that model. In both simulations a
diploid population carries an ornament locus `t` and a preference locus
`p`. Each generation runs in three steps:

- viability selection kills individuals according to their expressed
  values;
- each surviving female chooses a mate by her preference;
- offspring inherit one allele per locus from each parent, each allele
  possibly mutating.

There are two engines.

- **The flat-array engine** (`fisherian.cpp`, module `Fisherian`) keeps
  the population in global arrays of capacity N = 5000. Three parts of
  `Fisherian.Engine` matter here:
  - `Survive` copies the survivors into survivor arrays in their original
    order, and computes the mean surviving ornament.
  - `Choose` spins a roulette wheel over the cumulative attractiveness of
    at most 10 sampled males. Each male's attractiveness is capped at 100.
  - `NextGen` writes a parent table with a clutch of 10 rows per surviving
    female. It then replaces the population with min(rows, N) offspring
    sampled from that table and split into sons and daughters.
- **The object-oriented engine** (`fisher.cpp`, class `Fisher.Fisher`)
  keeps the cohorts in vectors.
  - `survival` removes a dying individual by swapping it with the back
    and popping it.
  - `choose` samples `n_males_sampled` males with replacement.
  - `reproduce` breeds exactly N offspring. The first N/2 of them become
    the females and the next N/2 the males.

  Its genotypes, from `individual.cpp` (module `Individuals`), are value
  types with an initial, a copy and a birth constructor and an assignment.

Randomness is an explicit stream of draws (module `Random`). A `Source`
holds one oracle per distribution the program uses: uniform on [0, 1),
uniform index, a fair bit, and a categorical index. The engine `Rng`
counts the calls made so far. Every distribution call uses one position,
so each operation is specified by a function of the source and the start
position. These functions fix the order in which the program consumes its
draws, and they return the next position along with the result. `exp` is
a parameter of every operation that uses it.

Imperative code is modelled imperatively:

- The arrays of the flat engine are Dafny `array`s, and its parent table
  is an `array2`. Its counters are fields of `Fisherian.Engine`.
- The vectors of the object-oriented engine are `seq` fields of
  `Fisher.Fisher`, reassigned in loops.

Every loop method is proved against a function that specifies it. Lemmas
then prove the promised properties of that function: order-preserving
survivors, a sub-multiset after swap-and-pop, the chosen father being a
sampled candidate, the parent table contents, egg counts adding up,
parentage of every kid, and sons and daughters partitioning the brood.

Three points where the code may surprise a reader:
- The object-oriented engine records its surviving fraction relative to
  N/2, not relative to the cohort size before survival.
- It stops on an empty cohort in `reproduce`, not in `survival`.
- The flat engine's mutation step is drawn from `uniform_mutation`
  (0 to 0.4); the `sdmu` argument is unused.

## Model

| member | source | states |
|---|---|---|
| `Random.Sampled` | src/ibm/fisher.cpp:121-133 | n consecutive uniform index draws give n indices, each below the range bound |
| `Random.Rng.Uniform` | src/ibm/fisherian.cpp:34-35 | one draw of the uniform [0, 1) distribution (here `uniform`, in the birth constructor its local `unif`): the next value of the stream, in [0, 1), one position consumed |
| `Random.Rng.UniformIndex` | src/ibm/fisher.cpp:118-119 | one draw of a uniform index below n, one position consumed |
| `Random.Rng.Coin` | src/ibm/fisherian.cpp:38-40 | one draw of the bernoulli(0.5) segregator (here `segregator`, in the birth constructor its local `random_segregator`): one segregation draw, one position consumed |
| `Random.Rng.Categorical` | src/ibm/fisher.cpp:136-139 | one discrete-distribution draw: an index below the number of weights, one position consumed |
| `Diploid.Expressed` | src/ibm/fisherian.cpp:465-466 | the expressed value of a locus lies between its two alleles, and equals them when they are equal |
| `Individuals.Initial` | src/ibm/individual.cpp:5-8 | both ornament alleles are init_t and both preference alleles are init_p |
| `Individuals.Copy` | src/ibm/individual.cpp:10-13 | the copy is equal to the original |
| `Individuals.Assign` | src/ibm/individual.cpp:68-77 | after the allele loop of `operator=` the individual equals `other` |
| `Individuals.MutantAt` | src/ibm/individual.cpp:36-63 | one mutation block as a function of the draw position: the new allele and the next position. No contract of its own; `MutantAtSpec` states its properties and `MutateAllele` is proved to compute it |
| `Individuals.MutantAtSpec` | src/ibm/individual.cpp:36-63 | a mutation block uses one draw when it does not fire and three when it does; it fires iff the rate draw is below mu, otherwise the allele is unchanged; the new allele is within the step bound of the old one (or clamped to 0); when the clamp does not apply (it is off, or the stepped value is not negative) it decreases iff the sign draw is below the bias, for a positive step bound and step draw; when the clamp applies the result is exactly 0 |
| `Individuals.ScaledStep` | src/ibm/individual.cpp:41-41 | an increment max_mut * u with u in [0, 1) is at most max_mut in magnitude, and positive when both are |
| `Individuals.BirthLoop` | src/ibm/individual.cpp:32-64 | the allele loop from index `idx` on as a function of the draw position: preference block then ornament block per index. No contract of its own; `BirthLoopSpec` states its properties and `MutationLoop` is proved to compute it |
| `Individuals.BirthLoopSpec` | src/ibm/individual.cpp:32-64 | the allele loop uses 2 to 6 draws per remaining index, leaves earlier indices alone, derives every later allele from its value before the loop, and changes nothing when both rates are 0 |
| `Individuals.BirthAt` | src/ibm/individual.cpp:15-66 | the birth constructor as a function of the draw position: four segregation draws, then the allele loop. No contract of its own; `BirthAtSpec` states its properties and `Birth` is proved to compute it |
| `Individuals.BirthAtSpec` | src/ibm/individual.cpp:15-66 | a birth uses 8 to 16 draws; each first allele comes from the mother's locus and each second from the father's, possibly mutated; with both rates 0 the kid has exactly the segregated alleles |
| `Individuals.MutateAllele` | src/ibm/individual.cpp:36-50 | one mutation block consumes the draws and yields the allele and draw position `MutantAt` gives |
| `Individuals.MutationLoop` | src/ibm/individual.cpp:32-64 | the `allele_idx` loop yields the loci and the draw position `BirthLoop` gives |
| `Individuals.Birth` | src/ibm/individual.cpp:15-66 | the birth constructor yields the specified kid and draw position, and the kid inherits from mother and father |
| `Individuals.NoDriftWithoutMutation` | src/ibm/individual.cpp:25-29 | with both rates 0, a kid of two initial individuals is again initial |
| `Individuals.NonNegativeInheritance` | src/ibm/individual.cpp:46-62 | with `only_positive`, non-negative parents have non-negative offspring alleles |
| `Sweep.SwapWithBack` | src/ibm/fisher.cpp:62-62 | `std::swap` with the back exchanges the element and the last element and keeps the length |
| `Sweep.PopBack` | src/ibm/fisher.cpp:65-65 | `pop_back` removes the last element |
| `Sweep.SwapPop` | src/ibm/fisher.cpp:59-66 | swap-and-pop keeps the part before the iterator and removes exactly one copy of the current element from the rest |
| `Sweep.SweepFrom` | src/ibm/fisher.cpp:50-71 | the survival loop uses one draw per individual evaluated, evaluates each remaining individual once, never grows the vector and keeps the part before the iterator |
| `Sweep.SweepEvaluatesEachOnce` | src/ibm/fisher.cpp:59-70 | the individuals evaluated (including each one swapped in) are a permutation of those from the iterator on |
| `Sweep.SweepKeepsPassed` | src/ibm/fisher.cpp:59-70 | the survivors are the kept prefix plus exactly the evaluated individuals whose draw does not exceed their survival probability |
| `Sweep.SweepIsSubMultiset` | src/ibm/fisher.cpp:50-95 | a whole sweep evaluates every individual once, and its survivors are a sub-multiset of the cohort: exactly the ones that passed their draw |
| `Sweep.SweepShrinks` | src/ibm/fisher.cpp:81-94 | the survivors of a sweep are a sub-multiset of the cohort |
| `Fisher.ChooseAt` | src/ibm/fisher.cpp:101-147 | the male `choose` returns as a function of the draw position: n_males_sampled uniform indices, their scores, one discarded categorical draw and the categorical draw whose sampled index is returned. No contract of its own; `ChooseAtSpec` states its range and `Fisher.Fisher.Choose` is proved to compute it |
| `Fisher.ChooseAtSpec` | src/ibm/fisher.cpp:139-145 | the male `choose` returns is one of the sampled indices, so it is below the number of males |
| `Fisher.Fisher.constructor` | src/ibm/fisher.cpp:7-16 | both cohorts start as N/2 initial individuals, with no offspring |
| `Fisher.Psurvive` | src/ibm/fisher.cpp:55-79 | the survival probability exp(-c t^2) of a male and exp(-b p^2) of a female, t and p the means of the two alleles, with `exp` a parameter. No contract of its own; `Fisher.Fisher.SurvivalSweep` and `Fisher.Fisher.Survival` are proved against the sweep in which each visited individual survives iff its draw is not above it |
| `Fisher.Fisher.SurvivalSweep` | src/ibm/fisher.cpp:50-71 | the iterator loop with swap-and-pop gives the sweep's survivors and draw position, and its survivors are a sub-multiset of the cohort |
| `Fisher.Fisher.Survival` | src/ibm/fisher.cpp:45-99 | males then females are swept; each cohort becomes a sub-multiset no larger than before; one draw per individual; the fractions are the new sizes over N/2 |
| `Fisher.Score` | src/ibm/fisher.cpp:125-129 | a sampled male's score exp(a p t), p the female's expressed preference and t his mean ornament. No contract of its own; `Fisher.Fisher.SampleMales` is proved to return these scores in sampling order |
| `Fisher.Fisher.SampleMales` | src/ibm/fisher.cpp:117-133 | exactly `n_males_sampled` indices drawn with replacement, with the score of each sampled male |
| `Fisher.Fisher.Choose` | src/ibm/fisher.cpp:101-147 | the index returned is the sampled index that the second categorical draw selects; it is in range, and `n_males_sampled` + 2 draws are used |
| `Fisher.Fisher.Breed` | src/ibm/fisher.cpp:164-190 | exactly N offspring; together with their mothers and fathers they are the rounds `BredFrom` gives for the draws from the start position, and the draw position after the loop is the one `BredFrom` gives; each mother is below the number of females, each father below the number of males, and each kid inherits from its pair |
| `Fisher.Fisher.BreedOne` | src/ibm/fisher.cpp:172-187 | one round of the offspring loop: the mother drawn, the father `choose` returns for her and the kid of the birth constructor are the round `BredAt` gives, with the mother and father in range (the two asserts) and the kid inheriting from them |
| `Fisher.Fisher.BreedStep` | src/ibm/fisher.cpp:168-188 | one iteration of the offspring loop extends the rounds so far by the next round of `BredFrom` |
| `Fisher.BredAt` | src/ibm/fisher.cpp:172-185 | one round of the offspring loop as a function of the draw position. No contract of its own; `BredAtSpec`, `BredAtSteps` and `BredAtKin` state its properties |
| `Fisher.BredAtSpec` | src/ibm/fisher.cpp:172-185 | the mother is the first index drawn and is below the number of females; the father is what `choose` returns with her expressed preference at the next draw, and is one of the males it sampled; the kid inherits from the two; the round takes n_males_sampled + 11 to n_males_sampled + 19 draws |
| `Fisher.BredAtSteps` | src/ibm/fisher.cpp:172-185 | the kid and the next draw position are those of the birth constructor started right after the n_males_sampled + 2 draws of `choose` |
| `Random.Rounds` | src/ibm/fisher.cpp:168-188 | a loop of n rounds, each starting at the draw position where the one before it stopped, gives n results; both offspring loops (`BredFrom`, and the replacement loop of `NextGen` through `BreedsOffspring`) are of this shape |
| `Random.RoundsEntry` | src/ibm/fisher.cpp:168-188 | round k of a loop of rounds is the round that starts where the first k rounds stop |
| `Random.RoundsDraws` | src/ibm/fisher.cpp:168-188 | n rounds of lo to hi draws each take n lo to n hi draws |
| `Fisher.BredFromEntry` | src/ibm/fisher.cpp:168-188 | offspring k of the loop is the round `BredAt` gives at the draw position where the first k rounds stop |
| `Fisher.BredFrom` | src/ibm/fisher.cpp:168-188 | the first n rounds of the offspring loop, chained by their draw positions. No contract of its own; `BredFromEntry`, `BredFromSpec`, `BredFromParentage` and `BredFromDraws` state its properties and `Fisher.Fisher.Breed` is proved to compute it |
| `Fisher.BredFromSpec` | src/ibm/fisher.cpp:168-188 | every offspring's mother is the uniform index drawn at the start of its round, its father is the male `choose` returns for her at the next draw and one of those sampled, and its kid inherits from the two |
| `Fisher.BredFromParentage` | src/ibm/fisher.cpp:168-188 | every offspring of the loop has a mother below the number of females and a father below the number of males, and inherits from them |
| `Fisher.BredFromDraws` | src/ibm/fisher.cpp:168-188 | N rounds of the offspring loop take between N (n_males_sampled + 11) and N (n_males_sampled + 19) draws |
| `Fisher.EvenBroodPlacesAll` | src/ibm/fisher.cpp:192-212 | with N even, as the comment on `N` in parameters.hpp asks, the females offspring[0, N/2) followed by the males offspring[N/2, 2(N/2)) are the whole brood |
| `Fisher.Fisher.SplitBrood` | src/ibm/fisher.cpp:192-212 | the refill loops give the first N/2 offspring as daughters and the next N/2 as sons, in order |
| `Fisher.Fisher.Reproduce` | src/ibm/fisher.cpp:149-213 | the run stops (`Extinct`) iff a cohort is empty, and then there are no offspring, both cohorts are unchanged and no draw is used; otherwise the N offspring are the rounds `BredFrom` gives for the old cohorts, with in-range parents they inherit from, the females become offspring[0, N/2) and the males offspring[N/2, 2(N/2)), N/2 of each; the generation counter and both surviving fractions are unchanged |
| `Fisher.NoDriftInReproduction` | src/ibm/fisher.cpp:168-188 | without mutation, a generation bred from initial individuals is all initial |
| `Fisherian.MutatedAt` | src/ibm/fisherian.cpp:140-147 | `mutate` as a function of the draw position. No contract of its own; `MutatedAtSpec` states its properties and `Fisherian.Engine.Mutate` is proved to compute it |
| `Fisherian.MutatedAtSpec` | src/ibm/fisherian.cpp:140-147 | `mutate` uses one draw when the allele stays and three when it mutates; the allele changes only when the first draw is below mu, then by the step draw times 0.4 (so by less than 0.4), downwards iff the third draw is below the bias |
| `Fisherian.AlleleAt` | src/ibm/fisherian.cpp:218-219 | one inherited allele (a segregation draw, then `mutate`) as a function of the draw position. No contract of its own; `AlleleAtSpec` states its properties and `Fisherian.Engine.Inherit` is proved to compute it |
| `Fisherian.AlleleAtSpec` | src/ibm/fisherian.cpp:218-219 | an inherited allele uses 2 or 4 draws and comes from the parental locus (within one step when mutation can fire); with mu 0 it is the parental allele picked |
| `Fisherian.KidAt` | src/ibm/fisherian.cpp:210-230 | `Create_Kid` as a function of the draw position. No contract of its own; `KidAtSpec` states its properties and `Fisherian.Engine.CreateKid` is proved to compute it |
| `Fisherian.KidAtSpec` | src/ibm/fisherian.cpp:210-230 | `Create_Kid` uses 8 to 16 draws, leaves the expressed values alone and takes t[0], p[0] from the mother and t[1], p[1] from the father; without mutation each is exactly the allele picked by its segregation draw |
| `Fisherian.Sieve` | src/ibm/fisherian.cpp:249-280 | the survivor indices are at most n, each below n |
| `Fisherian.SieveIncreasing` | src/ibm/fisherian.cpp:249-262 | the survivors are listed in increasing index order: an order-preserving subsequence |
| `Fisherian.SieveMembers` | src/ibm/fisherian.cpp:259-262 | index i survives iff its draw is below its survival probability |
| `Fisherian.KeptIsSieved` | src/ibm/fisherian.cpp:267-280 | the survivor buffer holds exactly the individuals at the surviving indices, in order |
| `Fisherian.Attraction` | src/ibm/fisherian.cpp:331-364 | the preference function's value is capped at 100 |
| `Fisherian.AttractionBounds` | src/ibm/fisherian.cpp:361-364 | with a non-negative `exp` every attractiveness lies in [0, 100] |
| `Fisherian.SampleSize` | src/ibm/fisherian.cpp:311-311 | the sample size is N_mate_sample, or the number of surviving males when that is smaller, and positive when any male survived |
| `Fisherian.CumulativeEntry` | src/ibm/fisherian.cpp:366-368 | `Fitness[j]` is the sum of the weights up to and including j |
| `Fisherian.CumulativeIsDistribution` | src/ibm/fisherian.cpp:366-368 | with non-negative weights the cumulative weights never decrease and the last one equals `sumFitness` |
| `Fisherian.FirstAtLeast` | src/ibm/fisherian.cpp:383-390 | an index found is in range and its cumulative weight reaches r |
| `Fisherian.FirstAtLeastIsFirst` | src/ibm/fisherian.cpp:383-390 | no earlier entry reaches r, and none at all when nothing is found |
| `Fisherian.Wheel` | src/ibm/fisherian.cpp:379-390 | the father is a candidate or the default one |
| `Fisherian.Roulette` | src/ibm/fisherian.cpp:375-390 | the wheel spun to the uniform draw times the total weight gives a candidate or the default father |
| `Fisherian.WheelStops` | src/ibm/fisherian.cpp:383-390 | a point no larger than the total of non-negative weights is reached by some cumulative weight |
| `Fisherian.RouletteStops` | src/ibm/fisherian.cpp:375-390 | with non-negative weights and a draw in [0, 1) the wheel always stops at a candidate |
| `Fisherian.ChooseWith` | src/ibm/fisherian.cpp:301-394 | there is no father iff the selector is unknown, in which case one draw is used; otherwise SampleSize + 2 draws are used and the father is below the number of surviving males |
| `Fisherian.ChooseAt` | src/ibm/fisherian.cpp:301-394 | `Choose` stops the program iff `pref` is not 0, 1 or 2, and the number of draws it consumes |
| `Fisherian.ChooseAtKnown` | src/ibm/fisherian.cpp:375-390 | with a known selector the father is the roulette wheel over the sample's attractiveness, at the uniform draw, with the default index draw as fallback |
| `Fisherian.ChooseAtCandidate` | src/ibm/fisherian.cpp:379-390 | the father is a sampled candidate or the default index draw |
| `Fisherian.ChooseWithSampled` | src/ibm/fisherian.cpp:383-392 | with attractiveness non-negative on the sample the father is always a sampled candidate |
| `Fisherian.ChooseAtSampled` | src/ibm/fisherian.cpp:383-392 | the same for the preference functions of `Choose` |
| `Fisherian.FallbackNeverUsed` | src/ibm/fisherian.cpp:379-392 | with a non-negative `exp`, the default father drawn at line 379 is never the result: the father is always a sampled candidate |
| `Fisherian.ChooseAll` | src/ibm/fisherian.cpp:416-425 | the pairing loop's choices: one in-range father per surviving female, or a stop iff some female exists and the selector is unknown |
| `Fisherian.ChooseAllDraws` | src/ibm/fisherian.cpp:416-425 | with a known selector each female's choice uses SampleSize + 2 draws |
| `Fisherian.Count` | src/ibm/fisherian.cpp:427-431 | the number of females that chose a male is at most the number of females |
| `Fisherian.CountPositive` | src/ibm/fisherian.cpp:427-431 | a male gains eggs iff some female chose him |
| `Fisherian.CountsAddUp` | src/ibm/fisherian.cpp:427-431 | over all surviving males the choice counts add up to the number of females, so the father eggs add up to the mother eggs |
| `Fisherian.BirthAt` | src/ibm/fisherian.cpp:457-489 | one round of the replacement loop as a function of the draw position: the parent-table row, the kid with its expressed values, and the sex draw. No contract of its own; `BirthDescends`, `BirthDraws` and `BirthAtParts` state its properties |
| `Fisherian.BirthDescends` | src/ibm/fisherian.cpp:458-478 | the row drawn is in range, and the kid descends from the female of that row and the male she chose, its expressed values being the means of its alleles |
| `Fisherian.BirthDraws` | src/ibm/fisherian.cpp:458-488 | one round of the replacement loop uses 10 to 18 draws |
| `Fisherian.Offspring` | src/ibm/fisherian.cpp:455-489 | the first n rounds of the replacement loop chained by their draw positions; its contract gives n births. `OffspringDescend`, `OffspringDraws` and `BreedsOffspring` state the rest, and `NextGen` is proved to compute it |
| `Fisherian.OffspringDescend` | src/ibm/fisherian.cpp:455-489 | every kid of the next generation descends from its row's female and her mate, with expressed values the means of its alleles |
| `Fisherian.OffspringDraws` | src/ibm/fisherian.cpp:455-489 | n rounds use between 10 n and 18 n draws |
| `Fisherian.BreedsOffspring` | src/ibm/fisherian.cpp:455-489 | n rounds of any round function that agrees with `BirthAt` at every position give the births `Offspring` gives |
| `Fisherian.BroodPartition` | src/ibm/fisherian.cpp:481-488 | every kid becomes exactly one son or one daughter (as multisets) |
| `Fisherian.BroodSizes` | src/ibm/fisherian.cpp:481-492 | sons plus daughters equal the number of kids |
| `Fisherian.Engine.constructor` | src/ibm/fisherian.cpp:78-112 | the globals at program start: arrays of capacity N whose every entry is a blank individual or 0, a parent table of N * clutch_size rows of zeros, popsize N split evenly, no survivors |
| `Fisherian.Engine.InitOne` | src/ibm/fisherian.cpp:183-191 | one iteration of `Init` makes the individual the initial one, alleles and expressed values |
| `Fisherian.Engine.Init` | src/ibm/fisherian.cpp:174-207 | the first Nfemales females and Nmales males become initial; the rest of the arrays is untouched |
| `Fisherian.Engine.Mutate` | src/ibm/fisherian.cpp:140-147 | `mutate` on the shared engine gives the specified allele and draw position |
| `Fisherian.Engine.Inherit` | src/ibm/fisherian.cpp:218-219 | a segregation draw and `mutate` give the specified allele |
| `Fisherian.Engine.CreateKid` | src/ibm/fisherian.cpp:210-230 | with in-range survivor indices (the asserts), `Create_Kid` gives the specified kid and draw position |
| `Fisherian.Engine.Sift` | src/ibm/fisherian.cpp:249-262 | one survival loop writes exactly the survivors, in order, at the front of the survivor array, sums their ornaments, leaves every entry after them as it was, and uses one draw per individual |
| `Fisherian.Engine.SiftBoth` | src/ibm/fisherian.cpp:249-280 | females take the first Nfemales draws and males the next Nmales; each survivor array gets its survivors in order and keeps its entries after them |
| `Fisherian.Fitness` | src/ibm/fisherian.cpp:250-272 | the survival probability exp(-b p^2 + (1 - sexlimt)(-c) t^2) of a female and exp(-c t^2 + (1 - sexlimp)(-b) p^2) of a male, on the expressed values. No contract of its own; `Fisherian.Engine.Survive` keeps exactly the individuals whose draw is below it |
| `Fisherian.Engine.Survive` | src/ibm/fisherian.cpp:233-297 | survivor counts at most the cohort sizes; survivor arrays hold the order-preserving survivors and keep their entries after them; extinction iff either count is 0; otherwise `meanornsurv` is the mean surviving-male ornament and both counts are below popsize |
| `Fisherian.Engine.Settle` | src/ibm/fisherian.cpp:283-296 | stores the counts, reports extinction iff either is 0, and otherwise divides the ornament sum by the male count |
| `Fisherian.Engine.Assess` | src/ibm/fisherian.cpp:316-372 | the sampling loop writes the candidate indices and the running totals of their attractiveness, or stops at the first draw with an unknown selector |
| `Fisherian.Engine.Spin` | src/ibm/fisherian.cpp:383-390 | the second loop returns the first candidate whose cumulative weight reaches r, or the default |
| `Fisherian.Engine.SpinWheel` | src/ibm/fisherian.cpp:375-390 | the uniform draw and the default index draw are the next two positions of the stream, and the father is the wheel over the recorded cumulative weights and candidates spun to the uniform draw times the total, with the default draw as fallback |
| `Fisherian.Engine.Pick` | src/ibm/fisherian.cpp:301-394 | the body of `Choose` gives the specified father (or stop) and draw position |
| `Fisherian.Engine.ChooseFrom` | src/ibm/fisherian.cpp:301-394 | `Choose` with its two local arrays gives the specified father and draw position |
| `Fisherian.Engine.Choose` | src/ibm/fisherian.cpp:301-394 | `Choose(p, father)` among the surviving males gives the father and draw position `ChooseAt` gives |
| `Fisherian.Engine.ResetEggs` | src/ibm/fisherian.cpp:402-413 | the egg counts of the surviving males and females become 0, the rest are untouched |
| `Fisherian.Engine.WriteClutch` | src/ibm/fisherian.cpp:435-440 | rows offspring .. offspring + clutch_size - 1 become (i, Father); earlier rows are untouched |
| `Fisherian.Engine.Tally` | src/ibm/fisherian.cpp:427-431 | the female and her mate each gain clutch_size eggs, nobody else changes |
| `Fisherian.Engine.Enroll` | src/ibm/fisherian.cpp:427-440 | one pairing keeps the parent table and the egg counts in step with the mates chosen so far |
| `Fisherian.Engine.PairOne` | src/ibm/fisherian.cpp:416-441 | one round of the pairing loop follows the choices `ChooseAll` gives, keeping the table and the egg counts |
| `Fisherian.Engine.PairUp` | src/ibm/fisherian.cpp:416-442 | the pairing loop ends iff every female chose; then row r of the table is (r / clutch_size, her mate) for all fsurvivors * clutch_size rows, and each male's eggs grow by clutch_size per female that chose him |
| `Fisherian.Engine.Breed` | src/ibm/fisherian.cpp:458-488 | one replacement round draws a row, makes the kid, sets its expressed values and appends it to the sons or daughters |
| `Fisherian.Engine.Replace` | src/ibm/fisherian.cpp:455-489 | the replacement loop puts the sons of the specified births at the front of `Males` and the daughters at the front of `Females`, and sons plus daughters equal the number of rounds |
| `Fisherian.Engine.Pair` | src/ibm/fisherian.cpp:402-442 | the `do_stats` reset and the pairing loop: the choices `ChooseAll` gives, the parent table, and the egg counts from zero |
| `Fisherian.Engine.Repopulate` | src/ibm/fisherian.cpp:446-492 | popsize becomes min(offspring, N) and that many kids replace the population, Nmales + Nfemales = popsize |
| `Fisherian.Engine.Finish` | src/ibm/fisherian.cpp:446-492 | after the pairing loop: a stop leaves the population unchanged, otherwise the population is replaced |
| `Fisherian.Engine.NextGen` | src/ibm/fisherian.cpp:396-493 | `NextGen` stops with a wrong-preference outcome iff a choice stops the program, leaving the population as it was; otherwise the parent table, the egg counts, popsize = min(offspring, N), Nmales + Nfemales = popsize, and sons and daughters are those of the specified births |

## Left out

- File output (`WriteParameters`, `WriteData`, `WriteDataHeaders`, `write_data`, `write_parameters`, `write_data_headers`) and the statistics computed there are I/O and floating-point reporting. They are not modelled, and neither is the data file name.
- `main`, `initArguments`, `run_simulation` and `src/ibm/main.cpp` are left out. They are the generation loop, command-line parsing and the `do_stats` schedule; `doStats` is a field the model reads as it is.
- The Mersenne Twister, its seeding from `std::random_device` and the sampling algorithms of the standard distributions are library internals. Each distribution is an oracle that promises only its range. In particular, the categorical draw may return any index below the number of weights.
- `exp` is a supplied function, and doubles are modelled as exact reals: rounding, infinities and NaN are not modelled.
- Process termination with `exit(1)` becomes the `Extinct` or `WrongPreference` outcome (or no father from `Choose`), after which the model does nothing further.
- The `assert`s of the source are proved as postconditions or preconditions; none is modelled as a run-time check.
- `Fisherian.Engine.Survive`: on extinction the model keeps `meanornsurv` as the undivided ornament sum, as the code does before `exit(1)`.
- `Fisherian.BirthAt`: it reads mother index 0's mate and a blank individual for indices outside the survivors. This case cannot arise for a well-formed source, and `BirthDescends` excludes it.
- `Fisherian.Engine.Breed`: the uninitialised local `Kid` is modelled as a blank individual. Every field of it is written before it is stored.
- `Fisherian.Engine.NextGen`: the model assigns `popsize` after the replacement loop instead of before it. Nothing in the loop reads `popsize`.
- `Fisherian.Engine.NextGen`: entries of `Males` and `Females` beyond the new sons and daughters are not stated. The code never reads them.
- `Fisherian.Engine.NextGen`: the egg counts on the wrong-preference path are not stated, because the program exits there.
- `Fisher.Fisher.constructor`: it requires N >= 2, because the model divides by N/2 as exact reals; the code would divide by zero in floating point.
- `Fisher.Fisher.Choose`: it requires `n_males_sampled` > 0. With no sample, the code's own assert on the first categorical draw fails and it indexes an empty vector.
- The 32-bit `int` and `unsigned int` counters are unbounded naturals. The arrays bound every count the code forms, so no wrap-around is reachable.
- `WriteData` exits when there are no sons or no daughters (src/ibm/fisherian.cpp:502-506). It is not modelled; in the model an empty cohort shows up as `Extinct` in the next `Survive`.
