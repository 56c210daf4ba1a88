# The arena, verified

A model in Dafny 4.11 of MAGE's arena, the self-play search loop: the space of programs and its text, the
search over it, the entropy-chunked learner, the measures, and the run that spends an energy budget on them;
with proofs of what the arena's documentation and tests promise of each.

`dafny verify dfyconfig.toml` checks everything.

## What is modelled

**The program grammar.** `Grammar` has the typed trees, the limits of a profile (with the shipped ones as
`SHIPPED`), and what it is to be well formed: every literal and length within its limit, every name one the
surface can spell, every variable bound, and the depth limit. `Printer` writes a tree as text, character by
character. `Parser` is the recursive-descent parser, a class that moves a position and a nesting level;
`Reading` is the same parser as a function of the text, and each method of the class is proved equal to it.
`RoundTrip`, `RoundTripLists`, `Accepting` and `AcceptingLists` prove that the two are inverse on exactly the
well-formed programs.

**The search.** `Random` and `Sampler` draw programs; `Graft` and `Search` mutate and cross them; `Lineage`
says what any chain of these can reach. `Meaning` gives programs their values, in MAGE's 64-bit integers;
`Renaming` says when freshening a graft keeps them, `Rewrites` that the attacker's rewrites do, and `Sizes`
how long lists can get.

**The learner.** `Mixture` has the fixed-share mixture of two experts and its regret bound, `Bits` the same in
bits; `Entropy` the segmentation, the counts, the scoring loop, training and the incremental predictor; and
`Quantile` the threshold that training leaves.

**Measures and tables.** `Lz76` (the Kaspar-Schuster parse), `RankTest` (Mann-Whitney),
`Allocation` (largest remainder) and `Pool` (eviction).

**Records.** `Evidence` is the hash-chained log; `Bytes` and `Trajectory` the physics corpus's codecs.

**The run.** `Ledger` is the energy ledger, `Run` the loop of rounds over any agents, programs, meters and
rewards, and `EvalCache` the cache of evaluations.

## Where the code and its documentation differ

The model follows the code. Each difference is proved.

* `freshen` is documented to let a graft neither capture nor be captured. It does keep every binding of a
  closed tree exactly when the tree is `Safe` for the tag (`Renaming.FreshenKeepsBindings`). A scan over
  `|a, ac1|` whose body is `a` is captured by the tag `c1` (`Renaming.TaggedScanIsCaptured`), because the
  two names are replaced one after the other. A template whose variable is `s` and whose elements name `s`
  is changed too (`Renaming.TaggedCycleIsFreed`): a comment says the variable is never used in the elements,
  and the parser lets it be. A program read from a text can be either, and crossover, whose tags are `c` and a
  number, then grafts a list other than the donor's (`Lineages.CrossoverCaptures`, `Lineages.CrossoverFrees`).
  Mutation cannot: it tags fresh samples only, and neither arises from samples, at any number of steps
  (`Lineages.SampleIsApart`, `Lineages.GraftsKeepMeaning`).
* A closure's variable may be named `wrapping_add`, `wrapping_sub` or `wrapping_mul`: the parser accepts it,
  and it is then a variable that nothing refers to. A variable that is used may not. Well-formedness says so,
  and `AcceptingLists.RoundTripsExactly` is exact for it.
* A trajectory of 2^32 steps or more does not read back, because the header's step count is cut to 32 bits
  without a check (`Trajectories.DecodeInvertsEncode`). A spring at rest for as long is one
  (`Trajectories.LongRestIsLost`).

* A log that verifies is to be appended to as one that verifies. It is exactly when each record appended reads back
  as it is written (`Evidence.ContinuedVerifies`), which nothing checks before it is (`Evidence.UnreadableIsFound`).

## Model

| member | source | states |
|---|---|---|
| Text.SquashSkip | arena/src/grammar.rs:1067-1070 | skipping drops white space and nothing else |
| Text.ValueOfDigits | arena/src/grammar.rs:1132-1146 | the decimal string of a number has no leading zero and reads back as that number |
| Text.DigitsOfValue | arena/src/grammar.rs:1132-1146 | a digit string the parser accepts is the one decimal string of its value, so no number is spelled two ways |
| Text.NumberReads | arena/src/grammar.rs:1132-1146 | a number within its bounds and a word is read back from its digits, leaving the rest, with or without a blank before it |
| Text.IdentReads | arena/src/grammar.rs:1121-1130 | a name is read back whole when what follows does not continue a word |
| Text.EatToken | arena/src/grammar.rs:1083-1095 | a token is read back, leaving the rest, unless it would run on into a word |
| Text.SquashNumber | arena/src/grammar.rs:1132-1146 | an accepted number consumed exactly its canonical digits, and white space before them |
| Grammar.ShippedLimitsServe | kb/profiles/arena.mg:85-101 | the shipped limits meet every constraint that the parser and the sampler need, so the results below hold of the program space as shipped |
| Grammar.ShiftFits | arena/src/grammar.rs:1342-1347 | the bounds on an oscillator’s coefficients, 2 to the shift and to one more, stay within the word they are shifted in |
| Grammar.Pow2Monotone | arena/src/grammar.rs:149-163 | the coefficient bounds grow with the shift, so the largest shift bounds every oscillator drawn |
| Parsing.Parse | arena/src/grammar.rs:984-1000 | the stateful recursive-descent parser computes exactly the function of the text that the round-trip results are about, errors included |
| Parsing.Parser.constructor | arena/src/grammar.rs:1054-1062 | a parser starts at the text’s start, at nesting level 0 |
| Parsing.Parser.SkipWs | arena/src/grammar.rs:1067-1070 | refines its reading function: white space is skipped and nothing else |
| Parsing.Parser.Peek | arena/src/grammar.rs:1072-1075 | refines its reading function: the next character is shown after white space, none at the end |
| Parsing.Parser.Eat | arena/src/grammar.rs:1083-1095 | refines its reading function: a token is consumed only whole and not into a word; else only white space is |
| Parsing.Parser.Expect | arena/src/grammar.rs:1097-1103 | refines its reading function: a token is consumed or the refusal names it |
| Parsing.Parser.Ident | arena/src/grammar.rs:1121-1130 | refines its reading function: a maximal word that starts with no digit is consumed |
| Parsing.Parser.Number | arena/src/grammar.rs:1132-1146 | refines its reading function: maximal digits without a leading zero, within a word and the bounds, are consumed; each failure has its own refusal |
| Parsing.Parser.Enter | arena/src/grammar.rs:1148-1155 | refines its reading function: a level is entered, and refused past the nesting limit |
| Parsing.Parser.Int | arena/src/grammar.rs:1164-1170 | refines its reading function: an integer expression is read in its scope, and the nesting level is restored on success |
| Parsing.Parser.IntBody | arena/src/grammar.rs:1527-1565 | refines its reading function: a literal, a modulo, an operator’s call or a variable in scope, chosen by the next character |
| Parsing.Parser.Template | arena/src/grammar.rs:1476-1506 | refines its reading function: a template is read only over a range whose length it allows, with its own variable and its own element count |
| Parsing.Parser.TemplateFollows | arena/src/grammar.rs:1465-1474 | refines its reading function: whether a template follows is decided without moving the position |
| Parsing.Parser.Method | arena/src/grammar.rs:1396-1459 | refines its reading function: one method call is read by its name, with each method’s own arguments and refusals |
| Parsing.Parser.OscOpening | arena/src/grammar.rs:1243-1268 | refines its reading function: the oscillator’s opening is recognised by lookahead; the text is consumed through its parentheses only then |
| Parsing.Parser.OscBody | arena/src/grammar.rs:1270-1349 | refines its reading function: after the opening every token is fixed and every number bounded, the coefficients by the shift |
| Parsing.Parser.Oscillation | arena/src/grammar.rs:1229-1241 | refines its reading function: the position is given back when no oscillator opens, and the form is refused under a policy without it |
| Parsing.Parser.RangeLength | arena/src/grammar.rs:1190-1215 | refines its reading function: a length past the range limit is let through only when the template limit allows it and a template follows |
| Parsing.Parser.Flatten | arena/src/grammar.rs:1351-1394 | refines its reading function: nested counting, concatenation and copying are told apart by what follows the bracket |
| Parsing.Parser.Atom | arena/src/grammar.rs:1185-1227 | refines its reading function: an oscillator, a repetition, a range or a flattening, in that order of lookahead |
| Parsing.Parser.Chain | arena/src/grammar.rs:1172-1183 | refines its reading function: method calls apply left to right, and are refused past the nesting limit in one chain |
| Parsing.Parser.List | arena/src/grammar.rs:1157-1162 | refines its reading function: a list is read one level down, and the nesting level is restored on success |
| Parsing.Parser.Body | arena/src/grammar.rs:984-1000 | refines its reading function: the body is read bare, or inside the whole source text when it starts with an attribute |
| RoundTrip.IntReads | arena/src/grammar.rs:1527-1565 | every writable integer expression in scope and within the nesting limit reads back from what the printer writes, whatever follows |
| RoundTrip.CycleReads | arena/src/grammar.rs:1476-1506 | every writable template reads back, its element list included |
| RoundTripLists.OscReads | arena/src/grammar.rs:1229-1349 | every writable oscillator reads back from its fixed surface under a policy that has the form |
| RoundTrip.ScanNoOsc | arena/src/grammar.rs:1243-1268 | no printed scan over a range is mistaken for an oscillator by the lookahead |
| RoundTripLists.AtomAfterLookahead | arena/src/grammar.rs:1185-1227 | when neither an oscillator opens nor a bracket comes, an atom is decided by its name alone |
| RoundTripLists.ListReads | arena/src/grammar.rs:1157-1227 | every well-formed list at depth d reads back from what the printer writes, for any nesting level with room for it |
| RoundTripLists.ParseInvertsSource | arena/src/grammar.rs:984-1000 | parsing the source, or the bare body, of a well-formed program gives the program |
| Accepting.IntAccepts | arena/src/grammar.rs:1164-1170 | an accepted integer expression is writable, in scope, and its printed form is what was consumed up to white space |
| AcceptingLists.MethodAccepts | arena/src/grammar.rs:1396-1459 | an accepted method call gives a list whose new parts are writable and in scope, and whose printed form is what was consumed |
| AcceptingLists.RangeLengthAccepts | arena/src/grammar.rs:1190-1215 | an over-long range that is let through is followed by a template, which then checks its length |
| AcceptingLists.OscillationAccepts | arena/src/grammar.rs:1229-1349 | an accepted oscillator is within the parser’s bounds and was written in the one surface it has |
| AcceptingLists.ListAccepts | arena/src/grammar.rs:1157-1227 | every accepted list is writable and closed, has no oscillator under a policy without them, and prints as what was consumed |
| AcceptingLists.ParseAccepts | arena/src/grammar.rs:984-1000 | every accepted text denotes a well-formed program and is that program’s source, or its bare body, up to white space |
| AcceptingLists.RoundTripsExactly | arena/src/grammar.rs:984-1000 | parse inverts source on a tree if and only if the tree is well formed, for source texts and bare bodies alike |
| AcceptingLists.SourceIsInjective | arena/src/grammar.rs:313-319 | two well-formed programs with the same source are the same program |
| AcceptingLists.FirstOrderIsFree | arena/src/grammar.rs:980-1000 | a tree round-trips with the second-order form off exactly when it does with it on and holds no oscillator |
| Random.Rng.Range | arena/src/grammar.rs:363-365 | a draw is within its bounds, and is the bound plus the generator’s output modulo their number of values |
| Random.Rng.Pick | arena/src/grammar.rs:449-462 | the picked production is allowed, and is the first allowed one whose cumulative probability passes the draw, else the last allowed |
| Random.DrawnByShare | arena/src/grammar.rs:449-462 | a point of the allowed mass picks a production if and only if it is allowed and the point falls in its own stretch of the mass: each is picked with its own share, and the fallback is never needed |
| Random.PointIsInMass | arena/src/grammar.rs:449-462 | with some allowed production of positive probability, every random word falls in the mass |
| Sampling.Sampler.Int | arena/src/grammar.rs:550-572 | an integer sample is writable, in scope and within the depth limit at its depth; the trace grows by exactly the choices that derive it; it is the one the generator’s words draw when each is taken in turn, production first and then parts from left to right; it ends by remaining depth |
| Sampling.Sampler.List | arena/src/grammar.rs:481-548 | a list sample is writable, closed and within the depth limit at its depth, has no oscillator under a policy without them, its choices are the trace’s, its variables are numbered in the order they are bound, and it is the one the generator’s words draw in turn |
| Sampling.Sampler.Leaf | arena/src/grammar.rs:488-546 | each leaf production’s parts come from the generator’s words in that production’s own order, and the generator is left just after them |
| Sampling.Sampler.Node | arena/src/grammar.rs:488-531 | each production over a list draws that list first and its other parts after it, in that production’s own order, and the generator is left just after them |
| Sampling.Sampler.Elements | arena/src/grammar.rs:521-531 | a template’s elements come one after another, each from two words: a variable in scope one time in four, else a literal |
| Sampling.Sampler.Oscillation | arena/src/grammar.rs:533-543 | a drawn oscillator is one the parser accepts; its six words are the shift, b, a, the length and the two seeds, in that order |
| Sampling.SampleAt | arena/src/grammar.rs:584-588 | a sample at depth d is one that fits there, with the trace that derives it, and is drawn from the generator’s words from the first on |
| Sampling.ScanDrawn | arena/src/grammar.rs:497-504 | a scan made of samples is a sample: its trace, depth, scope and variables |
| Sampling.ConcatDrawn | arena/src/grammar.rs:512-515 | so is a concatenation, its two sides’ traces and variables in turn |
| Grafting.PathsAreAll | arena/src/grammar.rs:623-641 | the listed paths are exactly the paths to list subtrees |
| Grafting.PathsAreDistinct | arena/src/grammar.rs:623-641 | and each is listed once |
| Grafting.PutGet | arena/src/grammar.rs:643-685 | what is put at a path is what is then there |
| Grafting.GetPut | arena/src/grammar.rs:643-685 | putting back what was there changes nothing |
| Grafting.PutElsewhere | arena/src/grammar.rs:643-662 | a graft leaves every subtree that neither holds it nor is held by it as it was |
| Grafting.SubtreeKeeps | arena/src/grammar.rs:623-662 | the subtree at a path of length n of a program that fits at d fits at d + n and is closed under the top scope |
| Grafting.GraftKeeps | arena/src/grammar.rs:788-848 | replacing a subtree by one that fits at its path’s length keeps the program within depth, closed and writable |
| Grafting.FreshenKeeps | arena/src/grammar.rs:732-775 | freshening keeps a tree writable, closed and within depth |
| Grafting.FreshenClosed | arena/src/grammar.rs:732-775 | renaming a scan’s two variables one after the other leaves no variable dangling |
| Search.MutateBounded | arena/src/grammar.rs:788-799 | a mutant is its parent with a tagged sample, drawn for the site’s depth when bounded, at one of its list subtrees; the site is drawn first, then the sample, then the tag |
| Search.CrossoverBounded | arena/src/grammar.rs:814-848 | a hybrid is one parent with a tagged closed subtree of the other at one of its sites, one that fits there when bounded; it is the parent unchanged, with nothing drawn, exactly when no pair may cross; bounded, a pair is drawn and then the tag; unbounded, the donor, the tag and then the site |
| Search.FittingPairs | arena/src/grammar.rs:820-828 | the pairs collected are exactly the (site, donor) pairs whose donor fits at the site’s depth, each once, site by site |
| Search.PairsAreListedOnce | arena/src/grammar.rs:820-832 | no pair is listed twice, so that drawing a place in the list draws among the pairs evenly |
| Search.Donors | arena/src/grammar.rs:815-817 | the donors kept are exactly the subtrees closed under the top scope |
| Lineages.MutantIsWellFormed | arena/src/grammar.rs:788-799 | a bounded mutant of a well-formed program is well formed |
| Lineages.HybridIsWellFormed | arena/src/grammar.rs:814-848 | a bounded hybrid of well-formed programs is well formed |
| Lineages.EveryLineageIsWellFormed | arena/src/grammar.rs:584-588 | every finite chain of sampling, parsing, bounded mutation and bounded crossover stays well formed, and each program is read back from its own source |
| Lineages.UnboundedMutant | arena/src/grammar.rs:780-799 | an unbounded mutant is well formed but for its depth: its source reads back exactly when it is within the limit |
| Lineages.UnboundedHybrid | arena/src/grammar.rs:805-848 | so is an unbounded hybrid |
| Lineages.SampleIsApart | arena/src/grammar.rs:476-504 | in a sample no scan’s element name continues its accumulator’s, and no template’s variable is the input |
| Lineages.PrefixIsSmall | arena/src/grammar.rs:476-479 | a number whose decimal string starts another’s is that number or at most a tenth of it |
| Lineages.LineageIsApart | arena/src/grammar.rs:732-775 | every step of a lineage keeps names apart, if what was read from texts was |
| Lineages.GraftsKeepMeaning | arena/src/grammar.rs:788-848 | along any lineage every mutant computes its parent with the sample as drawn at the site, and, if what was read from texts was apart, every hybrid its parent with the donor’s own subtree there |
| Lineages.CrossoverCaptures | arena/src/grammar.rs:817-848 | a scan that a text can hold, crossed whole into any program at any site with room below it and tagged c1, puts another list there than its own; at the root the hybrid’s value differs from the program with the donor’s own subtree |
| Lineages.CrossoverFrees | arena/src/grammar.rs:817-848 | so does a template that names its own variable |
| Meaning.ScanValues | arena/src/grammar.rs:1717-1741 | a scan emits the accumulator it starts with first, so it is one longer than its list |
| Meaning.SortedSorts | arena/src/grammar.rs:127-128 | sorting gives the same elements in ascending order |
| Meaning.OscValuesAreWords | arena/src/grammar.rs:2072-2081 | an oscillator emits exactly n values, each a 64-bit word |
| Sizes.SizeIsBounded | arena/src/grammar.rs:25-31 | evaluating a well-formed list at depth d meets no unbound variable, no empty template and no remainder by zero, and builds at most Longest(g, d) elements |
| Sizes.LongestIs | arena/src/grammar.rs:25-31 | that bound is the longest leaf times the copy limit to the power of the remaining depth |
| Sizes.ShippedSizes | kb/profiles/arena.mg:85-101 | under the shipped limits every well-formed program computes a list of at most 96 · 6⁵ elements |
| Sizes.CycleNeverStuck | arena/src/grammar.rs:138-139 | a template’s index is always in range |
| Renaming.AlikeMeansSame | arena/src/grammar.rs:732-775 | trees alike but for the names they bind compute the same list |
| Renaming.ScanBodyAlike | arena/src/grammar.rs:752-759 | tagging a scan’s variables in turn keeps its body’s bindings exactly when the element’s name is not the accumulator’s tagged one, or the body does not mention the accumulator |
| Renaming.FreshenKeepsBindings | arena/src/grammar.rs:732-775 | freshening keeps every binding of a closed tree if and only if the tree is safe for the tag |
| Renaming.FreshenKeepsMeaning | arena/src/grammar.rs:732-775 | a closed tree that is safe for the tag computes, freshened, what it computed |
| Renaming.SameValueInPlace | arena/src/grammar.rs:643-662 | a program’s value depends on a subtree only through that subtree’s value |
| Renaming.CapturedAreWellFormed | arena/src/grammar.rs:730-731 | two programs of the shipped space that are not safe for the crossover tag c1 |
| Renaming.TaggedScanIsCaptured | arena/src/grammar.rs:752-759 | freshening the first changes its value: the accumulator’s tagged name is the element’s |
| Renaming.TaggedCycleIsFreed | arena/src/grammar.rs:769-770 | freshening the second changes its value: the template’s variable is the input its elements name |
| Rewrites.RewriteIsIdentity | arena/src/agents.rs:494-505 | each rewrite computes what its argument computes, for every expression and input, stuck or not |
| Rewrites.RewriteDepth | arena/src/agents.rs:494-505 | a rewrite passes the depth check at d exactly when its argument passes at d + 2, or at d + 1 for the map |
| Rewrites.FitsAbove | arena/src/grammar.rs:1006-1047 | what fits at a depth fits at any lesser one |
| Mixture.PosteriorIsWeight | arena/src/entropy.rs:172-180 | every update leaves the weights summing to one and each at least half the share |
| Mixture.StepKeeps | arena/src/entropy.rs:166-180 | one step of the mixture keeps, of any expert’s standing, all but half the share, and gives the other half the share |
| Mixture.TracksAnyPath | arena/src/entropy.rs:199-213 | the mixture does at least as well as any forecaster that picks an expert anew for each byte, less the first weight and the rate of each step |
| Mixture.NeverTrailsAnExpert | arena/src/entropy.rs:39-53 | against either expert alone the loss is its first weight and half the share per byte after the first, so certainly the share |
| Entropy.LearnerNeverTrails | arena/src/entropy.rs:490-511 | that bound for the learner itself, on every text, from every trained state |
| Entropy.LearnerNeverTrailsInBits | arena/src/entropy.rs:490-511 | in bits a byte, the learner is above an expert that gives the text any probability by no more than a constant over the text’s length and the rate of the share |
| Entropy.WeightStaysWeight | arena/src/entropy.rs:38-43 | the moving weights are weights before every byte of every text |
| Entropy.SegmentIsCausal | arena/src/entropy.rs:5-10 | every boundary before a position depends only on the bytes before it |
| Entropy.WeightIsCausal | arena/src/entropy.rs:45-48 | so do the weights: a decoder that has read the bytes before a position has them |
| Entropy.ChunkRowIsDistribution | arena/src/entropy.rs:25-32 | the chunk table backed off to the n-gram is a distribution for every key |
| Entropy.MixtureIsDistribution | arena/src/entropy.rs:34-38 | so is the mixture, whatever was counted |
| Entropy.CountedServes | arena/src/entropy.rs:219-232 | counting a byte keeps every bucket’s total the sum of its counts |
| Entropy.BatchCountsBytes | arena/src/entropy.rs:219-232 | a training batch counts each of its bytes once, and leaves the weights weights |
| Entropy.PushingScoresTheSame | arena/src/entropy.rs:322-336 | pushing bytes one at a time scores them as the whole text is scored |
| Entropy.Segmenter.Advance | arena/src/entropy.rs:93-101 | a nonempty chunk is closed exactly when the byte cuts |
| Entropy.EntropyLearner.Step | arena/src/entropy.rs:158-163 | the segmentation, row and bucket at a position, from those at the one before |
| Entropy.EntropyLearner.BitsPerByte | arena/src/entropy.rs:199-213 | the scoring loop gives the mean over the bytes of the bits the mixture spends under moving weights, with the floor under each probability, for any logarithm; an empty text has no score |
| Bits.BitsAreLikelihood | arena/src/entropy.rs:199-213 | those bits are the negated logarithm of the mixture’s probability of the bytes when none of its probabilities is below the floor, and are never more |
| Bits.BitsNeverTrail | arena/src/entropy.rs:490-511 | the mixture spends no more bits than either expert that gives the bytes any probability, but for the bits of its first weight and those of the share for each byte after the first |
| Entropy.EntropyLearner.TrainOne | arena/src/entropy.rs:219-229 | one text trains counts and weights byte by byte, each weight step before its own count |
| Entropy.EntropyLearner.Train | arena/src/entropy.rs:219-232 | a batch is coded under the threshold of the call before; then the n-gram is replaced, and the threshold is the quantile of the new n-gram’s entropies over the batch |
| Entropy.EntropyLearner.QuantileThreshold | arena/src/entropy.rs:182-196 | the entropy of every position with bytes before it is collected, and their quantile is the threshold; without any, the threshold stays |
| Entropy.ThresholdCutsToLength | arena/src/entropy.rs:181-196 | at most one position in the target length is above the threshold, and at least one in it is not below |
| Quantiles.QuantileIs | arena/src/entropy.rs:193-195 | at most one figure in the target is above the quantile, and at least one in the target, when that is one or more, is not below |
| Entropy.EntropyPredictor.constructor | arena/src/entropy.rs:314-320 | a new predictor is where scoring starts |
| Entropy.EntropyPredictor.Push | arena/src/entropy.rs:330-336 | after a byte the predictor holds the segmentation, row, bucket and weights that scoring has there |
| Entropy.EntropyPredictor.Distribution | arena/src/entropy.rs:322-329 | its distribution is the mixture’s, nonnegative and summing to one |
| Lz76.CountPhrases | arena/src/measure.rs:14-45 | the one loop counts the phrases of the greedy parse, reads no byte out of range and ends |
| Lz76.PhraseIsShortestUnseen | arena/src/measure.rs:12-13 | each phrase is the shortest stretch not seen starting before it, but for a last one the end cuts short |
| Lz76.MatchIs | arena/src/measure.rs:21-26 | the match length is the longest agreement of the two stretches, overlap allowed |
| RankTest.RankZ | arena/src/limit_proposer.rs:174-206 | z is, for any square root, how far the pairs won with half those tied are above half of all pairs, over the root of the tie-corrected variance; zero without pairs or when all values are tied |
| RankTest.RankSums | arena/src/limit_proposer.rs:183-196 | the nested loops over a sorted sample sum the average ranks and the ties |
| RankTest.RankSumCountsPairs | arena/src/limit_proposer.rs:174-198 | the rank sum with average ranks, less the ranks a sample has alone, counts its winning pairs, ties by half |
| RankTest.GroupRank | arena/src/limit_proposer.rs:190-193 | the average rank given to a group of equal values is what counting smaller and equal values gives |
| RankTest.SwapGivesTheRest | arena/src/limit_proposer.rs:197-198 | swapping the samples gives n1·n2 less the statistic |
| RankTest.SwapNegatesZ | arena/src/limit_proposer.rs:174-206 | swapping the samples negates z |
| RankTest.SignOfZ | arena/src/limit_proposer.rs:170-173 | z is positive if and only if the top sample wins more than half of the pairs |
| RankTest.TieSumBound | arena/src/limit_proposer.rs:194-195 | the tie sum is at most n³ − n, and that exactly when all values are tied |
| RankTest.VarianceIsZeroWhenTied | arena/src/limit_proposer.rs:199-205 | the tie-corrected variance is never negative, and zero exactly when all values are tied |
| Allocation.AllocateWeights | arena/src/agents.rs:211-234 | the shares are floors, quotas rounded down and extras to the largest remainders, and sum to the total |
| Allocation.WholeQuotaIsExact | arena/src/agents.rs:222-231 | a quota that is a whole number is never rounded up |
| Allocation.SharesAreFair | arena/src/agents.rs:189-210 | every agent gets at least the floor or an equal part; each share is its quota rounded down or up; larger weights never get less; equal weights differ by at most one, the lower index favoured |
| Pools.Pool.AddWith | arena/src/agents.rs:134-166 | past capacity the entry lowest by (priority, id) goes; an error leaves the entry added and nothing evicted |
| Pools.Pool.Add | arena/src/agents.rs:122-125 | under the reward priority the pool holds the capacity greatest of all ever added, in the order of their growing ids |
| Pools.EvictionKeepsBest | arena/src/agents.rs:146-164 | evicting the worst of the best and the newcomer leaves the best of all |
| Pools.BestIsUnique | arena/src/agents.rs:122-166 | the best are determined by what was added, so streaming eviction is offline selection |
| Evidence.Verify | arena/src/evidence.rs:77-92 | the loop accepts a log exactly when each line reads, is numbered by its place and carries the hash of the line before it, and names the first fault |
| Evidence.ContinueLog | arena/src/evidence.rs:95-107 | a log that verifies is continued by the records, chained on; one that does not is refused with its fault |
| Evidence.ContinuedVerifies | arena/src/evidence.rs:95-107 | a log that verifies, continued, is the old entries and then the records, numbered on and chained, if and only if each of those entries reads back as it is written; no format is assumed |
| Evidence.CarriedVerifies | arena/src/evidence.rs:95-107 | so records that read back wherever they are logged, which can be seen to before, continue every log that verifies |
| Evidence.UnreadableIsFound | arena/src/evidence.rs:95-107 | continuing does not look whether a record reads back; the first that does not is the fault found next |
| Evidence.SomeFormatCarries | arena/src/evidence.rs:72-75 | for any records there is a format that carries them all and gives no line the empty hash, so that what is asked of a format can be met |
| Evidence.HeadPinsTheLog | arena/src/evidence.rs:10-12 | two logs whose lines have no empty hash, that verify and have the same head, are equal line for line, or hold two distinct lines with one hash |
| Evidence.CutFrontFails | arena/src/evidence.rs:10-12 | a log cut short at the front does not verify |
| Evidence.CutBackVerifies | arena/src/evidence.rs:77-92 | one cut short at the back does, so only the head tells |
| Evidence.CitationPinsItsEntries | arena/src/evidence.rs:128-143 | a citation is of the same entries in any log it fits, unless two lines have one hash |
| Evidence.RewardsAddUp | arena/src/evidence.rs:55-64 | an agent’s rewards over a log are the sum over its parts, and records of no reward of its own add nothing |
| Bytes.FromToLe | arena/src/physics.rs:861-868 | little-endian bytes read back the value modulo what they can hold |
| Bytes.BytesRoundTrip | arena/src/physics.rs:876-886 | signed 32- and 16-bit words read back from their bytes |
| Bytes.DifferenceRestores | arena/src/physics.rs:894-903 | a second difference gives its value back wherever it wrapped |
| Trajectories.HeaderReadsBack | arena/src/physics.rs:948-987 | every header reads back from its bytes, whatever follows |
| Trajectories.BodyReadsBack | arena/src/physics.rs:1017-1042 | every encoding’s body reads back exactly the stored integers, for any channel count |
| Trajectories.DecodeInvertsEncode | arena/src/physics.rs:997-1050 | decoding inverts encoding if and only if the number of steps fits the header’s 32 bits |
| Trajectories.LongRestIsLost | arena/src/physics.rs:856-907 | a body at rest can be encoded for any number of steps, and reads back if and only if they are fewer than 2^32 |
| Trajectories.EncodedLenIs | arena/src/physics.rs:1059-1065 | the length read at the start of a stream is that of the trajectory there |
| Trajectories.EncodingsArePrefixFree | arena/src/physics.rs:1052-1065 | no encoding is a proper start of another |
| Trajectories.WalkRecoversCorpus | arena/src/physics.rs:1106-1122 | walking a corpus by the lengths read recovers exactly its trajectories |
| Trajectories.PrefixReadsWholeSteps | arena/src/physics.rs:1073-1089 | a trajectory cut anywhere after its header reads as its whole timesteps before the cut |
| Trajectories.EncodeStates | arena/src/physics.rs:856-907 | from states: each value, an angle wrapped first, is stored as its nearest integer in quanta, saturated, state by state, and written in the encoding’s layout |
| Trajectories.Encode | arena/src/physics.rs:860-907 | the loops that write the header, and the body of each encoding, from the stored integers |
| Trajectories.StatesReadBack | arena/src/physics.rs:856-907 | any states can be stored, and what is stored reads back if and only if the states are fewer than 2^32 |
| Trajectories.StoredIsNear | arena/src/physics.rs:841-845 | what is stored is within half a quantum of its value, unless the value is past what can be stored |
| Trajectories.StoredAgain | arena/src/physics.rs:841-845 | a value that was stored is stored again as it was |
| Trajectories.WrapAngleIs | arena/src/physics.rs:769-777 | a wrapped angle is above -pi, at most pi and whole turns away, and one already so is kept |
| Trajectories.Decode | arena/src/physics.rs:997-1050 | the decoder’s loops read what the header and each encoding say, and refuse any other length |
| Trajectories.Reader.NextHeader | arena/src/physics.rs:948-987 | the reader advances through the header field by field, with each field’s own refusal |
| Ledgers.SumAdds | arena/src/kernel.rs:89-110 | adding to one entry of a book adds to its sum, whichever entry it is |
| Ledgers.EnergyLedger.Charge | arena/src/kernel.rs:89-99 | a span’s joules are charged to one account; an unmetered span is counted, not charged |
| Ledgers.EnergyLedger.ChargeAgent | arena/src/kernel.rs:103-110 | an agent’s joules are booked under account, role and kind, which keeps both books equal to the programs account |
| Ledgers.EnergyLedger.Evaluate | arena/src/kernel.rs:113-118 | held-out evaluation is recorded and not charged |
| Ledgers.EnergyLedger.Total | arena/src/kernel.rs:124-127 | the total is the sum over the accounts |
| Ledgers.EnergyLedger.Exhausted | arena/src/kernel.rs:129-132 | the budget is spent exactly when there is one and the total has reached it |
| Runs.RecordAdds | arena/src/arena.rs:850-856 | a record and its candidate’s score, added together, keep one record for each candidate |
| Runs.PendingPaid | arena/src/arena.rs:1060-1079 | paying a reward that waited gives its candidate its one record and its score |
| Runs.OneRecordEach | arena/src/arena.rs:846-985 | at the end of a completed round every candidate has exactly one record, a refusal or a reward, and a score exactly when it is a reward |
| Runs.RunOpens | arena/src/arena.rs:772 | a run opens with the record of its knowledge base alone, which is no agent’s refusal, and its books hold |
| Runs.CheckedSpan | arena/src/arena.rs:850-856 | a span that starts only within the budget needs no more than one span of room, however many there are |
| Runs.AnySpan | arena/src/arena.rs:836-843 | a span that nothing stops needs one span of room of its own |
| Runs.TurnConsidered | arena/src/arena.rs:834-985 | a turn that enters its agent’s proposals, once each and in order, and touches no other agent’s leaves the round’s candidates those proposed so far |
| Runs.Arena.Credit | arena/src/arena.rs:886-969 | the whole new books of a candidate that was run: refused with its record, score and cost; produced and rewarded; or produced and left waiting; a leak is refused and remembered |
| Runs.Arena.Try | arena/src/arena.rs:857-982 | a program is run only within the budget, its span is charged to its agent, and the books are as its credit leaves them |
| Runs.Arena.Consider | arena/src/arena.rs:846-857 | a candidate is refused, unrun, exactly when the budget or its agent’s allowance is spent, and is run otherwise; either way it is entered once and its joules count to the allowance |
| Runs.Arena.Turn | arena/src/arena.rs:834-985 | an agent’s turn keeps proposed = produced + refusals at every candidate and scores and costs in step; enters every proposal once, in order, and nothing of another agent’s; a leaking candidate is the last; with no limit every proposal is run |
| Runs.Arena.Turns | arena/src/arena.rs:834-1001 | agents take their turns in order; unless one leaks, the round’s candidates are exactly all that were proposed |
| Runs.Arena.Train | arena/src/arena.rs:1027-1046 | every learner trains, unless the budget is spent, none starts once it is, and nothing else is started |
| Runs.Arena.PayPending | arena/src/arena.rs:1060-1079 | each reward that waited is paid in turn, as the reward program gives it, with one record, until none waits; the candidates stay those proposed |
| Runs.Arena.Learn | arena/src/arena.rs:1013-1080 | after the turns: training, then the rewards that waited; if the budget holds, every learner trained |
| Runs.Arena.Round | arena/src/arena.rs:800-1085 | a completed round’s candidates are exactly those proposed and its records are one for each; its last work is every learner’s training, if the budget holds; after a leak nothing trains; it is counted once among the work started |
| Runs.Arena.Run | arena/src/arena.rs:800-808 | over any number of rounds the charges stay within the budget and agents + 2 spans more; every joule read is charged or booked to evaluation once; no round, program or training starts once the budget is spent; the run halts for it exactly at a round’s start, and otherwise begins every round unless the canary leaks or something fails |
| EvalCaches.EvalCache.Run | arena/src/arena.rs:575-592 | every call gives what direct execution would, with no fuel on a hit; hits and distinct keys are the calls, and the fuel spent is that of the distinct keys |
| EvalCaches.FuelAdds | arena/src/arena.rs:575-592 | a new key’s fuel joins the sum over distinct keys |
| EvalCaches.SameKeySpendsOnce | arena/src/arena.rs:565-592 | two calls spend fuel twice exactly when their definitions or their seeds modulo 256 differ |

## Left out

- Grafting.Put: gives the tree that assigning through `at_mut` leaves; trees are values, so the update in place is
  not modelled. Nor is it in Grafting.Freshen and Grafting.Rename. `list_paths` gives its list, rather than appending.
- Random.Rng.Pick: the probabilities are exact reals that are given; the softmax that makes them is not modelled.
- Meaning.ListValue: a body's value is what the arena's comments and tests say of its forms; MAGE's compiler,
  evaluator and fuel are not modelled, and the remainder of a negative number is left open.
- Entropy.EntropyLearner.BitsPerByte: the logarithm and the floor are given.
- Entropy.EntropyLearner.Train: the n-gram that training leaves is given; Adam is not modelled. Nor are the n-gram's
  rows, their entropy, and FNV-1a, which are given functions.
- RankTest.RankZ: the square root is given.
- Allocation.AllocateWeights: weights are nonnegative reals, so those that sum to something not finite do not arise.
- Pools.Pool.Add: is for a pool that only ever retained by reward; other policies have `AddWith`'s contract.
- Evidence.Verify: takes a log as its lines. How an entry is written and read as a line, and what a line's hash is, are
  given, and need not read back what was written; JSON and SHA-256 are not modelled.
- Trajectories.EncodeStates: the value of pi is given, and so is the value of the quantum's float beside its bits;
  simulation is not modelled. A 64-bit float in a header is its bits.
- Runs.Arena.Run: what agents propose, what the gate and the substrate make of it, rewards, failures and readings
  are given, as functions of when they are asked. The shares a round allots, novelty, attacks, replay, checkpoints,
  hypervolume and feedback to agents are not modelled, and a run's agents are told apart by their place, so duplicate
  ids do not arise.
- Error messages: their wording and the byte offset they name. A refusal is a value with what it is about.
- Floating-point rounding, infinities and NaN: all such numbers are exact reals.
- Overflow of counters kept in machine words (traces, counts, ids, fuel): they are unbounded, except where a width
  shows in a result.
- The reward, allocation and retention programs written in MAGE: their results are given, or may fail.
- NVML, the clock, processes, files, the command line, reports and the grammar's prompt text.
- Corpus slicing, tally tables, succession, token and byte lengths of programs: they would add only easy members.
