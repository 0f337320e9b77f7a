# eote-dice in Dafny

A model of the dice engine of eote-dice, a tool for the dice of the *Edge of
the Empire* role-playing game.

The engine has two parts:

- **distribution.py**: `QuadDistribution`, a frequency table over outcome
  vectors `(triumph, success, advantage, despair)`. Its operations are the
  one-point default, the total, the mean, the probability of meeting a
  cutoff, and `add`. `add` is the distribution of the sum of two independent
  outcomes: a convolution.
- **dice.py**:
  - the six symbols and a die `Side`;
  - `Dice` and the six standard dice with their face tables;
  - the colour codes `b g y k p r` and `dice_from_color_char`;
  - `DicePool`, which folds `add` over its dice, answers the
    probability and mean queries, rolls every die, cancels opposing symbols,
    ranks symbols and dice by power, and builds a pool from a string such as
    `"yygbrppk"`.

Modules:

| file | module | models |
|---|---|---|
| `wrappers.dfy` | `Wrappers` | `Option` and `Result` |
| `distribution.dfy` | `Distribution` | `QuadDistribution`: a dict as its items in insertion order (`Table = seq<(Quad, nat)>`) |
| `distribution_laws.dfy` | `DistributionLaws` | what `add` means: the total multiplies, means add, and `add` is commutative, associative and has the default as identity |
| `query_laws.dfy` | `QueryLaws` | bounds and monotonicity of `probability_above` |
| `symbols.dfy` | `Symbols` | `Symbol`, `Side`, `count_symbol`, the outcome vector of a side |
| `dice.dfy` | `EoteDice` | `Dice`, the face tables, `DiceColor`, `dice_from_color_char` |
| `sorting.dfy` | `Sorting` | `list.sort(key=...)` as a stable insertion sort, and uniqueness of sorted permutations |
| `cancellation.dfy` | `Cancellation` | `DicePool._cancel_symbols` |
| `pool.dfy` | `Pool` | `DicePool`, `DicePoolMean`, both power rankings, `from_string`, `roll_ascii` |
| `pool_laws.dfy` | `PoolLaws` | what a pool's distribution counts, that the order of the dice does not matter; worked examples: the Boost die, a Boost+Ability pool, the `from_string` cases |

How the Python is mapped:

- Each `Quad` is a point of the distribution; a `Table` lists its points with their frequencies.
- `defaultdict` `+=` is `Bump`. `add`'s nested loops are the method
  `Distribution.Add`, proved equal to the fold `Convolve`.
- Two dicts are equal when their `ToMap`s are.
- `Weighted(t, g)` is the frequency-weighted sum of `g` over a table. Every
  quantity the engine computes (the total, a frequency, a mean's numerator) is
  an instance of it, and the lemma `ConvolveWeighted` says how `add` acts on
  all of them at once.
- `Dice` and `DicePool` never change after `__init__`, so they are datatypes
  built by the methods `NewDice` and `NewDicePool`, whose loops are the
  constructors' loops.
- A random roll is replaced by the face index each die shows.
- Python's `list.sort` is modelled as a stable insertion sort. Both sort keys
  are injective on the elements they are applied to, so every sorted
  permutation is this one (`Sorting.SortedPermutationUnique`). Which stable
  sort Python runs therefore does not matter.

The error behaviour of `from_string` follows the code. `list.sort` computes
every key before it compares any two, so a string with an unknown character
always fails inside `_sort_dice_by_power` (dice.py:368-385). The error names
the first unknown character. Unlike the error of `dice_from_color_char`
(dice.py:187-189), it does not list the valid codes.

## Model

| member | source | states |
|---|---|---|
| `Distribution.Default` | distribution.py:8-11 | the default distribution has the single key `(0,0,0,0)` with frequency 1, total 1, distinct keys and positive frequencies |
| `Distribution.Total` | distribution.py:13-14 | `_total` is the sum of the frequencies; its own contract only bounds it below by the first item's frequency, and what it means is proved in `TotalIsWeighted` (a weighted sum), `PositiveTotal` (positive on a non-empty distribution) and `TotalConvolve` (multiplicative under `add`) |
| `Distribution.Bump` | distribution.py:46 | `elements[k] += f` adds `k` to the keys (no duplicate key) and `f` to the total |
| `Distribution.Add` | distribution.py:38-48 | the nested loops compute `Convolve`: every pair of points, with their vectors added and frequencies multiplied, accumulated in insertion order |
| `Distribution.ProbabilityAbove` | distribution.py:25-36 | `hits` is the summed frequency of the keys meeting every non-`None` cutoff (a key fails on the first axis below its cutoff); the result is `hits / total`, and division by zero (`None`) happens exactly when the total is 0 |
| `Distribution.Mean` | distribution.py:16-23 | four values; value `i` is the frequency-weighted sum of axis `i` over the total; `None` exactly when the total is 0 |
| `DistributionLaws.TotalIsWeighted` | distribution.py:13-14 | `_total` is the weighted sum of the constant 1 |
| `DistributionLaws.FreqIsWeighted` | distribution.py:46 | the frequency of a key is the weighted sum of its indicator |
| `DistributionLaws.AxisSumIsWeighted` | distribution.py:17-20 | the mean's numerator for axis `i` is the weighted sum of that axis |
| `DistributionLaws.BumpWeighted` | distribution.py:46 | a `+=` adds `f * g(k)` to every weighted sum |
| `DistributionLaws.ConvolveWeighted` | distribution.py:38-48 | any weighted sum over `add`'s result is the double sum over the pairs of points of the two inputs |
| `DistributionLaws.TotalConvolve` | distribution.py:38-48 | the total of `add` is the product of the totals |
| `DistributionLaws.AxisSumConvolve` | distribution.py:38-48 | axis sum of `add` = sum of `t` times total of `that` + total of `t` times sum of `that` |
| `DistributionLaws.MeanConvolve` | distribution.py:16-23 | for non-empty distributions the mean of `add` is the sum of the means |
| `DistributionLaws.Fubini` | distribution.py:40-41 | the double sum can be taken in either loop order |
| `DistributionLaws.WeightedConvolveCommutes` | distribution.py:38-48 | every weighted sum of `t.add(that)` equals that of `that.add(t)` |
| `DistributionLaws.KeysConvolve` | distribution.py:38-48 | the keys of `add` are exactly the sums of a key of each input |
| `DistributionLaws.SumKeysCommute` | distribution.py:43-44 | the set of pairwise sums is symmetric |
| `DistributionLaws.SumKeysAssociate` | distribution.py:43-44 | pairwise sums of sets are associative |
| `DistributionLaws.SameMap` | distribution.py:46 | two tables with the same keys and frequencies are the same dict |
| `DistributionLaws.ConvolveCommutes` | distribution.py:38-48 | `a.add(b)` and `b.add(a)` are equal dicts |
| `DistributionLaws.WeightedConvolveAssociates` | distribution.py:38-48 | weighted sums of `(a.add(b)).add(c)` and `a.add(b.add(c))` agree |
| `DistributionLaws.ConvolveAssociates` | distribution.py:38-48 | `(a.add(b)).add(c)` and `a.add(b.add(c))` are equal dicts |
| `DistributionLaws.SameWeightsMap` | distribution.py:38-48 | tables with the same keys and the same sum under every weight are equal dicts |
| `DistributionLaws.ConvolveCongruentLeft` | distribution.py:38-48 | `a.add(c)` and `b.add(c)` agree on keys and every weighted sum when `a` and `b` do |
| `DistributionLaws.ConvolveCongruentRight` | distribution.py:38-48 | the same for the second argument of `add` |
| `DistributionLaws.ConvolveCommutesWeights` | distribution.py:38-48 | `a.add(b)` and `b.add(a)` agree on keys and every weighted sum |
| `DistributionLaws.ConvolveAssociatesWeights` | distribution.py:38-48 | both bracketings of `add` agree on keys and every weighted sum |
| `DistributionLaws.ConvolveSwap` | distribution.py:38-48 | adding `x` then `y` to an accumulator agrees with adding `y` then `x` |
| `DistributionLaws.ToMapOfDistinct` | distribution.py:18 | in a table with distinct keys, each item is the dict's entry for its key |
| `DistributionLaws.FreqOfDistinct` | distribution.py:18 | with distinct keys, the frequency of an item's key is that item's frequency |
| `DistributionLaws.FreqAbsent` | distribution.py:46 | a key that is not present has frequency 0, as in a `defaultdict(int)` |
| `DistributionLaws.BumpFresh` | distribution.py:46 | `+=` on a new key appends it at the end of the insertion order |
| `DistributionLaws.PlusZero` | distribution.py:43-44 | the zero vector is the identity of vector addition |
| `DistributionLaws.PlusCommutes` | distribution.py:43-44 | vector addition commutes |
| `DistributionLaws.PlusAssociates` | distribution.py:43-44 | vector addition is associative |
| `DistributionLaws.AddRowDefault` | distribution.py:41-46 | one row against the default distribution adds the row's own point once |
| `DistributionLaws.ConvolveIdentityRight` | distribution.py:8-11 | `t.add(QuadDistribution())` is `t` itself, items and order included |
| `DistributionLaws.ConvolveIdentityLeft` | distribution.py:8-11 | `QuadDistribution().add(t)` is `t` itself, items and order included |
| `DistributionLaws.BumpDistinct` | distribution.py:46 | `+=` keeps keys distinct |
| `DistributionLaws.BumpPositive` | distribution.py:46 | `+=` of a positive frequency keeps every frequency positive |
| `DistributionLaws.ConvolveDistinct` | distribution.py:38-48 | the result of `add` has distinct keys |
| `DistributionLaws.ConvolvePositive` | distribution.py:38-48 | `add` of two tables with positive frequencies has positive frequencies |
| `DistributionLaws.PositiveTotal` | distribution.py:13-14 | when every frequency is positive, `_total` is at least the number of items, so a non-empty such distribution has a positive total and `mean` and `probability_above` do not divide by zero |
| `QueryLaws.OnlyAxis` | distribution.py:29-32 | keeping one axis of a cutoff loosens it, keeps that axis and drops the rest |
| `QueryLaws.HitsAtMostTotal` | distribution.py:25-36 | `hits` never exceeds the total, so the probability is at most 1 |
| `QueryLaws.HitsWithoutCutoff` | distribution.py:26 | with the default cutoff `(None, None, None, None)` every point is a hit, so the probability is 1 |
| `QueryLaws.MeetsMonotone` | distribution.py:29-32 | a key that meets a tighter cutoff meets a looser one |
| `QueryLaws.HitsMonotone` | distribution.py:25-36 | raising a cutoff, or replacing `None` by a number, never increases `hits` |
| `QueryLaws.HitsAtMostMarginal` | distribution.py:29-35 | a joint cutoff never counts more hits than any one of its axes alone |
| `Symbols.CountSymbol` | dice.py:40-45 | the loop counts the occurrences of the symbol on the side |
| `Symbols.CountSymbolExample` | test.py:13-17 | `[T, T, D]` counts 2 Triumphs, 1 Despair, 0 Successes |
| `Symbols.OutcomeVector` | dice.py:58-65 | a side's vector has non-negative triumph and despair counts |
| `Symbols.OutcomeVectorIsSymbolSum` | dice.py:58-65 | the count formula equals the sum of each symbol's own contribution (a Triumph is also a success, a Despair also a failure) |
| `Symbols.OutcomeVectorSingle` | dice.py:58-65 | a single symbol's vector is its contribution |
| `Symbols.OutcomeVectorConcat` | dice.py:58-65 | the vector of joined symbol lists is the sum of their vectors |
| `Symbols.OutcomeVectorPair` | dice.py:58-65 | a two-symbol side adds both contributions |
| `Symbols.OutcomeVectorEmpty` | dice.py:58-65 | a blank side has the zero vector |
| `EoteDice.NewDice` | dice.py:53-69 | the constructor keeps the sides and builds the distribution of their outcome vectors |
| `EoteDice.NumSides` | dice.py:71-72 | `num_sides()` counts the sides, and for a well-formed die it equals the total mass of its distribution |
| `EoteDice.Roll` | dice.py:74-75 | a roll shows the symbols of one of the die's sides, and that outcome vector has positive frequency in the die's distribution |
| `EoteDice.SideTableFromWeighted` | dice.py:56-67 | every weighted sum of the built distribution is the accumulator's plus the sum over the sides |
| `EoteDice.SideTableWeighted` | dice.py:56-69 | every weighted sum of a die's distribution is the sum over its sides |
| `EoteDice.FaceSumCountsFaces` | dice.py:57-67 | summing a key's indicator over the sides counts the sides with that vector |
| `EoteDice.SideTableFreq` | dice.py:56-69 | the frequency of a vector is the number of sides that show it |
| `EoteDice.SideTableFromShape` | dice.py:56-67 | each side adds 1 to the total; keys stay distinct and frequencies positive |
| `EoteDice.DiceTotal` | dice.py:71-72 | a die's distribution totals `num_sides()`, with distinct keys and positive frequencies |
| `EoteDice.CountFacesAt` | dice.py:57-67 | every side's vector is counted at least once |
| `EoteDice.Sides` | dice.py:78-163 | the six face tables (the `BoostSides` … `ChallengeSides` constants): every Boost, Ability and Proficiency side shows at most two symbols, each Success, Advantage or Triumph; every Setback, Difficulty and Challenge side at most two, each Failure, Threat or Despair |
| `EoteDice.SideCounts` | dice.py:78-163 | the face tables give Proficiency and Challenge 12 sides, Ability and Difficulty 8, Boost and Setback 6 (test.py:35-37 checks the Proficiency and Boost counts) |
| `EoteDice.PositiveDiceSides` | test.py:39-47 | every Boost, Ability and Proficiency side shows at most two symbols, all Success, Advantage or Triumph; only Proficiency has a Triumph |
| `EoteDice.NegativeDiceSides` | test.py:49-57 | every Setback, Difficulty and Challenge side shows at most two symbols, all Failure, Threat or Despair; only Challenge has a Despair |
| `EoteDice.ColorOf` | dice.py:166-173 | a code names a colour exactly when it is one of `b g y k p r`, and the colour's name is the code |
| `EoteDice.ColorOfCode` | dice.py:166-173 | looking up a colour's own name finds that colour |
| `EoteDice.ColorNames` | dice.py:175-180 | the loop lists the colour names in declaration order: `b g y k p r` |
| `EoteDice.StandardDice` | dice.py:78-163 | each standard die is valid and has its kind's face table |
| `EoteDice.DiceFromColorChar` | dice.py:183-190 | a valid code gives its standard die; any other string gives the invalid-colour error with the string and the list of names |
| `Sorting.InsertPermutes` | dice.py:281 | inserting one element adds exactly that element |
| `Sorting.InsertSorted` | dice.py:281 | inserting into a sorted list keeps it sorted |
| `Sorting.SortByKeySortsAndPermutes` | dice.py:281 | `sort(key=...)` returns a permutation of its input, sorted by the key |
| `Sorting.HeadIsLeast` | dice.py:281 | the first element of a sorted list has the least key |
| `Sorting.HeadsAgree` | dice.py:281 | two sorted permutations under an injective key start with the same element |
| `Sorting.TailsPermute` | dice.py:281 | two permutations with the same first element have permuted tails |
| `Sorting.SortedPermutationUnique` | dice.py:281 | under a key injective on the elements, there is only one sorted permutation |
| `Cancellation.CancelStep` | dice.py:320-331 | one loop step updates the two net counts and passes Triumph and Despair through |
| `Cancellation.TallyStep` | dice.py:320-331 | the loop state after `i + 1` symbols follows from the state after `i` |
| `Cancellation.Tally` | dice.py:315-331 | the counting loop ends with the net successes, the net advantages, and the Triumphs and Despairs in input order |
| `Cancellation.CancelSymbols` | dice.py:313-351 | the result is the Triumphs and Despairs in input order, then `abs(net_success)` Successes or Failures, then `abs(net_advantage)` Advantages or Threats |
| `Cancellation.AppendRun` | dice.py:345-350 | the closing loops append `n` copies of the symbol |
| `Cancellation.NetGroupRepeat` | dice.py:333-343 | the sign decides the symbol, and the count is the absolute value |
| `Cancellation.CriticalsConcat` | dice.py:329-331 | the passed-through symbols of a concatenation are the concatenation of each part's |
| `Cancellation.CountRepeat` | dice.py:345-350 | `n` copies of `x` contain `n` of `x` and none of anything else |
| `Cancellation.CountNetGroup` | dice.py:333-350 | the net group holds `n` of the positive symbol if `n >= 0`, else `-n` of the negative one |
| `Cancellation.CriticalsIdempotent` | dice.py:329-331 | filtering the Triumphs and Despairs twice is filtering once |
| `Cancellation.CountCriticals` | dice.py:329-331 | the filter keeps every Triumph and Despair and nothing else |
| `Cancellation.CancelCounts` | dice.py:313-351 | Triumphs and Despairs are kept in number; Successes and Failures reduce to the positive and negative part of their difference; likewise for Advantages and Threats |
| `Cancellation.CancelPreservesNet` | dice.py:313-351 | cancelling leaves the net success and net advantage unchanged |
| `Cancellation.CancelNoOpposing` | dice.py:313-351 | a cancelled roll never shows both a Success and a Failure, nor both an Advantage and a Threat |
| `Cancellation.CancelKeepsCriticals` | dice.py:318-331 | Triumph and Despair are never cancelled, and their order is kept |
| `Cancellation.AllCritical` | dice.py:329-331 | a list of Triumphs and Despairs passes the filter unchanged |
| `Cancellation.UniformGroup` | dice.py:333-350 | a run of one symbol is its own net group |
| `Cancellation.CancelFixesNetForm` | dice.py:313-351 | a list already in net form is returned unchanged |
| `Cancellation.CancelIdempotent` | dice.py:313-351 | cancelling twice is cancelling once |
| `Cancellation.NetGroupUniform` | dice.py:333-350 | a net group consists of a single symbol |
| `Cancellation.CriticalsAreCritical` | dice.py:329-331 | every passed-through symbol is a Triumph or a Despair |
| `Cancellation.CancelExample` | dice.py:313-351 | Success, Failure, Failure, Advantage cancel to Failure, Advantage |
| `Pool.NewDicePool` | dice.py:252-258 | the constructor keeps the dice, and its distribution is `add` folded over their distributions from the default |
| `Pool.ProbabilityAbove` | dice.py:260-268 | the pool's query is the distribution's query with the four cutoffs in order `(triumph, success, advantage, despair)` |
| `Pool.Mean` | dice.py:270-271 | `mean()` builds a `DicePoolMean` (dice.py:203-208) whose four fields are the four axis means of the pool's distribution, in order; undefined exactly when the total is 0 |
| `Pool.RollPool` | dice.py:273-277 | a roll is each die's shown side, concatenated in pool order |
| `Pool.SymbolPower` | dice.py:353-366 | the symbol ranking lies between 1 and 6 |
| `Pool.SortDiceByPower` | dice.py:368-385 | the dice ranking is defined exactly for `b g y k p r`, lies between 1 and 6, and otherwise raises the invalid-character error naming the character |
| `Pool.FirstInvalid` | dice.py:393 | finds the first character that is not a colour code, if any, with every earlier one valid |
| `Pool.FirstInvalidAt` | dice.py:393 | an invalid character after only valid ones is the first invalid character |
| `Pool.SortCodes` | dice.py:393 | the sorted characters are a permutation of the input, ordered by dice power |
| `Pool.CodesPermute` | dice.py:393 | a permutation of valid codes is all valid codes |
| `Pool.PoolOfCodes` | dice.py:394-396 | one standard die per code, in order |
| `Pool.PoolOfCodesSnoc` | dice.py:395-396 | appending a code appends its die |
| `Pool.DiceFromCodes` | dice.py:394-396 | the loop builds one standard die per code |
| `Pool.SortDiceChars` | dice.py:389-393 | the sort fails on the first invalid character; otherwise it yields the characters ordered by dice power |
| `Pool.FromString` | dice.py:387-398 | fails exactly when a character is not a colour code, naming the first such character; otherwise the pool holds the standard dice of the characters sorted by dice power, with the pool's distribution |
| `Pool.RollNet` | dice.py:279-286 | `roll_ascii` sorts the roll by symbol power, cancels it, and sorts the net symbols by power again |
| `PoolLaws.PoolFromTotal` | dice.py:256-258 | folding `add` multiplies the total by each die's number of sides |
| `PoolLaws.PoolTotal` | dice.py:252-258 | a pool's distribution totals the product of its dice's `num_sides()` |
| `PoolLaws.PoolTotalPositive` | dice.py:252-271 | a pool of well-formed dice that all have sides has a positive total, so its `mean` and `probability_above` are defined |
| `PoolLaws.FromStringTotalPositive` | dice.py:387-398 | every pool `from_string` builds has a positive total |
| `PoolLaws.BoostAbilityTotal` | dice.py:78-101 | a Boost and an Ability die give a distribution of total 48 |
| `PoolLaws.PairTotal` | dice.py:252-258 | a two-dice pool totals the product of their side counts |
| `PoolLaws.BoostThirdFace` | dice.py:84 | the Boost die's third side shows two Advantages, which cancel to themselves |
| `PoolLaws.BoostVectors` | dice.py:78-87 | the six outcome vectors of the Boost die |
| `PoolLaws.FaceSumSix` | dice.py:57-67 | a six-sided die's face sum is the sum over its six vectors |
| `PoolLaws.BoostFaceSums` | dice.py:78-87 | the Boost die's sides add up to 2 successes, 4 advantages and no triumph or despair |
| `PoolLaws.BoostAxisSum` | dice.py:53-69 | the Boost distribution's axis sums are its face sums |
| `PoolLaws.BoostMean` | dice.py:78-87 | a Boost die has total 6 and mean `(0, 1/3, 2/3, 0)` |
| `PoolLaws.PoolFromShape` | dice.py:256-258 | folding `add` keeps keys distinct and frequencies positive |
| `PoolLaws.PoolShape` | dice.py:252-258 | a pool's distribution has distinct keys and positive frequencies |
| `PoolLaws.SingleDicePool` | dice.py:252-258 | a one-die pool has exactly that die's distribution |
| `PoolLaws.PoolFromCongruent` | dice.py:256-258 | the `__init__` loop started from equivalent tables ends in equivalent tables |
| `PoolLaws.PoolFromMove` | dice.py:256-258 | adding die `j` first and then the others in order is equivalent to adding them all in order |
| `PoolLaws.PoolFromPermutation` | dice.py:256-258 | the loop over any permutation of the dice ends in an equivalent table |
| `PoolLaws.PoolOrderIrrelevant` | dice.py:252-258 | two pools holding the same dice in any order have equal distributions as dicts |
| `PoolLaws.PoolSwapSameMap` | dice.py:252-258 | exchanging two neighbouring dice leaves the distribution unchanged as a dict |
| `PoolLaws.PoolFromSnoc` | dice.py:257-258 | adding one more die adds its distribution to the pool's |
| `PoolLaws.PoolMeanAdds` | dice.py:270-271 | one more die adds its own mean to the pool's mean |
| `PoolLaws.WaysOverIsFaceSum` | dice.py:257-258 | counting the ways over one die's sides is a face sum |
| `PoolLaws.PoolFromWays` | dice.py:256-258 | the frequency of a vector after the fold counts the face choices that reach it |
| `PoolLaws.PoolCountsWays` | dice.py:252-258 | the frequency of a vector in a pool is the number of ways to choose one side per die summing to it |
| `PoolLaws.PositiveFreq` | dice.py:252-258 | every key of a pool's distribution has positive frequency |
| `PoolLaws.FreqKey` | dice.py:252-258 | a vector with positive frequency is a key |
| `PoolLaws.RollKeys` | dice.py:273-277 | the vector of a roll, added to a key, is a key of the folded distribution |
| `PoolLaws.RollIsPossible` | dice.py:273-277 | every roll the pool can show has a vector of positive frequency in its distribution |
| `PoolLaws.SymbolPowerBijective` | dice.py:353-366 | the symbol ranking is a bijection onto 1..6: Triumph, Success, Advantage, Despair, Failure, Threat |
| `PoolLaws.DicePowerBijective` | dice.py:368-385 | the dice ranking is a bijection from the codes onto 1..6: y, g, b, r, p, k |
| `PoolLaws.DiceRankInjective` | dice.py:368-385 | two color codes with the same power are the same code |
| `PoolLaws.FromStringOrderUnique` | dice.py:393 | any stable sort by dice power gives the same pool order |
| `PoolLaws.FromStringPowerOrder` | dice.py:393-396 | the pool's dice come in non-decreasing power, one standard die per sorted code |
| `PoolLaws.FromStringExamples` | dice.py:387-398 | `from_string` accepts `"yygbrppk"` (test.py:60-66) and `"ygk"`, and fails on `"yyx"` (test.py:60-66) at index 2 |
| `PoolLaws.CancelledPermutation` | dice.py:281-283 | cancelling permuted symbols gives a permutation of the result, so sorting first changes only the order |
| `PoolLaws.RollNetSymbols` | dice.py:279-286 | the net symbols of `roll_ascii` are, as a multiset, the cancellation of the roll, sorted by power |

## Left out

- Terminal colours and text: `symbol_to_ansi`, `dice_color_to_ansi`, `DicePoolMean.__str__`, `DicePool.__str__` and `_symbols_to_ascii_`. They produce ANSI-coloured strings only. `Pool.RollNet` returns the two sorted symbol lists that `roll_ascii` renders as strings.
- Randomness: `Dice.roll` and `DicePool.roll` take the face index each die shows instead of calling `random.choice`. A die with no sides therefore cannot be rolled in the model; Python raises `IndexError` there.
- Floating point: the probability and the means are exact `real` quotients, not IEEE doubles.
- Exceptions:
  - the `ZeroDivisionError` of dividing by a zero total is `None`;
  - the two `ValueError`s are the `DiceError` cases. They keep the offending string and the list of names, not the message text.
- `Dice` subclasses: the six dice classes are one `Dice` value per `DieKind`. `isinstance` checks become equality with `StandardDice(kind)`.
- `DiceColor.names()` returns the names as one `seq<char>` of one-letter codes, not as a list of strings.
- The `cutoff` tuple of `probability_above` always has four entries, which is how `DicePool` calls it.
- Frequencies are natural numbers. A caller-supplied mapping with negative counts is not modelled; every table the engine builds has positive counts.
- Dict equality is modelled by `ToMap`: same keys, same frequencies. `ConvolveCommutes` and `ConvolveAssociates` hold in that sense only, because `add` visits the points in a different insertion order.
- Python's Timsort: it is not modelled step by step. The stable insertion sort stands for it, and `Sorting.SortedPermutationUnique` shows the result cannot differ.
- eote_dice.py (the command-line front end) and setup.py are not part of this model.
