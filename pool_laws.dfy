/**
 * What a dice pool's distribution means: its total is the number of ways the
 * dice can land, every roll of the dice is one of its keys, a die added to
 * the pool adds its mean, and `from_string` orders the dice by power.
 */
module PoolLaws {
  import opened Wrappers
  import opened Distribution
  import opened DistributionLaws
  import opened Symbols
  import opened EoteDice
  import opened Cancellation
  import opened Pool
  import Sorting

  /** Every die is one `Dice.__init__` built. */
  predicate AllValid(pool: seq<Dice>)
  {
    forall i :: 0 <= i < |pool| ==> Valid(pool[i])
  }

  /** The product of the dice's `num_sides()`: the number of ways the pool can land. */
  function SidesProduct(pool: seq<Dice>): nat
  {
    if pool == [] then 1 else NumSides(pool[0]) * SidesProduct(pool[1..])
  }

  lemma {:induction false} MulAssociates(a: int, b: int, c: int)
    ensures a * b * c == a * (b * c)
  {
  }

  lemma {:induction false} PoolFromTotal(acc: Table, pool: seq<Dice>)
    requires AllValid(pool)
    ensures Total(PoolFrom(acc, pool)) == Total(acc) * SidesProduct(pool)
    decreases |pool|
  {
    if pool != [] {
      var next := Convolve(acc, pool[0].distribution);
      TotalConvolve(acc, pool[0].distribution);
      DiceTotal(pool[0]);
      PoolFromTotal(next, pool[1..]);
      MulAssociates(Total(acc), NumSides(pool[0]), SidesProduct(pool[1..]));
    }
  }

  /** A pool's total is the product of its dice's side counts. */
  lemma {:induction false} PoolTotal(pool: seq<Dice>)
    requires AllValid(pool)
    ensures Total(PoolTable(pool)) == SidesProduct(pool)
  {
    PoolFromTotal(Default(), pool);
  }

  /** A Boost and an Ability die land in 6 * 8 = 48 ways. */
  lemma {:induction false} BoostAbilityTotal()
    ensures Total(PoolTable([StandardDice(Boost), StandardDice(Ability)])) == 48
  {
    var boost := StandardDice(Boost);
    var ability := StandardDice(Ability);
    SideCounts();
    assert NumSides(boost) == 6 && NumSides(ability) == 8;
    PairTotal(boost, ability);
  }

  lemma {:induction false} PairTotal(a: Dice, b: Dice)
    requires Valid(a) && Valid(b)
    ensures Total(PoolTable([a, b])) == NumSides(a) * NumSides(b)
  {
    var pool := [a, b];
    PoolTotal(pool);
    assert pool[1..] == [b] && pool[1..][1..] == [];
    assert SidesProduct([b]) == NumSides(b) * SidesProduct([]);
    assert SidesProduct(pool) == NumSides(a) * SidesProduct([b]);
  }

  /** Showing its third side, a Boost die rolls two advantages, and nothing cancels. */
  lemma {:induction false} BoostThirdFace()
    ensures Roll(StandardDice(Boost), 2) == [Advantage, Advantage]
    ensures Cancelled([Advantage, Advantage]) == [Advantage, Advantage]
  {
    BoostThirdSide();
    TwoAdvantagesStay();
  }

  lemma BoostThirdSide()
    ensures Roll(StandardDice(Boost), 2) == [Advantage, Advantage]
  {
  }

  lemma {:induction false} TwoAdvantagesStay()
    ensures Cancelled([Advantage, Advantage]) == [Advantage, Advantage]
  {
    var s := [Advantage, Advantage];
    TwoAdvantagesNet();
    TwoAdvantagesNoCriticals();
    assert Repeat(Success, 0) == [] && Repeat(Advantage, 2) == s;
  }

  lemma TwoAdvantagesNoCriticals()
    ensures Criticals([Advantage, Advantage]) == []
  {
    var s := [Advantage, Advantage];
    assert s[1..][1..] == [];
  }

  lemma TwoAdvantagesNet()
    ensures NetSuccess([Advantage, Advantage]) == 0 && NetAdvantage([Advantage, Advantage]) == 2
  {
  }

  /** The outcome vectors of the Boost die's sides, in table order. */
  lemma {:induction false} BoostVectors()
    ensures |Sides(Boost)| == 6
    ensures OutcomeVector(Sides(Boost)[0].symbols) == Zero
    ensures OutcomeVector(Sides(Boost)[1].symbols) == Zero
    ensures OutcomeVector(Sides(Boost)[2].symbols) == Quad(0, 0, 2, 0)
    ensures OutcomeVector(Sides(Boost)[3].symbols) == Quad(0, 0, 1, 0)
    ensures OutcomeVector(Sides(Boost)[4].symbols) == Quad(0, 1, 1, 0)
    ensures OutcomeVector(Sides(Boost)[5].symbols) == Quad(0, 1, 0, 0)
  {
    BoostSide0();
    BoostSide1();
    BoostSide2();
    BoostSide3();
    BoostSide4();
    BoostSide5();
  }

  // One side per lemma: evaluating several literal sides in one proof is slow.
  lemma BoostSide0() ensures OutcomeVector(Sides(Boost)[0].symbols) == Zero {}
  lemma BoostSide1() ensures OutcomeVector(Sides(Boost)[1].symbols) == Zero {}
  lemma BoostSide2() ensures OutcomeVector(Sides(Boost)[2].symbols) == Quad(0, 0, 2, 0) {}
  lemma BoostSide3() ensures OutcomeVector(Sides(Boost)[3].symbols) == Quad(0, 0, 1, 0) {}
  lemma BoostSide4() ensures OutcomeVector(Sides(Boost)[4].symbols) == Quad(0, 1, 1, 0) {}
  lemma BoostSide5() ensures OutcomeVector(Sides(Boost)[5].symbols) == Quad(0, 1, 0, 0) {}

  lemma {:induction false} FaceSumSix(sides: seq<Side>, g: Quad -> int,
                                      v0: Quad, v1: Quad, v2: Quad, v3: Quad, v4: Quad, v5: Quad)
    requires |sides| == 6
    requires OutcomeVector(sides[0].symbols) == v0 && OutcomeVector(sides[1].symbols) == v1
    requires OutcomeVector(sides[2].symbols) == v2 && OutcomeVector(sides[3].symbols) == v3
    requires OutcomeVector(sides[4].symbols) == v4 && OutcomeVector(sides[5].symbols) == v5
    ensures FaceSum(sides, g) == g(v0) + g(v1) + g(v2) + g(v3) + g(v4) + g(v5)
  {
    var s1, s2, s3, s4, s5 := sides[1..], sides[2..], sides[3..], sides[4..], sides[5..];
    assert s1[1..] == s2 && s2[1..] == s3 && s3[1..] == s4 && s4[1..] == s5 && s5[1..] == [];
    assert FaceSum(s5, g) == g(v5);
    assert FaceSum(s4, g) == g(v4) + FaceSum(s5, g);
    assert FaceSum(s3, g) == g(v3) + FaceSum(s4, g);
    assert FaceSum(s2, g) == g(v2) + FaceSum(s3, g);
    assert FaceSum(s1, g) == g(v1) + FaceSum(s2, g);
  }

  lemma {:induction false} BoostFaceSums(i: nat)
    requires i < 4
    ensures FaceSum(Sides(Boost), AxisOf(i)) == if i == 1 then 2 else if i == 2 then 4 else 0
  {
    BoostVectors();
    BoostLikeFaceSums(Sides(Boost), i);
  }

  /** The axis sums of any six sides with the Boost die's outcome vectors. */
  lemma {:induction false} BoostLikeFaceSums(sides: seq<Side>, i: nat)
    requires i < 4 && |sides| == 6
    requires OutcomeVector(sides[0].symbols) == Zero && OutcomeVector(sides[1].symbols) == Zero
    requires OutcomeVector(sides[2].symbols) == Quad(0, 0, 2, 0) && OutcomeVector(sides[3].symbols) == Quad(0, 0, 1, 0)
    requires OutcomeVector(sides[4].symbols) == Quad(0, 1, 1, 0) && OutcomeVector(sides[5].symbols) == Quad(0, 1, 0, 0)
    ensures FaceSum(sides, AxisOf(i)) == if i == 1 then 2 else if i == 2 then 4 else 0
  {
    FaceSumSix(sides, AxisOf(i), Zero, Zero, Quad(0, 0, 2, 0), Quad(0, 0, 1, 0), Quad(0, 1, 1, 0), Quad(0, 1, 0, 0));
    BoostAxisTerms(Zero, Zero, Quad(0, 0, 2, 0), Quad(0, 0, 1, 0), Quad(0, 1, 1, 0), Quad(0, 1, 0, 0), i);
  }

  lemma BoostAxisTerms(v0: Quad, v1: Quad, v2: Quad, v3: Quad, v4: Quad, v5: Quad, i: nat)
    requires i < 4
    requires v0 == Zero && v1 == Zero && v2 == Quad(0, 0, 2, 0)
    requires v3 == Quad(0, 0, 1, 0) && v4 == Quad(0, 1, 1, 0) && v5 == Quad(0, 1, 0, 0)
    ensures AxisOf(i)(v0) + AxisOf(i)(v1) + AxisOf(i)(v2) + AxisOf(i)(v3) + AxisOf(i)(v4) + AxisOf(i)(v5)
            == if i == 1 then 2 else if i == 2 then 4 else 0
  {
  }

  lemma {:induction false} BoostAxisSum(i: nat)
    requires i < 4
    ensures AxisSum(StandardDice(Boost).distribution, i) == FaceSum(Sides(Boost), AxisOf(i))
  {
    AxisSumIsWeighted(StandardDice(Boost).distribution, i);
    SideTableWeighted(Sides(Boost), AxisOf(i));
  }

  /** A Boost die's mean: no triumph, 1/3 success, 2/3 advantage, no despair. */
  lemma {:induction false} BoostMean()
    ensures Total(StandardDice(Boost).distribution) == 6
    ensures AxisSum(StandardDice(Boost).distribution, 0) as real / 6.0 == 0.0
    ensures AxisSum(StandardDice(Boost).distribution, 1) as real / 6.0 == 1.0 / 3.0
    ensures AxisSum(StandardDice(Boost).distribution, 2) as real / 6.0 == 2.0 / 3.0
    ensures AxisSum(StandardDice(Boost).distribution, 3) as real / 6.0 == 0.0
  {
    DiceTotal(StandardDice(Boost));
    SideCounts();
    BoostFaceSums(0);
    BoostFaceSums(1);
    BoostFaceSums(2);
    BoostFaceSums(3);
    BoostAxisSum(0);
    BoostAxisSum(1);
    BoostAxisSum(2);
    BoostAxisSum(3);
  }

  lemma {:induction false} PoolFromShape(acc: Table, pool: seq<Dice>)
    requires AllValid(pool)
    ensures DistinctKeys(acc) ==> DistinctKeys(PoolFrom(acc, pool))
    ensures Positive(acc) ==> Positive(PoolFrom(acc, pool))
    decreases |pool|
  {
    if pool != [] {
      ConvolveDistinct(acc, pool[0].distribution);
      DiceTotal(pool[0]);
      if Positive(acc) {
        ConvolvePositive(acc, pool[0].distribution);
      }
      PoolFromShape(Convolve(acc, pool[0].distribution), pool[1..]);
    }
  }

  /** A pool's distribution is a proper dict with no zero entries. */
  lemma {:induction false} PoolShape(pool: seq<Dice>)
    requires AllValid(pool)
    ensures DistinctKeys(PoolTable(pool)) && Positive(PoolTable(pool))
  {
    PoolFromShape(Default(), pool);
  }

  /** A pool of one die holds exactly that die's distribution. */
  lemma {:induction false} SingleDicePool(d: Dice)
    requires Valid(d)
    ensures PoolTable([d]) == d.distribution
  {
    DiceTotal(d);
    ConvolveIdentityLeft(d.distribution);
    assert [d][1..] == [];
    assert PoolTable([d]) == PoolFrom(Convolve(Default(), d.distribution), []);
  }

  lemma {:induction false} PoolFromSnoc(acc: Table, pool: seq<Dice>, d: Dice)
    ensures PoolFrom(acc, pool + [d]) == Convolve(PoolFrom(acc, pool), d.distribution)
    decreases |pool|
  {
    if pool == [] {
      assert [d][1..] == [];
    } else {
      assert (pool + [d])[0] == pool[0] && (pool + [d])[1..] == pool[1..] + [d];
      PoolFromSnoc(Convolve(acc, pool[0].distribution), pool[1..], d);
    }
  }

  /** Adding a die to a pool adds the die's mean to the pool's mean on every axis. */
  lemma {:induction false} PoolMeanAdds(pool: seq<Dice>, d: Dice, i: nat)
    requires i < 4 && AllValid(pool) && SidesProduct(pool) > 0
    requires Valid(d) && NumSides(d) > 0
    ensures Total(PoolTable(pool)) > 0 && Total(d.distribution) > 0
    ensures Total(PoolTable(pool + [d])) > 0
    ensures AxisSum(PoolTable(pool + [d]), i) as real / Total(PoolTable(pool + [d])) as real
            == AxisSum(PoolTable(pool), i) as real / Total(PoolTable(pool)) as real
               + AxisSum(d.distribution, i) as real / Total(d.distribution) as real
  {
    PoolFromSnoc(Default(), pool, d);
    PoolTotal(pool);
    DiceTotal(d);
    MeanConvolve(PoolTable(pool), d.distribution, i);
  }

  // ---------------------------------------------------------------------
  // The order of the dice does not matter
  // ---------------------------------------------------------------------

  lemma {:induction false} PoolFromCongruent(a: Table, b: Table, pool: seq<Dice>)
    requires SameWeights(a, b)
    ensures SameWeights(PoolFrom(a, pool), PoolFrom(b, pool))
    decreases |pool|
  {
    if pool != [] {
      ConvolveCongruentLeft(a, b, pool[0].distribution);
      PoolFromCongruent(Convolve(a, pool[0].distribution), Convolve(b, pool[0].distribution), pool[1..]);
    }
  }

  /** Folding in die `q[j]` first and then the others in order gives an equivalent table. */
  lemma {:induction false} PoolFromMove(acc: Table, q: seq<Dice>, j: nat)
    requires j < |q|
    ensures SameWeights(PoolFrom(acc, q), PoolFrom(Convolve(acc, q[j].distribution), q[..j] + q[j + 1..]))
    decreases j
  {
    if j == 0 {
      assert q[..0] + q[1..] == q[1..];
    } else {
      var first := Convolve(acc, q[0].distribution);
      var moved := Convolve(acc, q[j].distribution);
      var rest := q[1..j] + q[j + 1..];
      PoolFromMove(first, q[1..], j - 1);
      assert q[1..][..j - 1] + q[1..][j..] == rest;
      var target := q[..j] + q[j + 1..];
      assert target[0] == q[0] && target[1..] == rest;
      ConvolveSwap(acc, q[0].distribution, q[j].distribution);
      PoolFromCongruent(Convolve(first, q[j].distribution), Convolve(moved, q[0].distribution), rest);
      SameWeightsTrans(PoolFrom(acc, q), PoolFrom(Convolve(first, q[j].distribution), rest), PoolFrom(moved, target));
    }
  }

  lemma {:induction false} PoolFromPermutation(acc: Table, p: seq<Dice>, q: seq<Dice>)
    requires multiset(p) == multiset(q)
    ensures SameWeights(PoolFrom(acc, p), PoolFrom(acc, q))
    decreases |p|
  {
    if p == [] {
      assert |q| == |multiset(q)| == 0;
    } else {
      assert p[0] in multiset(q);
      var j :| 0 <= j < |q| && q[j] == p[0];
      var rest := q[..j] + q[j + 1..];
      assert q == q[..j] + [q[j]] + q[j + 1..];
      assert multiset(q) == multiset(q[..j]) + multiset([q[j]]) + multiset(q[j + 1..]);
      assert multiset(rest) == multiset(q[..j]) + multiset(q[j + 1..]);
      assert p == [p[0]] + p[1..];
      assert multiset(p) == multiset([p[0]]) + multiset(p[1..]);
      assert multiset(p[1..]) == multiset(p) - multiset([p[0]]);
      assert multiset(rest) == multiset(q) - multiset([q[j]]);
      var first := Convolve(acc, p[0].distribution);
      PoolFromPermutation(first, p[1..], rest);
      PoolFromMove(acc, q, j);
    }
  }

  /**
   * `DicePool.__init__` adds the dice in list order, but any order of the
   * same dice yields the same dict.
   */
  lemma {:induction false} PoolOrderIrrelevant(p: seq<Dice>, q: seq<Dice>)
    requires multiset(p) == multiset(q)
    ensures ToMap(PoolTable(p)) == ToMap(PoolTable(q))
  {
    PoolFromPermutation(Default(), p, q);
    SameWeightsMap(PoolTable(p), PoolTable(q));
  }

  /** Exchanging two neighbouring dice leaves the pool's dict unchanged. */
  lemma {:induction false} PoolSwapSameMap(pre: seq<Dice>, d: Dice, e: Dice, post: seq<Dice>)
    ensures ToMap(PoolTable(pre + [d, e] + post)) == ToMap(PoolTable(pre + [e, d] + post))
  {
    assert multiset(pre + [d, e] + post) == multiset(pre + [e, d] + post);
    PoolOrderIrrelevant(pre + [d, e] + post, pre + [e, d] + post);
  }

  // ---------------------------------------------------------------------
  // The distribution counts the ways the dice can land
  // ---------------------------------------------------------------------

  /**
   * The number of ways the dice of `pool` can land so that their outcome
   * vectors, added to `from`, make `k`: one branch per side of the first die.
   */
  function Ways(pool: seq<Dice>, from: Quad, k: Quad): nat
    decreases |pool|, 1, 0
  {
    if pool == [] then (if from == k then 1 else 0)
    else WaysOver(pool[0].sides, pool[1..], from, k)
  }

  /** `Ways` summed over the sides of one die, the rest of the pool after it. */
  function WaysOver(sides: seq<Side>, rest: seq<Dice>, from: Quad, k: Quad): nat
    decreases |rest| + 1, 0, |sides|
  {
    if sides == [] then 0
    else Ways(rest, Plus(from, OutcomeVector(sides[0].symbols)), k) + WaysOver(sides[1..], rest, from, k)
  }

  function WaysTo(pool: seq<Dice>, k: Quad): Quad -> int
  {
    p => Ways(pool, p, k)
  }

  lemma {:induction false} WaysOverIsFaceSum(sides: seq<Side>, rest: seq<Dice>, from: Quad, k: Quad)
    ensures FaceSum(sides, Row(Through(WaysTo(rest, k)), from)) == WaysOver(sides, rest, from, k)
  {
    if sides != [] {
      WaysOverIsFaceSum(sides[1..], rest, from, k);
    }
  }

  lemma {:induction false} PoolFromWays(acc: Table, pool: seq<Dice>, k: Quad)
    requires AllValid(pool)
    ensures Weighted(PoolFrom(acc, pool), Indicator(k)) == Weighted(acc, WaysTo(pool, k))
    decreases |pool|
  {
    if pool == [] {
      WeightedCongruent(acc, Indicator(k), WaysTo(pool, k));
    } else {
      var d := pool[0];
      var rest := pool[1..];
      var next := Convolve(acc, d.distribution);
      PoolFromWays(next, rest, k);
      ConvolveWeighted(acc, d.distribution, WaysTo(rest, k));
      forall p ensures RowSums(d.distribution, Through(WaysTo(rest, k)))(p) == WaysTo(pool, k)(p) {
        SideTableWeighted(d.sides, Row(Through(WaysTo(rest, k)), p));
        WaysOverIsFaceSum(d.sides, rest, p, k);
      }
      WeightedCongruent(acc, RowSums(d.distribution, Through(WaysTo(rest, k))), WaysTo(pool, k));
    }
  }

  /** The pool's distribution gives each outcome vector the number of ways the dice can land on it. */
  lemma {:induction false} PoolCountsWays(pool: seq<Dice>, k: Quad)
    requires AllValid(pool)
    ensures Freq(PoolTable(pool), k) == Ways(pool, Zero, k)
  {
    FreqIsWeighted(PoolTable(pool), k);
    PoolFromWays(Default(), pool, k);
  }

  // ---------------------------------------------------------------------
  // Every roll is a key of the distribution
  // ---------------------------------------------------------------------

  lemma {:induction false} PositiveFreq(t: Table, k: Quad)
    requires Positive(t) && k in Keys(t)
    ensures Freq(t, k) >= 1
  {
    if t[0].0 != k {
      PositiveFreq(t[1..], k);
    }
  }

  lemma {:induction false} FreqKey(t: Table, k: Quad)
    requires Freq(t, k) >= 1
    ensures k in Keys(t)
  {
    if k !in Keys(t) {
      FreqAbsent(t, k);
    }
  }

  lemma {:induction false} RollKeys(acc: Table, pool: seq<Dice>, faces: seq<nat>, k: Quad)
    requires AllValid(pool) && FacesFit(pool, faces) && k in Keys(acc)
    ensures Plus(k, OutcomeVector(RolledSymbols(pool, faces))) in Keys(PoolFrom(acc, pool))
    decreases |pool|
  {
    if pool == [] {
      OutcomeVectorEmpty();
      PlusZero(k);
    } else {
      var d := pool[0];
      var roll := Roll(d, faces[0]);
      var rest := RolledSymbols(pool[1..], faces[1..]);
      var v := OutcomeVector(roll);
      FreqKey(d.distribution, v);
      KeysConvolve(acc, d.distribution);
      assert Plus(k, v) in SumKeys(Keys(acc), Keys(d.distribution));
      RollKeys(Convolve(acc, d.distribution), pool[1..], faces[1..], Plus(k, v));
      OutcomeVectorConcat(roll, rest);
      PlusAssociates(k, v, OutcomeVector(rest));
    }
  }

  /** A pool of dice that all have sides has a positive total, so its queries never divide by zero. */
  lemma {:induction false} PoolTotalPositive(pool: seq<Dice>)
    requires AllValid(pool)
    requires forall i :: 0 <= i < |pool| ==> NumSides(pool[i]) > 0
    ensures Total(PoolTable(pool)) > 0
  {
    ProductPositive(pool);
    PoolTotal(pool);
  }

  lemma {:induction false} ProductPositive(pool: seq<Dice>)
    requires forall i :: 0 <= i < |pool| ==> NumSides(pool[i]) > 0
    ensures SidesProduct(pool) > 0
  {
    if pool != [] {
      assert NumSides(pool[0]) > 0;
      ProductPositive(pool[1..]);
      PositiveProduct(NumSides(pool[0]), SidesProduct(pool[1..]));
    }
  }

  /**
   * A pool that `from_string` builds has a positive total: its `mean` and
   * `probability_above` are always defined.
   */
  lemma {:induction false} FromStringTotalPositive(poolString: string)
    requires AllCodes(poolString)
    ensures Total(PoolTable(PoolOfCodes(SortCodes(poolString)))) > 0
  {
    var pool := PoolOfCodes(SortCodes(poolString));
    forall i | 0 <= i < |pool| ensures Valid(pool[i]) && NumSides(pool[i]) > 0 {
      var kind := ColorOf([SortCodes(poolString)[i]]).value;
      assert pool[i] == StandardDice(kind);
      SideCounts();
    }
    PoolTotalPositive(pool);
  }

  /** Whatever faces the dice show, the pool's distribution gives that outcome a positive frequency. */
  lemma {:induction false} RollIsPossible(pool: seq<Dice>, faces: seq<nat>)
    requires AllValid(pool) && FacesFit(pool, faces)
    ensures Freq(PoolTable(pool), OutcomeVector(RolledSymbols(pool, faces))) >= 1
  {
    var v := OutcomeVector(RolledSymbols(pool, faces));
    RollKeys(Default(), pool, faces, Zero);
    PlusZero(v);
    PoolShape(pool);
    PositiveFreq(PoolTable(pool), v);
  }

  // ---------------------------------------------------------------------
  // Ranking and from_string
  // ---------------------------------------------------------------------

  /** `_sort_symbol_by_power` numbers the symbols 1 to 6 in the order T, s, a, D, f, r. */
  lemma {:induction false} SymbolPowerBijective()
    ensures forall x :: PowerOrder[SymbolPower(x) - 1] == x
    ensures forall k :: 0 <= k < 6 ==> SymbolPower(PowerOrder[k]) == k + 1
  {
  }

  /** `_sort_dice_by_power` numbers the color codes 1 to 6 in the order y, g, b, r, p, k. */
  lemma {:induction false} DicePowerBijective()
    ensures forall c :: c in "bgykpr" ==> DicePowerOrder[SortDiceByPower(c).value - 1] == c
    ensures forall k :: 0 <= k < 6 ==> SortDiceByPower(DicePowerOrder[k]) == Ok(k + 1)
  {
  }

  /**
   * Any ordering of the codes that `list.sort` could return, a permutation
   * sorted by die power, is the one the model computes: on color codes the
   * key tells every two characters apart, so stability does not matter.
   */
  lemma {:induction false} FromStringOrderUnique(s: seq<char>, sorted: seq<char>)
    requires AllCodes(s)
    requires multiset(sorted) == multiset(s) && Sorting.SortedBy(sorted, DiceRank)
    ensures sorted == SortCodes(s)
  {
    var r := SortCodes(s);
    forall x, y | x in r && y in r && DiceRank(x) == DiceRank(y) ensures x == y {
      CodeOfMember(r, x);
      CodeOfMember(r, y);
      DiceRankInjective(x, y);
    }
    Sorting.SortedPermutationUnique(r, sorted, DiceRank);
  }

  lemma {:induction false} CodeOfMember(s: seq<char>, x: char)
    requires AllCodes(s) && x in s
    ensures x in "bgykpr"
  {
    var i :| 0 <= i < |s| && s[i] == x;
  }

  /** Two color codes of the same power are the same code. */
  lemma {:induction false} DiceRankInjective(x: char, y: char)
    requires x in "bgykpr" && y in "bgykpr" && DiceRank(x) == DiceRank(y)
    ensures x == y
  {
    DicePowerBijective();
  }

  /** `from_string` puts the dice in power order: Proficiency, Ability, Boost, Challenge, Difficulty, Setback. */
  lemma {:induction false} FromStringPowerOrder(s: seq<char>, i: nat, j: nat)
    requires AllCodes(s) && i <= j < |s|
    ensures DiceRank(SortCodes(s)[i]) <= DiceRank(SortCodes(s)[j])
    ensures PoolOfCodes(SortCodes(s))[i] == StandardDice(ColorOf([SortCodes(s)[i]]).value)
  {
  }

  /** `'yyx'` fails on its `x`; `'yygbrppk'` and `'ygk'` are all color codes. */
  lemma {:induction false} FromStringExamples()
    ensures FirstInvalid("yyx") == Some(2)
    ensures FirstInvalid("yygbrppk") == None
    ensures FirstInvalid("ygk") == None
  {
    assert "yyx"[1..] == "yx" && "yx"[1..] == "x";
  }

  // ---------------------------------------------------------------------
  // The net result of a roll
  // ---------------------------------------------------------------------

  /** The net result depends only on which symbols were rolled, not on their order. */
  lemma {:induction false} CancelledPermutation(a: seq<Symbol>, b: seq<Symbol>)
    requires multiset(a) == multiset(b)
    ensures multiset(Cancelled(a)) == multiset(Cancelled(b))
  {
    assert NetSuccess(a) == NetSuccess(b) && NetAdvantage(a) == NetAdvantage(b);
    forall y ensures multiset(Cancelled(a))[y] == multiset(Cancelled(b))[y] {
      SameCountsCancel(a, b, y);
    }
  }

  lemma SameCountsCancel(a: seq<Symbol>, b: seq<Symbol>, y: Symbol)
    requires Count(a, y) == Count(b, y)
    requires NetSuccess(a) == NetSuccess(b) && NetAdvantage(a) == NetAdvantage(b)
    ensures Count(Cancelled(a), y) == Count(Cancelled(b), y)
  {
    CountCancelled(a, y);
    CountCancelled(b, y);
  }

  /**
   * What `roll_ascii` shows as the net result: the cancelled roll sorted by
   * symbol power, holding the same symbols as cancelling the unsorted roll.
   */
  lemma {:induction false} RollNetSymbols(rolled: seq<Symbol>)
    ensures multiset(Sorting.SortByKey(Cancelled(Sorting.SortByKey(rolled, SymbolPower)), SymbolPower))
            == multiset(Cancelled(rolled))
    ensures Sorting.SortedBy(Sorting.SortByKey(Cancelled(Sorting.SortByKey(rolled, SymbolPower)), SymbolPower), SymbolPower)
  {
    var sorted := Sorting.SortByKey(rolled, SymbolPower);
    Sorting.SortByKeySortsAndPermutes(rolled, SymbolPower);
    CancelledPermutation(sorted, rolled);
    Sorting.SortByKeySortsAndPermutes(Cancelled(sorted), SymbolPower);
  }
}
