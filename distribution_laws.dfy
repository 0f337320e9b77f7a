/**
 * What `QuadDistribution.add`, `probability_above` and `mean` promise,
 * proved about the tables of module Distribution.
 *
 * The central fact is ConvolveWeighted: summing any weight `g` over the
 * convolution of two tables is the same as summing `g(p + q)` over every
 * pair of entries. Total mass, mean numerators, commutativity and
 * associativity all follow from it.
 */
module DistributionLaws {
  import opened Wrappers
  import opened Distribution

  // ---------------------------------------------------------------------
  // Weighted sums: linearity, and the named sums as weighted sums
  // ---------------------------------------------------------------------

  const One: Quad -> int := q => 1

  function Indicator(k: Quad): Quad -> int
  {
    q => if q == k then 1 else 0
  }

  function AxisOf(i: nat): Quad -> int
    requires i < 4
  {
    q => Axis(q, i)
  }

  /** `g` applied to the sum of two keys. */
  function Through(g: Quad -> int): (Quad, Quad) -> int
  {
    (p, q) => g(Plus(p, q))
  }

  /** `h` with its first argument fixed. */
  function Row(h: (Quad, Quad) -> int, p: Quad): Quad -> int
  {
    q => h(p, q)
  }

  /** `h` with its arguments swapped. */
  function Flip(h: (Quad, Quad) -> int): (Quad, Quad) -> int
  {
    (p, q) => h(q, p)
  }

  /** For each `p`, the weighted sum over `b` of `h(p, _)`. */
  function RowSums(b: Table, h: (Quad, Quad) -> int): Quad -> int
  {
    p => Weighted(b, Row(h, p))
  }

  lemma {:induction false} WeightedCongruent(t: Table, f: Quad -> int, g: Quad -> int)
    requires forall q :: f(q) == g(q)
    ensures Weighted(t, f) == Weighted(t, g)
  {
    if t != [] {
      WeightedCongruent(t[1..], f, g);
    }
  }

  lemma {:induction false} WeightedScale(t: Table, f: Quad -> int, g: Quad -> int, c: int)
    requires forall q :: f(q) == c * g(q)
    ensures Weighted(t, f) == c * Weighted(t, g)
  {
    if t != [] {
      WeightedScale(t[1..], f, g, c);
      assert f(t[0].0) * t[0].1 == c * (g(t[0].0) * t[0].1);
    }
  }

  lemma {:induction false} WeightedSum(t: Table, f: Quad -> int, g: Quad -> int, h: Quad -> int)
    requires forall q :: f(q) == g(q) + h(q)
    ensures Weighted(t, f) == Weighted(t, g) + Weighted(t, h)
  {
    if t != [] {
      WeightedSum(t[1..], f, g, h);
      assert f(t[0].0) * t[0].1 == g(t[0].0) * t[0].1 + h(t[0].0) * t[0].1;
    }
  }

  lemma {:induction false} TotalIsWeighted(t: Table)
    ensures Total(t) == Weighted(t, One)
  {
    if t != [] {
      TotalIsWeighted(t[1..]);
    }
  }

  lemma {:induction false} FreqIsWeighted(t: Table, k: Quad)
    ensures Freq(t, k) == Weighted(t, Indicator(k))
  {
    if t != [] {
      FreqIsWeighted(t[1..], k);
    }
  }

  lemma {:induction false} AxisSumIsWeighted(t: Table, i: nat)
    requires i < 4
    ensures AxisSum(t, i) == Weighted(t, AxisOf(i))
  {
    if t != [] {
      AxisSumIsWeighted(t[1..], i);
    }
  }

  // ---------------------------------------------------------------------
  // The defaultdict update and the convolution
  // ---------------------------------------------------------------------

  lemma {:induction false} BumpWeighted(t: Table, k: Quad, f: nat, g: Quad -> int)
    ensures Weighted(Bump(t, k, f), g) == Weighted(t, g) + g(k) * f
  {
    if t == [] {
    } else if t[0].0 == k {
      var r := Bump(t, k, f);
      assert r[0] == (k, t[0].1 + f) && r[1..] == t[1..];
      assert g(k) * (t[0].1 + f) == g(k) * t[0].1 + g(k) * f;
    } else {
      var r := Bump(t, k, f);
      assert r[0] == t[0] && r[1..] == Bump(t[1..], k, f);
      BumpWeighted(t[1..], k, f, g);
    }
  }

  /** Arithmetic step of AddRowWeighted, kept apart from the table reasoning. */
  lemma {:induction false} RowStep(x: int, w: int, y: int, rest: int)
    ensures x * (w * y + rest) == w * (x * y) + x * rest
  {
    calc {
      x * (w * y + rest);
      x * (w * y) + x * rest;
      { assert x * (w * y) == w * (x * y); }
      w * (x * y) + x * rest;
    }
  }

  lemma {:induction false} AxisPlus(p: Quad, q: Quad, i: nat)
    requires i < 4
    ensures Axis(Plus(p, q), i) == Axis(p, i) + Axis(q, i)
  {
  }

  lemma {:induction false} PlusCommutes(p: Quad, q: Quad)
    ensures Plus(p, q) == Plus(q, p)
  {
  }

  lemma {:induction false} PlusAssociates(p: Quad, q: Quad, r: Quad)
    ensures Plus(Plus(p, q), r) == Plus(p, Plus(q, r))
  {
  }

  lemma {:induction false} AddRowWeighted(acc: Table, e: (Quad, nat), that: Table, g: Quad -> int)
    ensures Weighted(AddRow(acc, e, that), g)
         == Weighted(acc, g) + e.1 * Weighted(that, Row(Through(g), e.0))
    decreases |that|
  {
    if that != [] {
      var b := that[0];
      var next := Bump(acc, Plus(e.0, b.0), e.1 * b.1);
      AddRowWeighted(next, e, that[1..], g);
      BumpWeighted(acc, Plus(e.0, b.0), e.1 * b.1, g);
      var w := g(Plus(e.0, b.0));
      assert Row(Through(g), e.0)(b.0) == w;
      var rest := Weighted(that[1..], Row(Through(g), e.0));
      assert Weighted(that, Row(Through(g), e.0)) == w * b.1 + rest;
      RowStep(e.1, w, b.1, rest);
    }
  }

  lemma {:induction false} AddRowsWeighted(acc: Table, t: Table, that: Table, g: Quad -> int)
    ensures Weighted(AddRows(acc, t, that), g)
         == Weighted(acc, g) + Weighted(t, RowSums(that, Through(g)))
    decreases |t|
  {
    if t != [] {
      AddRowWeighted(acc, t[0], that, g);
      AddRowsWeighted(AddRow(acc, t[0], that), t[1..], that, g);
      assert RowSums(that, Through(g))(t[0].0) == Weighted(that, Row(Through(g), t[0].0));
    }
  }

  /**
   * The convolution is the distribution of the sum: weighting its entries
   * by `g` is weighting every pair of entries by `g(p + q)`.
   */
  lemma {:induction false} ConvolveWeighted(t: Table, that: Table, g: Quad -> int)
    ensures Weighted(Convolve(t, that), g) == Weighted(t, RowSums(that, Through(g)))
  {
    AddRowsWeighted([], t, that, g);
  }

  lemma {:induction false} RowSumsOfOne(that: Table, p: Quad)
    ensures RowSums(that, Through(One))(p) == Total(that) * One(p)
  {
    WeightedCongruent(that, Row(Through(One), p), One);
    TotalIsWeighted(that);
  }

  /** `add` multiplies the total masses. */
  lemma {:induction false} TotalConvolve(t: Table, that: Table)
    ensures Total(Convolve(t, that)) == Total(t) * Total(that)
  {
    var rows := RowSums(that, Through(One));
    var c := Total(that);
    forall p
      ensures rows(p) == c * One(p)
    {
      RowSumsOfOne(that, p);
    }
    WeightedScale(t, rows, One, c);
    TotalIsWeighted(t);
    ConvolveWeighted(t, that, One);
    TotalIsWeighted(Convolve(t, that));
    assert Total(Convolve(t, that)) == c * Total(t);
    MulCommutes(c, Total(t));
  }

  lemma MulCommutes(a: int, b: int)
    ensures a * b == b * a
  {
  }

  lemma {:induction false} RowSumsOfAxis(that: Table, i: nat, p: Quad)
    requires i < 4
    ensures RowSums(that, Through(AxisOf(i)))(p) == Axis(p, i) * Total(that) + AxisSum(that, i)
  {
    var shifted := Row(Through(AxisOf(i)), p);
    var lead: Quad -> int := q => Axis(p, i) * One(q);
    forall q ensures shifted(q) == lead(q) + AxisOf(i)(q) {
      AxisPlus(p, q, i);
    }
    WeightedSum(that, shifted, lead, AxisOf(i));
    WeightedScale(that, lead, One, Axis(p, i));
    TotalIsWeighted(that);
    AxisSumIsWeighted(that, i);
  }

  /**
   * The numerator of `mean` is additive under `add`: the mean of a sum of
   * independent outcomes is the sum of their means.
   */
  lemma {:induction false} AxisSumConvolve(t: Table, that: Table, i: nat)
    requires i < 4
    ensures AxisSum(Convolve(t, that), i)
         == AxisSum(t, i) * Total(that) + Total(t) * AxisSum(that, i)
  {
    var rows := RowSums(that, Through(AxisOf(i)));
    var scaled: Quad -> int := p => Total(that) * AxisOf(i)(p);
    var fixed: Quad -> int := p => AxisSum(that, i) * One(p);
    forall p
      ensures rows(p) == scaled(p) + fixed(p)
    {
      RowSumsOfAxis(that, i, p);
    }
    WeightedSum(t, rows, scaled, fixed);
    WeightedScale(t, scaled, AxisOf(i), Total(that));
    WeightedScale(t, fixed, One, AxisSum(that, i));
    AxisSumIsWeighted(t, i);
    TotalIsWeighted(t);
    ConvolveWeighted(t, that, AxisOf(i));
    AxisSumIsWeighted(Convolve(t, that), i);
    assert AxisSum(Convolve(t, that), i) == Total(that) * AxisSum(t, i) + AxisSum(that, i) * Total(t);
    MulCommutes(Total(that), AxisSum(t, i));
    MulCommutes(AxisSum(that, i), Total(t));
  }

  lemma {:induction false} SplitFraction(sum: real, total: real, a: real, ta: real, b: real, tb: real)
    requires ta > 0.0 && tb > 0.0
    requires sum == a * tb + ta * b && total == ta * tb
    ensures sum / total == a / ta + b / tb
  {
    assert a / ta == (a * tb) / total;
    assert b / tb == (ta * b) / total;
  }

  /** (a * tb + ta * b) / (ta * tb) == a / ta + b / tb, from integers to reals. */
  lemma {:induction false} SplitIntFraction(sum: int, total: int, a: int, ta: int, b: int, tb: int)
    requires ta > 0 && tb > 0
    requires sum == a * tb + ta * b && total == ta * tb
    ensures total > 0
    ensures sum as real / total as real == a as real / ta as real + b as real / tb as real
  {
    PositiveProduct(ta, tb);
    RealOfProduct(a, tb);
    RealOfProduct(ta, b);
    RealOfProduct(ta, tb);
    SplitFraction(sum as real, total as real, a as real, ta as real, b as real, tb as real);
  }

  lemma {:induction false} RealOfProduct(x: int, y: int)
    ensures (x * y) as real == x as real * y as real
  {
  }

  lemma {:induction false} PositiveProduct(x: int, y: int)
    requires x > 0 && y > 0
    ensures x * y > 0
  {
  }

  /** The means of `add(t, that)` are the sums of the operands' means. */
  lemma {:induction false} MeanConvolve(t: Table, that: Table, i: nat)
    requires i < 4 && Total(t) > 0 && Total(that) > 0
    ensures Total(Convolve(t, that)) > 0
    ensures AxisSum(Convolve(t, that), i) as real / Total(Convolve(t, that)) as real
         == AxisSum(t, i) as real / Total(t) as real + AxisSum(that, i) as real / Total(that) as real
  {
    var a, ta := AxisSum(t, i), Total(t);
    var b, tb := AxisSum(that, i), Total(that);
    AxisSumConvolve(t, that, i);
    TotalConvolve(t, that);
    SplitIntFraction(AxisSum(Convolve(t, that), i), Total(Convolve(t, that)), a, ta, b, tb);
  }

  // ---------------------------------------------------------------------
  // Commutativity and associativity, by table equality
  // ---------------------------------------------------------------------

  /** Swapping the order of a double sum over two tables. */
  lemma {:induction false} Fubini(a: Table, b: Table, h: (Quad, Quad) -> int)
    ensures Weighted(a, RowSums(b, h)) == Weighted(b, RowSums(a, Flip(h)))
  {
    if a == [] {
      var zero: Quad -> int := q => 0;
      forall q
        ensures RowSums(a, Flip(h))(q) == 0 * zero(q)
      {
      }
      WeightedScale(b, RowSums(a, Flip(h)), zero, 0);
    } else {
      Fubini(a[1..], b, h);
      var lead := Row(h, a[0].0);
      var scaled: Quad -> int := q => a[0].1 * lead(q);
      forall q
        ensures RowSums(a, Flip(h))(q) == scaled(q) + RowSums(a[1..], Flip(h))(q)
      {
      }
      WeightedSum(b, RowSums(a, Flip(h)), scaled, RowSums(a[1..], Flip(h)));
      WeightedScale(b, scaled, lead, a[0].1);
    }
  }

  lemma {:induction false} WeightedConvolveCommutes(a: Table, b: Table, g: Quad -> int)
    ensures Weighted(Convolve(a, b), g) == Weighted(Convolve(b, a), g)
  {
    ConvolveWeighted(a, b, g);
    ConvolveWeighted(b, a, g);
    Fubini(a, b, Through(g));
    forall q
      ensures RowSums(a, Flip(Through(g)))(q) == RowSums(a, Through(g))(q)
    {
      forall p ensures Row(Flip(Through(g)), q)(p) == Row(Through(g), q)(p) {
        PlusCommutes(p, q);
      }
      WeightedCongruent(a, Row(Flip(Through(g)), q), Row(Through(g), q));
    }
    WeightedCongruent(b, RowSums(a, Flip(Through(g))), RowSums(a, Through(g)));
  }

  /** Every key of `add(t, that)` is the sum of a key of each, and every such sum is a key. */
  function SumKeys(a: set<Quad>, b: set<Quad>): set<Quad>
  {
    set p, q | p in a && q in b :: Plus(p, q)
  }

  lemma {:induction false} KeysConcat(a: Table, b: Table)
    ensures Keys(a + b) == Keys(a) + Keys(b)
  {
    if a == [] {
      assert a + b == b;
    } else {
      assert (a + b)[0] == a[0] && (a + b)[1..] == a[1..] + b;
      KeysConcat(a[1..], b);
    }
  }

  lemma {:induction false} KeysAddRow(acc: Table, e: (Quad, nat), that: Table)
    ensures Keys(AddRow(acc, e, that)) == Keys(acc) + SumKeys({e.0}, Keys(that))
    decreases |that|
  {
    if that == [] {
      assert SumKeys({e.0}, Keys(that)) == {};
    } else {
      var next := Bump(acc, Plus(e.0, that[0].0), e.1 * that[0].1);
      KeysAddRow(next, e, that[1..]);
      assert SumKeys({e.0}, Keys(that)) == {Plus(e.0, that[0].0)} + SumKeys({e.0}, Keys(that[1..]));
    }
  }

  lemma {:induction false} KeysAddRows(acc: Table, t: Table, that: Table)
    ensures Keys(AddRows(acc, t, that)) == Keys(acc) + SumKeys(Keys(t), Keys(that))
    decreases |t|
  {
    if t == [] {
      assert SumKeys(Keys(t), Keys(that)) == {};
    } else {
      KeysAddRow(acc, t[0], that);
      KeysAddRows(AddRow(acc, t[0], that), t[1..], that);
      assert SumKeys(Keys(t), Keys(that))
          == SumKeys({t[0].0}, Keys(that)) + SumKeys(Keys(t[1..]), Keys(that));
    }
  }

  /** The keys of `add(t, that)` are exactly the sums of a key of `t` and a key of `that`. */
  lemma {:induction false} KeysConvolve(t: Table, that: Table)
    ensures Keys(Convolve(t, that)) == SumKeys(Keys(t), Keys(that))
  {
    KeysAddRows([], t, that);
  }

  lemma {:induction false} SumKeysCommute(a: set<Quad>, b: set<Quad>)
    ensures SumKeys(a, b) == SumKeys(b, a)
  {
    forall k | k in SumKeys(a, b) ensures k in SumKeys(b, a) {
      var p, q :| p in a && q in b && k == Plus(p, q);
      assert k == Plus(q, p);
    }
    forall k | k in SumKeys(b, a) ensures k in SumKeys(a, b) {
      var q, p :| q in b && p in a && k == Plus(q, p);
      assert k == Plus(p, q);
    }
  }

  /** Tables agreeing on keys and on every weighted sum are equal as dicts. */
  lemma {:induction false} SameMap(x: Table, y: Table)
    requires Keys(x) == Keys(y)
    requires forall k :: Weighted(x, Indicator(k)) == Weighted(y, Indicator(k))
    ensures ToMap(x) == ToMap(y)
  {
    forall k | k in Keys(x) ensures Freq(x, k) == Freq(y, k) {
      FreqIsWeighted(x, k);
      FreqIsWeighted(y, k);
    }
  }

  /** `add` is commutative, comparing the resulting dicts. */
  lemma {:induction false} ConvolveCommutes(a: Table, b: Table)
    ensures ToMap(Convolve(a, b)) == ToMap(Convolve(b, a))
  {
    KeysConvolve(a, b);
    KeysConvolve(b, a);
    SumKeysCommute(Keys(a), Keys(b));
    forall k ensures Weighted(Convolve(a, b), Indicator(k)) == Weighted(Convolve(b, a), Indicator(k)) {
      WeightedConvolveCommutes(a, b, Indicator(k));
    }
    SameMap(Convolve(a, b), Convolve(b, a));
  }

  lemma {:induction false} WeightedConvolveAssociates(a: Table, b: Table, c: Table, g: Quad -> int)
    ensures Weighted(Convolve(Convolve(a, b), c), g) == Weighted(Convolve(a, Convolve(b, c)), g)
  {
    var ab, bc := Convolve(a, b), Convolve(b, c);
    // left: ((a + b) + c)
    ConvolveWeighted(ab, c, g);
    var h := RowSums(c, Through(g));
    ConvolveWeighted(a, b, h);
    // right: (a + (b + c))
    ConvolveWeighted(a, bc, g);
    forall p
      ensures RowSums(bc, Through(g))(p) == RowSums(b, Through(h))(p)
    {
      var gp := Row(Through(g), p);
      ConvolveWeighted(b, c, gp);
      forall q
        ensures RowSums(c, Through(gp))(q) == Row(Through(h), p)(q)
      {
        forall r ensures Row(Through(gp), q)(r) == Row(Through(g), Plus(p, q))(r) {
          PlusAssociates(p, q, r);
        }
        WeightedCongruent(c, Row(Through(gp), q), Row(Through(g), Plus(p, q)));
      }
      WeightedCongruent(b, RowSums(c, Through(gp)), Row(Through(h), p));
    }
    WeightedCongruent(a, RowSums(bc, Through(g)), RowSums(b, Through(h)));
  }

  lemma {:induction false} SumKeysAssociate(a: set<Quad>, b: set<Quad>, c: set<Quad>)
    ensures SumKeys(SumKeys(a, b), c) == SumKeys(a, SumKeys(b, c))
  {
    forall k | k in SumKeys(SumKeys(a, b), c) ensures k in SumKeys(a, SumKeys(b, c)) {
      var x, r :| x in SumKeys(a, b) && r in c && k == Plus(x, r);
      var p, q :| p in a && q in b && x == Plus(p, q);
      assert Plus(q, r) in SumKeys(b, c);
      assert k == Plus(p, Plus(q, r));
    }
    forall k | k in SumKeys(a, SumKeys(b, c)) ensures k in SumKeys(SumKeys(a, b), c) {
      var p, y :| p in a && y in SumKeys(b, c) && k == Plus(p, y);
      var q, r :| q in b && r in c && y == Plus(q, r);
      assert Plus(p, q) in SumKeys(a, b);
      assert k == Plus(Plus(p, q), r);
    }
  }

  /** `add` is associative, comparing the resulting dicts. */
  lemma {:induction false} ConvolveAssociates(a: Table, b: Table, c: Table)
    ensures ToMap(Convolve(Convolve(a, b), c)) == ToMap(Convolve(a, Convolve(b, c)))
  {
    KeysConvolve(Convolve(a, b), c);
    KeysConvolve(a, b);
    KeysConvolve(a, Convolve(b, c));
    KeysConvolve(b, c);
    SumKeysAssociate(Keys(a), Keys(b), Keys(c));
    forall k
      ensures Weighted(Convolve(Convolve(a, b), c), Indicator(k))
           == Weighted(Convolve(a, Convolve(b, c)), Indicator(k))
    {
      WeightedConvolveAssociates(a, b, c, Indicator(k));
    }
    SameMap(Convolve(Convolve(a, b), c), Convolve(a, Convolve(b, c)));
  }

  // ---------------------------------------------------------------------
  // Tables that agree on every weighted sum
  // ---------------------------------------------------------------------

  /**
   * Same keys and the same sum under every weight: such tables are equal
   * dicts (`SameWeightsMap`) and interchangeable as an argument of `add`.
   */
  ghost predicate SameWeights(a: Table, b: Table)
  {
    Keys(a) == Keys(b) && forall g :: Weighted(a, g) == Weighted(b, g)
  }

  lemma {:induction false} SameWeightsTrans(a: Table, b: Table, c: Table)
    requires SameWeights(a, b) && SameWeights(b, c)
    ensures SameWeights(a, c)
  {
  }

  lemma {:induction false} SameWeightsMap(a: Table, b: Table)
    requires SameWeights(a, b)
    ensures ToMap(a) == ToMap(b)
  {
    SameMap(a, b);
  }

  /** `add` of equivalent tables to the same table gives equivalent results. */
  lemma {:induction false} ConvolveCongruentLeft(a: Table, b: Table, c: Table)
    requires SameWeights(a, b)
    ensures SameWeights(Convolve(a, c), Convolve(b, c))
  {
    KeysConvolve(a, c);
    KeysConvolve(b, c);
    forall g ensures Weighted(Convolve(a, c), g) == Weighted(Convolve(b, c), g) {
      ConvolveWeighted(a, c, g);
      ConvolveWeighted(b, c, g);
    }
  }

  lemma {:induction false} ConvolveCommutesWeights(a: Table, b: Table)
    ensures SameWeights(Convolve(a, b), Convolve(b, a))
  {
    KeysConvolve(a, b);
    KeysConvolve(b, a);
    SumKeysCommute(Keys(a), Keys(b));
    forall g ensures Weighted(Convolve(a, b), g) == Weighted(Convolve(b, a), g) {
      WeightedConvolveCommutes(a, b, g);
    }
  }

  lemma {:induction false} ConvolveCongruentRight(a: Table, b: Table, c: Table)
    requires SameWeights(b, c)
    ensures SameWeights(Convolve(a, b), Convolve(a, c))
  {
    ConvolveCommutesWeights(a, b);
    ConvolveCongruentLeft(b, c, a);
    ConvolveCommutesWeights(c, a);
    SameWeightsTrans(Convolve(a, b), Convolve(b, a), Convolve(c, a));
    SameWeightsTrans(Convolve(a, b), Convolve(c, a), Convolve(a, c));
  }

  lemma {:induction false} ConvolveAssociatesWeights(a: Table, b: Table, c: Table)
    ensures SameWeights(Convolve(Convolve(a, b), c), Convolve(a, Convolve(b, c)))
  {
    KeysConvolve(Convolve(a, b), c);
    KeysConvolve(a, b);
    KeysConvolve(a, Convolve(b, c));
    KeysConvolve(b, c);
    SumKeysAssociate(Keys(a), Keys(b), Keys(c));
    forall g ensures Weighted(Convolve(Convolve(a, b), c), g) == Weighted(Convolve(a, Convolve(b, c)), g) {
      WeightedConvolveAssociates(a, b, c, g);
    }
  }

  /** Adding `x` then `y` to an accumulator is equivalent to adding `y` then `x`. */
  lemma {:induction false} ConvolveSwap(acc: Table, x: Table, y: Table)
    ensures SameWeights(Convolve(Convolve(acc, x), y), Convolve(Convolve(acc, y), x))
  {
    ConvolveAssociatesWeights(acc, x, y);
    ConvolveCommutesWeights(x, y);
    ConvolveCongruentRight(acc, Convolve(x, y), Convolve(y, x));
    ConvolveAssociatesWeights(acc, y, x);
    SameWeightsTrans(Convolve(Convolve(acc, x), y), Convolve(acc, Convolve(x, y)), Convolve(acc, Convolve(y, x)));
    SameWeightsTrans(Convolve(Convolve(acc, x), y), Convolve(acc, Convolve(y, x)), Convolve(Convolve(acc, y), x));
  }

  // ---------------------------------------------------------------------
  // The identity element, and the shape of the result
  // ---------------------------------------------------------------------

  /** On a table with distinct keys, ToMap gives each entry's own frequency. */
  lemma {:induction false} ToMapOfDistinct(t: Table, i: nat)
    requires DistinctKeys(t) && i < |t|
    ensures t[i].0 in ToMap(t) && ToMap(t)[t[i].0] == t[i].1
  {
    FreqOfDistinct(t, i);
    KeyOfEntry(t, i);
  }

  lemma {:induction false} KeyOfEntry(t: Table, i: nat)
    requires i < |t|
    ensures t[i].0 in Keys(t)
  {
    if i > 0 {
      KeyOfEntry(t[1..], i - 1);
    }
  }

  lemma {:induction false} FreqAbsent(t: Table, k: Quad)
    requires k !in Keys(t)
    ensures Freq(t, k) == 0
  {
    if t != [] {
      FreqAbsent(t[1..], k);
    }
  }

  lemma {:induction false} FreqOfDistinct(t: Table, i: nat)
    requires DistinctKeys(t) && i < |t|
    ensures Freq(t, t[i].0) == t[i].1
  {
    if i == 0 {
      FreqAbsent(t[1..], t[0].0);
    } else {
      KeyOfEntry(t[1..], i - 1);
      FreqOfDistinct(t[1..], i - 1);
    }
  }

  lemma {:induction false} BumpFresh(t: Table, k: Quad, f: nat)
    requires k !in Keys(t)
    ensures Bump(t, k, f) == t + [(k, f)]
  {
    if t != [] {
      BumpFresh(t[1..], k, f);
    }
  }

  lemma {:induction false} AddRowsIdentity(acc: Table, t: Table)
    requires DistinctKeys(t) && Keys(acc) !! Keys(t)
    ensures AddRows(acc, t, Default()) == acc + t
    decreases |t|
  {
    if t == [] {
      assert acc + t == acc;
    } else {
      var next := acc + [t[0]];
      calc {
        AddRows(acc, t, Default());
      == { AddRowDefault(acc, t[0]); FreshStep(acc, t); }
        AddRows(next, t[1..], Default());
      == { FreshStep(acc, t); AddRowsIdentity(next, t[1..]); }
        next + t[1..];
      == { assert next + t[1..] == acc + t; }
        acc + t;
      }
    }
  }

  lemma {:induction false} AddRowIdentity(acc: Table, t: Table)
    requires DistinctKeys(t) && Keys(acc) !! Keys(t)
    ensures AddRow(acc, (Zero, 1), t) == acc + t
    decreases |t|
  {
    if t == [] {
      assert acc + t == acc;
    } else {
      var next := acc + [t[0]];
      calc {
        AddRow(acc, (Zero, 1), t);
      == { AddUnitRowStep(acc, t); FreshStep(acc, t); }
        AddRow(next, (Zero, 1), t[1..]);
      == { FreshStep(acc, t); AddRowIdentity(next, t[1..]); }
        next + t[1..];
      == { assert next + t[1..] == acc + t; }
        acc + t;
      }
    }
  }

  lemma PlusZero(q: Quad)
    ensures Plus(Zero, q) == q && Plus(q, Zero) == q
  {
  }

  /** Against the identity table, one row adds its own entry. */
  lemma {:induction false} AddRowDefault(acc: Table, e: (Quad, nat))
    ensures AddRow(acc, e, Default()) == Bump(acc, e.0, e.1)
  {
    var d := Default();
    assert d[0] == (Zero, 1) && d[1..] == [];
    PlusZero(e.0);
    assert e.1 * 1 == e.1;
  }

  /** The identity's one row adds the first entry of `t` and moves on. */
  lemma {:induction false} AddUnitRowStep(acc: Table, t: Table)
    requires t != []
    ensures AddRow(acc, (Zero, 1), t) == AddRow(Bump(acc, t[0].0, t[0].1), (Zero, 1), t[1..])
  {
    PlusZero(t[0].0);
    assert 1 * t[0].1 == t[0].1;
  }

  /** Appending the first entry of `t` keeps its keys apart from the rest of `t`. */
  lemma {:induction false} FreshStep(acc: Table, t: Table)
    requires t != [] && DistinctKeys(t) && Keys(acc) !! Keys(t)
    ensures Bump(acc, t[0].0, t[0].1) == acc + [t[0]]
    ensures DistinctKeys(t[1..]) && Keys(acc + [t[0]]) !! Keys(t[1..])
  {
    BumpFresh(acc, t[0].0, t[0].1);
    KeysConcat(acc, [t[0]]);
    assert Keys([t[0]]) == {t[0].0};
  }


  /** `add` with the default distribution on the right gives back the left operand. */
  lemma {:induction false} ConvolveIdentityRight(t: Table)
    requires DistinctKeys(t)
    ensures Convolve(t, Default()) == t
  {
    AddRowsIdentity([], t);
  }

  /** `add` with the default distribution on the left gives back the right operand. */
  lemma {:induction false} ConvolveIdentityLeft(t: Table)
    requires DistinctKeys(t)
    ensures Convolve(Default(), t) == t
  {
    AddRowIdentity([], t);
  }

  lemma {:induction false} BumpDistinct(t: Table, k: Quad, f: nat)
    requires DistinctKeys(t)
    ensures DistinctKeys(Bump(t, k, f))
  {
    if t != [] && t[0].0 != k {
      BumpDistinct(t[1..], k, f);
    }
  }

  lemma {:induction false} BumpPositive(t: Table, k: Quad, f: nat)
    requires Positive(t) && f > 0
    ensures Positive(Bump(t, k, f))
  {
    if t != [] && t[0].0 != k {
      BumpPositive(t[1..], k, f);
    }
  }

  /** Every row of a table whose frequencies are positive adds at least one to its total, so a non-empty such table never makes `mean` or `probability_above` divide by zero. */
  lemma {:induction false} PositiveTotal(t: Table)
    requires Positive(t)
    ensures Total(t) >= |t|
    ensures t != [] ==> Total(t) > 0
  {
    if t != [] {
      PositiveTotal(t[1..]);
    }
  }

  lemma {:induction false} AddRowShape(acc: Table, e: (Quad, nat), that: Table)
    ensures DistinctKeys(acc) ==> DistinctKeys(AddRow(acc, e, that))
    ensures Positive(acc) && e.1 > 0 && Positive(that) ==> Positive(AddRow(acc, e, that))
    decreases |that|
  {
    if that != [] {
      var f := e.1 * that[0].1;
      var next := Bump(acc, Plus(e.0, that[0].0), f);
      if DistinctKeys(acc) {
        BumpDistinct(acc, Plus(e.0, that[0].0), f);
      }
      if Positive(acc) && e.1 > 0 && Positive(that) {
        PositiveProduct(e.1, that[0].1);
        BumpPositive(acc, Plus(e.0, that[0].0), f);
      }
      AddRowShape(next, e, that[1..]);
    }
  }

  lemma {:induction false} AddRowsShape(acc: Table, t: Table, that: Table)
    ensures DistinctKeys(acc) ==> DistinctKeys(AddRows(acc, t, that))
    ensures Positive(acc) && Positive(t) && Positive(that) ==> Positive(AddRows(acc, t, that))
    decreases |t|
  {
    if t != [] {
      AddRowShape(acc, t[0], that);
      AddRowsShape(AddRow(acc, t[0], that), t[1..], that);
    }
  }

  /** The table `add` builds is a dict: no key twice. */
  lemma {:induction false} ConvolveDistinct(t: Table, that: Table)
    ensures DistinctKeys(Convolve(t, that))
  {
    AddRowsShape([], t, that);
  }

  /** With positive frequencies in, every frequency `add` produces is positive. */
  lemma {:induction false} ConvolvePositive(t: Table, that: Table)
    requires Positive(t) && Positive(that)
    ensures Positive(Convolve(t, that))
  {
    AddRowsShape([], t, that);
  }
}
