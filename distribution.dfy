/**
 * `QuadDistribution` of distribution.py: an exact frequency table over
 * 4-tuples (triumph, success, advantage, despair), its convolution `add`,
 * and the two queries `mean` and `probability_above`.
 *
 * The Python object wraps a dict; the model keeps that dict as the sequence
 * of its items in insertion order (the order Python iterates them in), so
 * every loop of the source walks the same entries in the same order.
 */
module Distribution {
  import opened Wrappers

  /** The key of a distribution: an outcome vector. */
  datatype Quad = Quad(triumph: int, success: int, advantage: int, despair: int)

  const Zero: Quad := Quad(0, 0, 0, 0)

  /** `value[i]` on a 4-tuple. */
  function Axis(q: Quad, i: nat): int
    requires i < 4
  {
    if i == 0 then q.triumph
    else if i == 1 then q.success
    else if i == 2 then q.advantage
    else q.despair
  }

  /** Component-wise sum of two keys. */
  function Plus(a: Quad, b: Quad): Quad
  {
    Quad(a.triumph + b.triumph, a.success + b.success,
         a.advantage + b.advantage, a.despair + b.despair)
  }

  /** The items of a QuadDistribution's dict, in insertion order. */
  type Table = seq<(Quad, nat)>

  /** The keys of a table. */
  function Keys(t: Table): set<Quad>
  {
    if t == [] then {} else {t[0].0} + Keys(t[1..])
  }

  /** No key occurs twice, as in a dict. */
  predicate DistinctKeys(t: Table)
  {
    t == [] || (t[0].0 !in Keys(t[1..]) && DistinctKeys(t[1..]))
  }

  /** Every frequency is positive. */
  predicate Positive(t: Table)
  {
    t == [] || (t[0].1 > 0 && Positive(t[1..]))
  }

  /**
   * `_total`: the sum of the frequencies; it is at least the first row's
   * frequency (`DistributionLaws.PositiveTotal`: at least one per row of a
   * table whose frequencies are all positive).
   */
  function Total(t: Table): (n: nat)
    ensures t != [] ==> n >= t[0].1
  {
    if t == [] then 0 else t[0].1 + Total(t[1..])
  }

  /** The frequency the table gives key `q` (0 when absent). */
  function Freq(t: Table, q: Quad): nat
  {
    if t == [] then 0 else (if t[0].0 == q then t[0].1 else 0) + Freq(t[1..], q)
  }

  /** The table as a dict value: what Python's `==` on two dicts compares. */
  function ToMap(t: Table): map<Quad, nat>
  {
    map q | q in Keys(t) :: Freq(t, q)
  }

  /** Sum over the table of `g(value) * frequency`. */
  function Weighted(t: Table, g: Quad -> int): int
  {
    if t == [] then 0 else g(t[0].0) * t[0].1 + Weighted(t[1..], g)
  }

  /** Sum over the table of `value[i] * frequency`: the numerator of `mean` on axis i. */
  function AxisSum(t: Table, i: nat): int
    requires i < 4
  {
    if t == [] then 0 else Axis(t[0].0, i) * t[0].1 + AxisSum(t[1..], i)
  }

  /** The default constructor's table `{(0, 0, 0, 0): 1}`. */
  function Default(): (t: Table)
    ensures DistinctKeys(t) && Positive(t)
    ensures Keys(t) == {Zero} && Freq(t, Zero) == 1 && Total(t) == 1
  {
    [(Zero, 1)]
  }

  /**
   * `elements[k] += f` on a defaultdict(int): the entry for `k` grows by `f`
   * in place, or a new entry `(k, f)` is appended at the end.
   */
  function Bump(t: Table, k: Quad, f: nat): (r: Table)
    ensures Keys(r) == Keys(t) + {k}
    ensures Total(r) == Total(t) + f
    ensures |r| == if k in Keys(t) then |t| else |t| + 1
  {
    if t == [] then [(k, f)]
    else if t[0].0 == k then [(k, t[0].1 + f)] + t[1..]
    else [t[0]] + Bump(t[1..], k, f)
  }

  /** The inner loop of `add` for one entry `e` of the left operand. */
  function AddRow(acc: Table, e: (Quad, nat), that: Table): Table
    decreases |that|
  {
    if that == [] then acc
    else AddRow(Bump(acc, Plus(e.0, that[0].0), e.1 * that[0].1), e, that[1..])
  }

  /** The outer loop of `add`, over the entries of the left operand. */
  function AddRows(acc: Table, t: Table, that: Table): Table
    decreases |t|
  {
    if t == [] then acc else AddRows(AddRow(acc, t[0], that), t[1..], that)
  }

  /** The table `add(t, that)` builds: the discrete convolution of the two. */
  function Convolve(t: Table, that: Table): Table
  {
    AddRows([], t, that)
  }

  /**
   * `add`: for every pair of entries, add the product of the frequencies to
   * the entry of the component-wise sum of the keys.
   */
  method Add(t: Table, that: Table) returns (r: Table)
    ensures r == Convolve(t, that)
  {
    var elements: Table := [];
    var i := 0;
    while i < |t|
      invariant 0 <= i <= |t|
      invariant AddRows(elements, t[i..], that) == Convolve(t, that)
    {
      var (valueI, frequencyI) := t[i];
      ghost var rowStart := elements;
      var j := 0;
      while j < |that|
        invariant 0 <= j <= |that|
        invariant AddRow(elements, t[i], that[j..]) == AddRow(rowStart, t[i], that)
      {
        var (valueJ, frequencyJ) := that[j];
        assert that[j..][0] == that[j] && that[j..][1..] == that[j + 1..];
        var value := Plus(valueI, valueJ);
        var frequency := frequencyI * frequencyJ;
        elements := Bump(elements, value, frequency);
        j := j + 1;
      }
      assert t[i..][0] == t[i] && t[i..][1..] == t[i + 1..];
      i := i + 1;
    }
    r := elements;
  }

  /** Per-axis minimum of `probability_above`; `None` means no constraint. */
  datatype Cutoff = Cutoff(triumph: Option<int>, success: Option<int>,
                           advantage: Option<int>, despair: Option<int>)

  const NoCutoff: Cutoff := Cutoff(None, None, None, None)

  /** `cutoff[i]`. */
  function CutAt(c: Cutoff, i: nat): Option<int>
    requires i < 4
  {
    if i == 0 then c.triumph
    else if i == 1 then c.success
    else if i == 2 then c.advantage
    else c.despair
  }

  /** Axis i does not stop key `q`: no cutoff there, or `q[i]` reaches it. */
  predicate Passes(q: Quad, c: Cutoff, i: nat)
    requires i < 4
  {
    CutAt(c, i).None? || Axis(q, i) >= CutAt(c, i).value
  }

  /** Key `q` meets every given per-axis minimum. */
  predicate Meets(q: Quad, c: Cutoff)
  {
    forall i :: 0 <= i < 4 ==> Passes(q, c, i)
  }

  /** The number of hits `probability_above` counts. */
  function Hits(t: Table, c: Cutoff): nat
  {
    if t == [] then 0 else (if Meets(t[0].0, c) then t[0].1 else 0) + Hits(t[1..], c)
  }

  /**
   * `probability_above`: the hit count, and the hit count over the total
   * (`None` where Python divides by a zero total).
   */
  method ProbabilityAbove(t: Table, cutoff: Cutoff) returns (hits: nat, p: Option<real>)
    ensures hits == Hits(t, cutoff)
    ensures p.None? <==> Total(t) == 0
    ensures p.Some? ==> p.value == Hits(t, cutoff) as real / Total(t) as real
  {
    hits := 0;
    var n := 0;
    while n < |t|
      invariant 0 <= n <= |t|
      invariant hits + Hits(t[n..], cutoff) == Hits(t, cutoff)
    {
      var (value, frequency) := t[n];
      var made := true;
      var i := 0;
      while i < 4
        invariant 0 <= i <= 4 && made
        invariant forall j :: 0 <= j < i ==> Passes(value, cutoff, j)
      {
        var cut := CutAt(cutoff, i);
        if cut.Some? && Axis(value, i) < cut.value {
          // the cut is not made: Python's `break`
          assert !Passes(value, cutoff, i);
          made := false;
          break;
        }
        i := i + 1;
      }
      // Python's `else:` of the for loop: reached only without a break
      assert made <==> Meets(value, cutoff);
      if made {
        hits := hits + frequency;
      }
      assert t[n..][0] == t[n] && t[n..][1..] == t[n + 1..];
      n := n + 1;
    }
    var total := Total(t);
    if total == 0 {
      p := None;
    } else {
      p := Some(hits as real / total as real);
    }
  }

  /**
   * `mean`: the per-axis sums of `value[i] * frequency`, each divided by the
   * total (`None` where Python divides by a zero total).
   */
  method Mean(t: Table) returns (m: Option<seq<real>>)
    ensures m.None? <==> Total(t) == 0
    ensures m.Some? ==> |m.value| == 4
    ensures m.Some? ==> forall i :: 0 <= i < 4 ==> m.value[i] == AxisSum(t, i) as real / Total(t) as real
  {
    var valSum: seq<int> := [0, 0, 0, 0];
    var n := 0;
    while n < |t|
      invariant 0 <= n <= |t| && |valSum| == 4
      invariant forall k :: 0 <= k < 4 ==> valSum[k] + AxisSum(t[n..], k) == AxisSum(t, k)
    {
      var (value, frequency) := t[n];
      ghost var before := valSum;
      var i := 0;
      while i < 4
        invariant 0 <= i <= 4 && |valSum| == 4
        invariant forall k :: 0 <= k < i ==> valSum[k] == before[k] + Axis(value, k) * frequency
        invariant forall k :: i <= k < 4 ==> valSum[k] == before[k]
      {
        valSum := valSum[i := valSum[i] + Axis(value, i) * frequency];
        i := i + 1;
      }
      assert t[n..][0] == t[n] && t[n..][1..] == t[n + 1..];
      n := n + 1;
    }
    var total := Total(t);
    if total == 0 {
      m := None;
      return;
    }
    var means: seq<real> := [];
    var i := 0;
    while i < 4
      invariant 0 <= i <= 4 && |means| == i
      invariant forall k :: 0 <= k < i ==> means[k] == valSum[k] as real / total as real
    {
      means := means + [valSum[i] as real / total as real];
      i := i + 1;
    }
    m := Some(means);
  }
}
