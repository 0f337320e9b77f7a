/**
 * What `QuadDistribution.probability_above` and `mean` promise about their
 * integer numerators and the total they divide by.
 */
module QueryLaws {
  import opened Wrappers
  import opened Distribution

  /** Every minimum of `loose` is present in `tight` with at least the same value. */
  predicate Tighter(tight: Cutoff, loose: Cutoff)
  {
    forall i :: 0 <= i < 4 ==>
      CutAt(loose, i).Some? ==> CutAt(tight, i).Some? && CutAt(tight, i).value >= CutAt(loose, i).value
  }

  /** The cutoff that keeps only axis `i` of `c`. */
  function OnlyAxis(c: Cutoff, i: nat): (r: Cutoff)
    requires i < 4
    ensures Tighter(c, r)
    ensures CutAt(r, i) == CutAt(c, i)
    ensures forall j :: 0 <= j < 4 && j != i ==> CutAt(r, j).None?
  {
    if i == 0 then Cutoff(c.triumph, None, None, None)
    else if i == 1 then Cutoff(None, c.success, None, None)
    else if i == 2 then Cutoff(None, None, c.advantage, None)
    else Cutoff(None, None, None, c.despair)
  }

  /** The hit count never exceeds the total. */
  lemma {:induction false} HitsAtMostTotal(t: Table, c: Cutoff)
    ensures Hits(t, c) <= Total(t)
  {
    if t != [] {
      HitsAtMostTotal(t[1..], c);
    }
  }

  /** With every cutoff `None`, every key is a hit. */
  lemma {:induction false} HitsWithoutCutoff(t: Table)
    ensures Hits(t, NoCutoff) == Total(t)
  {
    if t != [] {
      assert Meets(t[0].0, NoCutoff);
      HitsWithoutCutoff(t[1..]);
    }
  }

  lemma {:induction false} MeetsMonotone(q: Quad, tight: Cutoff, loose: Cutoff)
    requires Tighter(tight, loose) && Meets(q, tight)
    ensures Meets(q, loose)
  {
    forall i | 0 <= i < 4 ensures Passes(q, loose, i) {
      assert Passes(q, tight, i);
    }
  }

  /**
   * Tightening a cutoff, or replacing a `None` by an integer, never
   * increases the hit count.
   */
  lemma {:induction false} HitsMonotone(t: Table, tight: Cutoff, loose: Cutoff)
    requires Tighter(tight, loose)
    ensures Hits(t, tight) <= Hits(t, loose)
  {
    if t != [] {
      if Meets(t[0].0, tight) {
        MeetsMonotone(t[0].0, tight, loose);
      }
      HitsMonotone(t[1..], tight, loose);
    }
  }

  /**
   * Requiring several axes at once never counts more than requiring any one
   * of them: the joint condition is an AND over the axes.
   */
  lemma {:induction false} HitsAtMostMarginal(t: Table, c: Cutoff, i: nat)
    requires i < 4
    ensures Hits(t, c) <= Hits(t, OnlyAxis(c, i))
  {
    HitsMonotone(t, c, OnlyAxis(c, i));
  }

}
