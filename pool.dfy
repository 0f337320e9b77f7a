/**
 * `DicePool` of dice.py: a fixed list of dice with the distribution of the
 * sum of their outcome vectors, its queries, a roll of every die, the two
 * ranking functions and `from_string`.
 *
 * A pool never changes after `__init__`, so it is a value; `NewDicePool`
 * is the constructor's fold loop.
 */
module Pool {
  import opened Wrappers
  import opened Distribution
  import opened Symbols
  import opened EoteDice
  import opened Cancellation
  import Sorting

  datatype DicePool = DicePool(pool: seq<Dice>, distribution: Table)

  /** The fold of `__init__`: `acc.add(d)` for every die `d` in turn. */
  function PoolFrom(acc: Table, pool: seq<Dice>): Table
    decreases |pool|
  {
    if pool == [] then acc else PoolFrom(Convolve(acc, pool[0].distribution), pool[1..])
  }

  /** The distribution a pool of these dice holds. */
  function PoolTable(pool: seq<Dice>): Table
  {
    PoolFrom(Default(), pool)
  }

  predicate ValidPool(p: DicePool)
  {
    p.distribution == PoolTable(p.pool)
  }

  /** `DicePool.__init__`: start from the identity and add each die's distribution. */
  method NewDicePool(pool: seq<Dice>) returns (p: DicePool)
    ensures p.pool == pool && ValidPool(p)
  {
    var distribution := Default();
    var i := 0;
    while i < |pool|
      invariant 0 <= i <= |pool|
      invariant PoolFrom(distribution, pool[i..]) == PoolTable(pool)
    {
      assert pool[i..][0] == pool[i] && pool[i..][1..] == pool[i + 1..];
      distribution := Add(distribution, pool[i].distribution);
      i := i + 1;
    }
    p := DicePool(pool, distribution);
  }

  /** `probability_above`, with the four optional per-axis minima. */
  method ProbabilityAbove(p: DicePool, triumphCutoff: Option<int>, successCutoff: Option<int>,
                          advantageCutoff: Option<int>, despairCutoff: Option<int>)
    returns (hits: nat, probability: Option<real>)
    ensures hits == Hits(p.distribution, Cutoff(triumphCutoff, successCutoff, advantageCutoff, despairCutoff))
    ensures probability.None? <==> Total(p.distribution) == 0
    ensures probability.Some? ==> probability.value == hits as real / Total(p.distribution) as real
  {
    hits, probability := Distribution.ProbabilityAbove(
      p.distribution, Cutoff(triumphCutoff, successCutoff, advantageCutoff, despairCutoff));
  }

  /** `DicePoolMean`: the four means, named by axis. */
  datatype DicePoolMean = DicePoolMean(triumph: real, success: real, advantage: real, despair: real)

  /** `mean`; `None` where Python divides by a zero total. */
  method Mean(p: DicePool) returns (m: Option<DicePoolMean>)
    ensures m.None? <==> Total(p.distribution) == 0
    ensures m.Some? ==> m.value.triumph == AxisSum(p.distribution, 0) as real / Total(p.distribution) as real
    ensures m.Some? ==> m.value.success == AxisSum(p.distribution, 1) as real / Total(p.distribution) as real
    ensures m.Some? ==> m.value.advantage == AxisSum(p.distribution, 2) as real / Total(p.distribution) as real
    ensures m.Some? ==> m.value.despair == AxisSum(p.distribution, 3) as real / Total(p.distribution) as real
  {
    var means := Distribution.Mean(p.distribution);
    if means.None? {
      return None;
    }
    m := Some(DicePoolMean(means.value[0], means.value[1], means.value[2], means.value[3]));
  }

  // ---------------------------------------------------------------------
  // Rolling
  // ---------------------------------------------------------------------

  /** One face index per die, each naming one of that die's sides. */
  predicate FacesFit(pool: seq<Dice>, faces: seq<nat>)
  {
    |faces| == |pool| && forall i :: 0 <= i < |pool| ==> faces[i] < |pool[i].sides|
  }

  /** The symbols of every die's rolled face, die after die. */
  function RolledSymbols(pool: seq<Dice>, faces: seq<nat>): seq<Symbol>
    requires FacesFit(pool, faces)
  {
    if pool == [] then [] else Roll(pool[0], faces[0]) + RolledSymbols(pool[1..], faces[1..])
  }

  /** `DicePool.roll`, with die `i` showing side `faces[i]`. */
  method RollPool(p: DicePool, faces: seq<nat>) returns (symbols: seq<Symbol>)
    requires FacesFit(p.pool, faces)
    ensures symbols == RolledSymbols(p.pool, faces)
  {
    symbols := [];
    var i := 0;
    while i < |p.pool|
      invariant 0 <= i <= |p.pool|
      invariant symbols + RolledSymbols(p.pool[i..], faces[i..]) == RolledSymbols(p.pool, faces)
    {
      assert p.pool[i..][1..] == p.pool[i + 1..] && faces[i..][1..] == faces[i + 1..];
      symbols := symbols + Roll(p.pool[i], faces[i]);
      i := i + 1;
    }
  }

  // ---------------------------------------------------------------------
  // Ranking
  // ---------------------------------------------------------------------

  /** `_sort_symbol_by_power`. */
  function SymbolPower(symbol: Symbol): (r: int)
    ensures 1 <= r <= 6
  {
    match symbol
    case Triumph => 1
    case Success => 2
    case Advantage => 3
    case Despair => 4
    case Failure => 5
    case Threat => 6
  }

  /** The symbols from most to least powerful. */
  const PowerOrder: seq<Symbol> := [Triumph, Success, Advantage, Despair, Failure, Threat]

  /** `_sort_dice_by_power`: a rank for a color code, or the error for any other character. */
  function SortDiceByPower(diceChar: char): (r: Result<int, DiceError>)
    ensures r.Ok? <==> diceChar in "bgykpr"
    ensures r.Ok? ==> 1 <= r.value <= 6
    ensures r.Err? ==> r.error == InvalidDiceCharacter(diceChar)
  {
    match ColorOf([diceChar])
    case None => Err(InvalidDiceCharacter(diceChar))
    case Some(kind) =>
      match kind
      case Proficiency => Ok(1)
      case Ability => Ok(2)
      case Boost => Ok(3)
      case Challenge => Ok(4)
      case Difficulty => Ok(5)
      case Setback => Ok(6)
  }

  /** The color codes from most to least powerful die. */
  const DicePowerOrder: seq<char> := "ygbrpk"

  /** The key `list.sort` compares; only read where every key exists. */
  function DiceRank(diceChar: char): int
  {
    match SortDiceByPower(diceChar)
    case Ok(rank) => rank
    case Err(_) => 0
  }

  /** Every character is a color code. */
  predicate AllCodes(s: seq<char>)
  {
    forall i :: 0 <= i < |s| ==> s[i] in "bgykpr"
  }

  /**
   * The position of the first character that is not a color code: the one
   * whose key `list.sort` fails on, since it computes the keys in order
   * before it moves anything.
   */
  function FirstInvalid(s: seq<char>): (r: Option<nat>)
    ensures r.None? <==> AllCodes(s)
    ensures r.Some? ==> r.value < |s| && s[r.value] !in "bgykpr" && AllCodes(s[..r.value])
  {
    if s == [] then None
    else if SortDiceByPower(s[0]).Err? then Some(0)
    else
      match FirstInvalid(s[1..])
      case None => None
      case Some(k) =>
        assert s[..k + 1] == [s[0]] + s[1..][..k];
        Some(k + 1)
  }

  /** The color codes in the order `list.sort` leaves them, keyed by die power. */
  function SortCodes(s: seq<char>): (r: seq<char>)
    ensures multiset(r) == multiset(s) && Sorting.SortedBy(r, DiceRank)
    ensures |r| == |s|
    ensures AllCodes(s) ==> AllCodes(r)
  {
    Sorting.SortByKeySortsAndPermutes(s, DiceRank);
    var r := Sorting.SortByKey(s, DiceRank);
    CodesPermute(s, r);
    assert |multiset(r)| == |multiset(s)|;
    r
  }

  lemma CodesPermute(s: seq<char>, r: seq<char>)
    requires multiset(r) == multiset(s)
    ensures AllCodes(s) ==> AllCodes(r)
  {
    if AllCodes(s) {
      forall k | 0 <= k < |r| ensures r[k] in "bgykpr" {
        assert r[k] in multiset(s);
      }
    }
  }

  /** The standard dice for a list of color codes, in the same order. */
  function PoolOfCodes(codes: seq<char>): (pool: seq<Dice>)
    requires AllCodes(codes)
    ensures |pool| == |codes|
    ensures forall i :: 0 <= i < |codes| ==> pool[i] == StandardDice(ColorOf([codes[i]]).value)
  {
    seq(|codes|, i requires 0 <= i < |codes| => StandardDice(ColorOf([codes[i]]).value))
  }

  lemma PoolOfCodesSnoc(codes: seq<char>, c: char)
    requires AllCodes(codes + [c])
    ensures AllCodes(codes) && c in "bgykpr"
    ensures PoolOfCodes(codes + [c]) == PoolOfCodes(codes) + [StandardDice(ColorOf([c]).value)]
  {
    var all := codes + [c];
    assert AllCodes(codes) && c in "bgykpr" by {
      assert forall i :: 0 <= i < |codes| ==> codes[i] == all[i];
      assert all[|codes|] == c;
    }
    var a := PoolOfCodes(all);
    var b := PoolOfCodes(codes) + [StandardDice(ColorOf([c]).value)];
    forall i | 0 <= i < |all| ensures a[i] == b[i] {
      if i < |codes| {
        assert all[i] == codes[i];
      } else {
        assert all[i] == c;
      }
    }
    SameElements(a, b);
  }

  /** Two sequences that agree at every index are equal. */
  lemma SameElements<T>(a: seq<T>, b: seq<T>)
    requires |a| == |b| && forall i :: 0 <= i < |a| ==> a[i] == b[i]
    ensures a == b
  {
  }

  lemma PoolOfCodesStep(codes: seq<char>, k: nat)
    requires AllCodes(codes) && k < |codes|
    ensures ColorOf([codes[k]]).Some? && AllCodes(codes[..k + 1])
    ensures PoolOfCodes(codes[..k + 1]) == PoolOfCodes(codes[..k]) + [StandardDice(ColorOf([codes[k]]).value)]
  {
    assert codes[..k + 1] == codes[..k] + [codes[k]];
    PoolOfCodesSnoc(codes[..k], codes[k]);
  }

  /**
   * `from_string`: the characters sorted by die power (every key computed
   * first, so the first character that is not a color code raises), then one
   * die per character.
   */
  method FromString(poolString: string) returns (r: Result<DicePool, DiceError>)
    ensures r.Err? <==> FirstInvalid(poolString).Some?
    ensures r.Err? ==> r.error == InvalidDiceCharacter(poolString[FirstInvalid(poolString).value])
    ensures r.Ok? ==> AllCodes(poolString)
    ensures r.Ok? ==> r.value.pool == PoolOfCodes(SortCodes(poolString))
    ensures r.Ok? ==> ValidPool(r.value)
  {
    var diceChars: seq<char> := [];
    var i := 0;
    while i < |poolString|
      invariant 0 <= i <= |poolString|
      invariant diceChars == poolString[..i]
    {
      diceChars := diceChars + [poolString[i]];
      i := i + 1;
    }
    assert diceChars == poolString;

    var sorted := SortDiceChars(diceChars);
    if sorted.Err? {
      return Err(sorted.error);
    }
    assert AllCodes(poolString) && sorted.value == SortCodes(poolString);
    diceChars := sorted.value;
    assert AllCodes(diceChars);

    var pool := DiceFromCodes(diceChars);
    var p := NewDicePool(pool);
    r := Ok(p);
  }

  /** The loop of `from_string` that turns each sorted code into its die. */
  method DiceFromCodes(codes: seq<char>) returns (pool: seq<Dice>)
    requires AllCodes(codes)
    ensures pool == PoolOfCodes(codes)
  {
    pool := [];
    var k := 0;
    while k < |codes|
      invariant 0 <= k <= |codes|
      invariant AllCodes(codes[..k]) && pool == PoolOfCodes(codes[..k])
    {
      PoolOfCodesStep(codes, k);
      var dice := DiceFromColorChar([codes[k]]);
      pool := pool + [dice.value];
      k := k + 1;
    }
    assert codes[..k] == codes;
  }

  /**
   * `dice_chars.sort(key=_sort_dice_by_power)`: `list.sort` computes every
   * key, in list order, before it moves anything, so the first character
   * that is not a color code raises and the list is left as it was.
   */
  method SortDiceChars(diceChars: seq<char>) returns (r: Result<seq<char>, DiceError>)
    ensures r.Err? <==> FirstInvalid(diceChars).Some?
    ensures r.Err? ==> r.error == InvalidDiceCharacter(diceChars[FirstInvalid(diceChars).value])
    ensures r.Ok? ==> r.value == SortCodes(diceChars)
  {
    var j := 0;
    while j < |diceChars|
      invariant 0 <= j <= |diceChars|
      invariant AllCodes(diceChars[..j])
    {
      var key := SortDiceByPower(diceChars[j]);
      if key.Err? {
        FirstInvalidAt(diceChars, j);
        return Err(key.error);
      }
      assert diceChars[..j + 1] == diceChars[..j] + [diceChars[j]];
      j := j + 1;
    }
    assert diceChars[..j] == diceChars;
    r := Ok(SortCodes(diceChars));
  }

  lemma {:induction false} FirstInvalidAt(s: seq<char>, j: nat)
    requires j < |s| && AllCodes(s[..j]) && s[j] !in "bgykpr"
    ensures FirstInvalid(s) == Some(j)
  {
    if j > 0 {
      assert s[1..][..j - 1] == s[1..j];
      assert AllCodes(s[1..][..j - 1]);
      FirstInvalidAt(s[1..], j - 1);
      assert s[0] == s[..j][0];
    }
  }

  /**
   * `roll_ascii` without the rendering: the roll sorted by symbol power,
   * and its net result sorted the same way.
   */
  method RollNet(p: DicePool, faces: seq<nat>) returns (symbols: seq<Symbol>, netSymbols: seq<Symbol>)
    requires FacesFit(p.pool, faces)
    ensures symbols == Sorting.SortByKey(RolledSymbols(p.pool, faces), SymbolPower)
    ensures netSymbols == Sorting.SortByKey(Cancelled(symbols), SymbolPower)
  {
    symbols := RollPool(p, faces);
    symbols := Sorting.SortByKey(symbols, SymbolPower);
    netSymbols := CancelSymbols(symbols);
    netSymbols := Sorting.SortByKey(netSymbols, SymbolPower);
  }
}
