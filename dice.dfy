/**
 * `Dice` of dice.py: a die is its list of sides together with the exact
 * distribution of the sides' outcome vectors, built once when the die is
 * constructed. Also the six standard dice, `DiceColor` and
 * `dice_from_color_char`.
 */
module EoteDice {
  import opened Wrappers
  import opened Distribution
  import opened Symbols
  import DistributionLaws

  /** A die: its sides and the distribution `__init__` builds from them. */
  datatype Dice = Dice(sides: seq<Side>, distribution: Table)

  /** The loop of `Dice.__init__` from table `acc` on: one increment per side. */
  function SideTableFrom(acc: Table, sides: seq<Side>): Table
    decreases |sides|
  {
    if sides == [] then acc
    else SideTableFrom(Bump(acc, OutcomeVector(sides[0].symbols), 1), sides[1..])
  }

  /** The distribution of a die with the given sides. */
  function SideTable(sides: seq<Side>): Table
  {
    SideTableFrom([], sides)
  }

  /** The die's distribution is the one its sides determine. */
  predicate Valid(d: Dice)
  {
    d.distribution == SideTable(d.sides)
  }

  /**
   * `Dice.__init__`: count each side's symbols, form its outcome vector and
   * increment that vector's frequency by one.
   */
  method NewDice(sides: seq<Side>) returns (d: Dice)
    ensures d.sides == sides && Valid(d)
  {
    var mapping: Table := [];
    var i := 0;
    while i < |sides|
      invariant 0 <= i <= |sides|
      invariant SideTableFrom(mapping, sides[i..]) == SideTable(sides)
    {
      var side := sides[i];
      var sideTriumph: int := CountSymbol(side, Triumph);
      var success: int := CountSymbol(side, Success);
      var failure: int := CountSymbol(side, Failure);
      var despair: int := CountSymbol(side, Despair);
      var sideSuccess: int := success + sideTriumph + (-1 * failure) + (-1 * despair);
      var advantage: int := CountSymbol(side, Advantage);
      var threat: int := CountSymbol(side, Threat);
      var sideAdvantage: int := advantage + (-1 * threat);
      var sideDespair := despair;
      assert Quad(sideTriumph, sideSuccess, sideAdvantage, sideDespair) == OutcomeVector(side.symbols);
      mapping := Bump(mapping, Quad(sideTriumph, sideSuccess, sideAdvantage, sideDespair), 1);
      assert sides[i..][0] == side && sides[i..][1..] == sides[i + 1..];
      i := i + 1;
    }
    d := Dice(sides, mapping);
  }

  /** `num_sides`: the number of sides, which is also the total mass of the die's distribution. */
  function NumSides(d: Dice): (n: nat)
    ensures Valid(d) ==> n == Total(d.distribution)
  {
    if Valid(d) then
      SideTableFromShape([], d.sides);
      |d.sides|
    else
      |d.sides|
  }

  /**
   * `roll`, with the face that `random.choice` would pick given as an index:
   * the symbols of one of the die's sides, whose outcome vector the die's
   * distribution gives a positive frequency.
   */
  function Roll(d: Dice, face: nat): (r: seq<Symbol>)
    requires face < |d.sides|
    ensures Side(r) in d.sides
    ensures Valid(d) ==> Freq(d.distribution, OutcomeVector(r)) >= 1
  {
    if Valid(d) then
      SideTableFreq(d.sides, OutcomeVector(d.sides[face].symbols));
      CountFacesAt(d.sides, face);
      d.sides[face].symbols
    else
      d.sides[face].symbols
  }

  // ---------------------------------------------------------------------
  // What a die's distribution holds
  // ---------------------------------------------------------------------

  /** The number of sides whose outcome vector is `q`. */
  function CountFaces(sides: seq<Side>, q: Quad): nat
  {
    if sides == [] then 0
    else (if OutcomeVector(sides[0].symbols) == q then 1 else 0) + CountFaces(sides[1..], q)
  }

  /** Sum of `g` over the outcome vectors of the sides. */
  function FaceSum(sides: seq<Side>, g: Quad -> int): int
  {
    if sides == [] then 0 else g(OutcomeVector(sides[0].symbols)) + FaceSum(sides[1..], g)
  }

  lemma {:induction false} SideTableFromWeighted(acc: Table, sides: seq<Side>, g: Quad -> int)
    ensures Weighted(SideTableFrom(acc, sides), g) == Weighted(acc, g) + FaceSum(sides, g)
    decreases |sides|
  {
    if sides != [] {
      var next := Bump(acc, OutcomeVector(sides[0].symbols), 1);
      DistributionLaws.BumpWeighted(acc, OutcomeVector(sides[0].symbols), 1, g);
      SideTableFromWeighted(next, sides[1..], g);
    }
  }

  /** Weighting a die's distribution is summing over its sides, one term per side. */
  lemma {:induction false} SideTableWeighted(sides: seq<Side>, g: Quad -> int)
    ensures Weighted(SideTable(sides), g) == FaceSum(sides, g)
  {
    SideTableFromWeighted([], sides, g);
  }

  lemma {:induction false} FaceSumCountsFaces(sides: seq<Side>, q: Quad)
    ensures FaceSum(sides, DistributionLaws.Indicator(q)) == CountFaces(sides, q)
  {
    if sides != [] {
      FaceSumCountsFaces(sides[1..], q);
    }
  }

  /** A die gives each outcome vector the number of its sides that show it. */
  lemma {:induction false} SideTableFreq(sides: seq<Side>, q: Quad)
    ensures Freq(SideTable(sides), q) == CountFaces(sides, q)
  {
    DistributionLaws.FreqIsWeighted(SideTable(sides), q);
    SideTableWeighted(sides, DistributionLaws.Indicator(q));
    FaceSumCountsFaces(sides, q);
  }

  lemma {:induction false} SideTableFromShape(acc: Table, sides: seq<Side>)
    ensures Total(SideTableFrom(acc, sides)) == Total(acc) + |sides|
    ensures DistinctKeys(acc) ==> DistinctKeys(SideTableFrom(acc, sides))
    ensures Positive(acc) ==> Positive(SideTableFrom(acc, sides))
    decreases |sides|
  {
    if sides != [] {
      var q := OutcomeVector(sides[0].symbols);
      if DistinctKeys(acc) {
        DistributionLaws.BumpDistinct(acc, q, 1);
      }
      if Positive(acc) {
        DistributionLaws.BumpPositive(acc, q, 1);
      }
      SideTableFromShape(Bump(acc, q, 1), sides[1..]);
    }
  }

  /** A die's distribution has total mass `num_sides()`, distinct keys and positive frequencies. */
  lemma {:induction false} DiceTotal(d: Dice)
    requires Valid(d)
    ensures Total(d.distribution) == NumSides(d)
    ensures DistinctKeys(d.distribution) && Positive(d.distribution)
  {
    SideTableFromShape([], d.sides);
  }

  lemma {:induction false} CountFacesAt(sides: seq<Side>, i: nat)
    requires i < |sides|
    ensures CountFaces(sides, OutcomeVector(sides[i].symbols)) >= 1
  {
    if i > 0 {
      CountFacesAt(sides[1..], i - 1);
    }
  }

  // ---------------------------------------------------------------------
  // The six standard dice
  // ---------------------------------------------------------------------

  datatype DieKind = Boost | Ability | Proficiency | Setback | Difficulty | Challenge

  /** The sides of `BoostDice`. */
  const BoostSides: seq<Side> := [
    Side([]),
    Side([]),
    Side([Advantage, Advantage]),
    Side([Advantage]),
    Side([Success, Advantage]),
    Side([Success])]

  /** The sides of `AbilityDice`. */
  const AbilitySides: seq<Side> := [
    Side([]),
    Side([Success]),
    Side([Success]),
    Side([Success, Success]),
    Side([Advantage]),
    Side([Advantage]),
    Side([Success, Advantage]),
    Side([Advantage, Advantage])]

  /** The sides of `ProficiencyDice`. */
  const ProficiencySides: seq<Side> := [
    Side([]),
    Side([Success]),
    Side([Success]),
    Side([Success, Success]),
    Side([Success, Success]),
    Side([Advantage]),
    Side([Success, Advantage]),
    Side([Success, Advantage]),
    Side([Success, Advantage]),
    Side([Advantage, Advantage]),
    Side([Advantage, Advantage]),
    Side([Triumph])]

  /** The sides of `SetbackDice`. */
  const SetbackSides: seq<Side> := [
    Side([]),
    Side([]),
    Side([Failure]),
    Side([Failure]),
    Side([Threat]),
    Side([Threat])]

  /** The sides of `DifficultyDice`. */
  const DifficultySides: seq<Side> := [
    Side([]),
    Side([Failure]),
    Side([Failure, Failure]),
    Side([Threat]),
    Side([Threat]),
    Side([Threat]),
    Side([Threat, Threat]),
    Side([Failure, Threat])]

  /** The sides of `ChallengeDice`. */
  const ChallengeSides: seq<Side> := [
    Side([]),
    Side([Failure]),
    Side([Failure]),
    Side([Failure, Failure]),
    Side([Failure, Failure]),
    Side([Threat]),
    Side([Threat]),
    Side([Failure, Threat]),
    Side([Failure, Threat]),
    Side([Threat, Threat]),
    Side([Threat, Threat]),
    Side([Despair])]

  /** A side showing at most two symbols, each of them Success, Advantage or Triumph. */
  predicate PositiveSide(side: Side)
  {
    |side.symbols| <= 2 && forall x :: x in side.symbols ==> x == Success || x == Advantage || x == Triumph
  }

  /** A side showing at most two symbols, each of them Failure, Threat or Despair. */
  predicate NegativeSide(side: Side)
  {
    |side.symbols| <= 2 && forall x :: x in side.symbols ==> x == Failure || x == Threat || x == Despair
  }

  /**
   * The face table of each standard kind: the Boost, Ability and Proficiency
   * tables hold only positive sides, the others only negative ones.
   */
  function Sides(kind: DieKind): (s: seq<Side>)
    ensures kind.Boost? || kind.Ability? || kind.Proficiency? ==> forall i :: 0 <= i < |s| ==> PositiveSide(s[i])
    ensures kind.Setback? || kind.Difficulty? || kind.Challenge? ==> forall i :: 0 <= i < |s| ==> NegativeSide(s[i])
  {
    match kind
    case Boost => BoostSides
    case Ability => AbilitySides
    case Proficiency => ProficiencySides
    case Setback => SetbackSides
    case Difficulty => DifficultySides
    case Challenge => ChallengeSides
  }

  /** Proficiency and Challenge dice have 12 sides, Ability and Difficulty 8, Boost and Setback 6. */
  lemma {:induction false} SideCounts()
    ensures |Sides(Proficiency)| == 12 && |Sides(Challenge)| == 12
    ensures |Sides(Ability)| == 8 && |Sides(Difficulty)| == 8
    ensures |Sides(Boost)| == 6 && |Sides(Setback)| == 6
  {
  }

  /** A Boost or Ability or Proficiency side shows no Failure, Threat or Despair; at most two symbols except the Triumph side. */
  lemma {:induction false} PositiveDiceSides(kind: DieKind, i: nat)
    requires kind in {Boost, Ability, Proficiency} && i < |Sides(kind)|
    ensures |Sides(kind)[i].symbols| <= 2
    ensures forall x :: x in Sides(kind)[i].symbols ==> x in {Success, Advantage, Triumph}
    ensures kind != Proficiency ==> Triumph !in Sides(kind)[i].symbols
  {
  }

  /** A Setback or Difficulty or Challenge side shows no Success, Advantage or Triumph. */
  lemma {:induction false} NegativeDiceSides(kind: DieKind, i: nat)
    requires kind in {Setback, Difficulty, Challenge} && i < |Sides(kind)|
    ensures |Sides(kind)[i].symbols| <= 2
    ensures forall x :: x in Sides(kind)[i].symbols ==> x in {Failure, Threat, Despair}
    ensures kind != Challenge ==> Despair !in Sides(kind)[i].symbols
  {
  }

  // ---------------------------------------------------------------------
  // DiceColor and dice_from_color_char
  // ---------------------------------------------------------------------

  /** The member name of each kind in `DiceColor`. */
  function ColorCode(kind: DieKind): char
  {
    match kind
    case Boost => 'b'
    case Ability => 'g'
    case Proficiency => 'y'
    case Setback => 'k'
    case Difficulty => 'p'
    case Challenge => 'r'
  }

  /** The members of `DiceColor` in declaration order. */
  const DiceColors: seq<DieKind> := [Boost, Ability, Proficiency, Setback, Difficulty, Challenge]

  /** `DiceColor[code]`: the kind whose member name is exactly `code`. */
  function ColorOf(code: string): (r: Option<DieKind>)
    ensures r.Some? <==> |code| == 1 && code[0] in "bgykpr"
    ensures r.Some? ==> [ColorCode(r.value)] == code
  {
    if code == "b" then Some(Boost)
    else if code == "g" then Some(Ability)
    else if code == "y" then Some(Proficiency)
    else if code == "k" then Some(Setback)
    else if code == "p" then Some(Difficulty)
    else if code == "r" then Some(Challenge)
    else None
  }

  /** Looking a kind up by its own code finds it. */
  lemma {:induction false} ColorOfCode(kind: DieKind)
    ensures ColorOf([ColorCode(kind)]) == Some(kind)
  {
  }

  /** `DiceColor.names()`: the member names in declaration order. */
  method ColorNames() returns (names: seq<char>)
    ensures names == "bgykpr"
  {
    names := [];
    var i := 0;
    while i < |DiceColors|
      invariant 0 <= i <= |DiceColors|
      invariant names == seq(i, j requires 0 <= j < i => ColorCode(DiceColors[j]))
    {
      names := names + [ColorCode(DiceColors[i])];
      i := i + 1;
    }
  }

  /** The errors the dice layer raises (Python's ValueError, told apart by message). */
  datatype DiceError =
    | InvalidDiceColor(given: string, choices: seq<char>)  // from dice_from_color_char
    | InvalidDiceCharacter(character: char)                  // from DicePool._sort_dice_by_power

  /** The standard die of a kind, as its subclass constructor builds it. */
  function StandardDice(kind: DieKind): (d: Dice)
    ensures Valid(d) && d.sides == Sides(kind)
  {
    Dice(Sides(kind), SideTable(Sides(kind)))
  }

  /**
   * `dice_from_color_char`: the die whose color code is `code`, or an error
   * naming `code` and every valid code.
   */
  method DiceFromColorChar(code: string) returns (r: Result<Dice, DiceError>)
    ensures ColorOf(code).Some? ==> r == Ok(StandardDice(ColorOf(code).value))
    ensures ColorOf(code).None? ==> r == Err(InvalidDiceColor(code, "bgykpr"))
  {
    var color := ColorOf(code);
    if color.None? {
      var names := ColorNames();
      return Err(InvalidDiceColor(code, names));
    }
    var d := NewDice(Sides(color.value));
    r := Ok(d);
  }
}
