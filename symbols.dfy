/**
 * `Symbol` and `Side` of dice.py, and the reduction of a side's symbols to
 * the outcome vector its die's distribution is keyed by.
 */
module Symbols {
  import opened Distribution

  /** The six symbols a die face can show. */
  datatype Symbol = Triumph | Success | Advantage | Despair | Failure | Threat

  /** One side of a die: its symbols, duplicates allowed. */
  datatype Side = Side(symbols: seq<Symbol>)

  /** How many times `x` occurs in `s`. */
  function Count(s: seq<Symbol>, x: Symbol): nat
  {
    multiset(s)[x]
  }

  /** `Side.count_symbol`: the number of occurrences of `symbol` on the side. */
  method CountSymbol(side: Side, symbol: Symbol) returns (n: nat)
    ensures n == Count(side.symbols, symbol)
  {
    var symbols := side.symbols;
    n := 0;
    var i := 0;
    while i < |symbols|
      invariant 0 <= i <= |symbols|
      invariant n == multiset(symbols[..i])[symbol]
    {
      assert symbols[..i + 1] == symbols[..i] + [symbols[i]];
      if symbols[i] == symbol {
        n := n + 1;
      }
      i := i + 1;
    }
    assert symbols[..i] == symbols;
  }

  /** A side showing two Triumphs and a Despair. */
  lemma {:induction false} CountSymbolExample()
    ensures Count([Triumph, Triumph, Despair], Triumph) == 2
    ensures Count([Triumph, Triumph, Despair], Despair) == 1
    ensures Count([Triumph, Triumph, Despair], Success) == 0
  {
  }

  /**
   * The outcome vector of a side, as `Dice.__init__` computes it: a Triumph
   * also counts as one success and a Despair as one failure.
   */
  function OutcomeVector(s: seq<Symbol>): (q: Quad)
    ensures q.triumph >= 0 && q.despair >= 0
  {
    Quad(Count(s, Triumph),
         Count(s, Success) + Count(s, Triumph) + (-1 * Count(s, Failure)) + (-1 * Count(s, Despair)),
         Count(s, Advantage) + (-1 * Count(s, Threat)),
         Count(s, Despair))
  }

  /** What a single symbol adds to the outcome vector. */
  function SymbolVector(x: Symbol): Quad
  {
    match x
    case Triumph => Quad(1, 1, 0, 0)
    case Success => Quad(0, 1, 0, 0)
    case Advantage => Quad(0, 0, 1, 0)
    case Despair => Quad(0, -1, 0, 1)
    case Failure => Quad(0, -1, 0, 0)
    case Threat => Quad(0, 0, -1, 0)
  }

  /** The sum of the symbols' own vectors. */
  function SymbolSum(s: seq<Symbol>): Quad
  {
    if s == [] then Zero else Plus(SymbolVector(s[0]), SymbolSum(s[1..]))
  }

  /** The count formula is the sum of what every symbol contributes on its own. */
  lemma {:induction false} OutcomeVectorIsSymbolSum(s: seq<Symbol>)
    ensures OutcomeVector(s) == SymbolSum(s)
  {
    if s != [] {
      assert s == [s[0]] + s[1..];
      OutcomeVectorConcat([s[0]], s[1..]);
      OutcomeVectorSingle(s[0]);
      OutcomeVectorIsSymbolSum(s[1..]);
    }
  }

  lemma OutcomeVectorSingle(x: Symbol)
    ensures OutcomeVector([x]) == SymbolVector(x)
  {
    assert multiset([x]) == multiset{x};
  }

  /** The outcome vector of symbols shown together is the sum of the parts' vectors. */
  lemma {:induction false} OutcomeVectorConcat(a: seq<Symbol>, b: seq<Symbol>)
    ensures OutcomeVector(a + b) == Plus(OutcomeVector(a), OutcomeVector(b))
  {
    assert multiset(a + b) == multiset(a) + multiset(b);
  }

  /** A side with two symbols adds up what each of them contributes. */
  lemma {:induction false} OutcomeVectorPair(x: Symbol, y: Symbol)
    ensures OutcomeVector([x, y]) == Plus(SymbolVector(x), SymbolVector(y))
  {
    assert [x, y] == [x] + [y];
    OutcomeVectorConcat([x], [y]);
    OutcomeVectorSingle(x);
    OutcomeVectorSingle(y);
  }

  lemma {:induction false} OutcomeVectorEmpty()
    ensures OutcomeVector([]) == Zero
  {
  }
}
