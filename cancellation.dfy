/**
 * `DicePool._cancel_symbols`: a rolled list of symbols reduced to its net
 * result. Success and Failure cancel one for one, so do Advantage and
 * Threat; Triumph and Despair pass through untouched and, unlike in the
 * outcome vector of a side, count for nothing here.
 */
module Cancellation {
  import opened Symbols

  predicate IsCritical(x: Symbol)
  {
    x == Triumph || x == Despair
  }

  /** The Triumph and Despair symbols of `s`, in their order in `s`. */
  function Criticals(s: seq<Symbol>): seq<Symbol>
  {
    if s == [] then [] else (if IsCritical(s[0]) then [s[0]] else []) + Criticals(s[1..])
  }

  /** Successes minus failures. */
  function NetSuccess(s: seq<Symbol>): int
  {
    Count(s, Success) - Count(s, Failure)
  }

  /** Advantages minus threats. */
  function NetAdvantage(s: seq<Symbol>): int
  {
    Count(s, Advantage) - Count(s, Threat)
  }

  function Repeat(x: Symbol, n: nat): seq<Symbol>
  {
    seq(n, _ => x)
  }

  /** `n` copies of `plus`, or `-n` copies of `minus` when `n` is negative. */
  function NetGroup(n: int, plus: Symbol, minus: Symbol): seq<Symbol>
  {
    if n >= 0 then Repeat(plus, n) else Repeat(minus, -n)
  }

  /** The net result of a roll. */
  function Cancelled(s: seq<Symbol>): seq<Symbol>
  {
    Criticals(s) + NetGroup(NetSuccess(s), Success, Failure) + NetGroup(NetAdvantage(s), Advantage, Threat)
  }

  lemma {:induction false} CriticalsConcat(a: seq<Symbol>, b: seq<Symbol>)
    ensures Criticals(a + b) == Criticals(a) + Criticals(b)
  {
    if a == [] {
      assert a + b == b;
    } else {
      var head := if IsCritical(a[0]) then [a[0]] else [];
      calc {
        Criticals(a + b);
      == { assert (a + b)[0] == a[0] && (a + b)[1..] == a[1..] + b; }
        head + Criticals(a[1..] + b);
      == { CriticalsConcat(a[1..], b); }
        head + (Criticals(a[1..]) + Criticals(b));
      ==
        (head + Criticals(a[1..])) + Criticals(b);
      }
    }
  }

  lemma CountConcat(a: seq<Symbol>, b: seq<Symbol>, y: Symbol)
    ensures Count(a + b, y) == Count(a, y) + Count(b, y)
  {
    assert multiset(a + b) == multiset(a) + multiset(b);
  }

  /** What one more symbol does to the running tallies of `_cancel_symbols`. */
  lemma CancelStep(s: seq<Symbol>, x: Symbol)
    ensures NetSuccess(s + [x]) == NetSuccess(s) + (if x == Success then 1 else if x == Failure then -1 else 0)
    ensures NetAdvantage(s + [x]) == NetAdvantage(s) + (if x == Advantage then 1 else if x == Threat then -1 else 0)
    ensures Criticals(s + [x]) == Criticals(s) + (if IsCritical(x) then [x] else [])
  {
    CountSnoc(s, x, Success);
    CountSnoc(s, x, Failure);
    CountSnoc(s, x, Advantage);
    CountSnoc(s, x, Threat);
    CriticalsConcat(s, [x]);
    CriticalsSingle(x);
  }

  lemma CountCons(s: seq<Symbol>, y: Symbol)
    requires s != []
    ensures Count(s, y) == (if s[0] == y then 1 else 0) + Count(s[1..], y)
  {
    assert s == [s[0]] + s[1..];
    CountConcat([s[0]], s[1..], y);
    assert multiset([s[0]]) == multiset{s[0]};
  }

  lemma CountSnoc(s: seq<Symbol>, x: Symbol, y: Symbol)
    ensures Count(s + [x], y) == Count(s, y) + if x == y then 1 else 0
  {
    CountConcat(s, [x], y);
    assert multiset([x]) == multiset{x};
  }

  lemma CriticalsSingle(x: Symbol)
    ensures Criticals([x]) == if IsCritical(x) then [x] else []
  {
    assert [x][1..] == [];
  }

  /** A net group is a run of one symbol, as many as the magnitude of `n`. */
  lemma NetGroupRepeat(n: int, plus: Symbol, minus: Symbol)
    ensures NetGroup(n, plus, minus) == Repeat(if n >= 0 then plus else minus, if n >= 0 then n else n * -1)
  {
  }

  lemma RepeatSnoc(x: Symbol, n: nat)
    ensures Repeat(x, n + 1) == Repeat(x, n) + [x]
  {
  }

  /** Appending one more `x` to `prefix` and a run of `x` lengthens the run. */
  lemma RunSnoc(prefix: seq<Symbol>, x: Symbol, n: nat)
    ensures prefix + Repeat(x, n) + [x] == prefix + Repeat(x, n + 1)
  {
    RepeatSnoc(x, n);
  }

  /** One more symbol of the input, as the counting loop of `_cancel_symbols` sees it. */
  lemma TallyStep(symbols: seq<Symbol>, i: nat)
    requires i < |symbols|
    ensures NetSuccess(symbols[..i + 1]) == NetSuccess(symbols[..i])
      + (if symbols[i] == Success then 1 else if symbols[i] == Failure then -1 else 0)
    ensures NetAdvantage(symbols[..i + 1]) == NetAdvantage(symbols[..i])
      + (if symbols[i] == Advantage then 1 else if symbols[i] == Threat then -1 else 0)
    ensures Criticals(symbols[..i + 1]) == Criticals(symbols[..i]) + (if IsCritical(symbols[i]) then [symbols[i]] else [])
  {
    assert symbols[..i + 1] == symbols[..i] + [symbols[i]];
    CancelStep(symbols[..i], symbols[i]);
  }

  /**
   * The counting loop of `_cancel_symbols`: net successes, net advantages,
   * and the Triumphs and Despairs in input order.
   */
  method Tally(symbols: seq<Symbol>) returns (netSuccess: int, netAdvantage: int, netSymbols: seq<Symbol>)
    ensures netSuccess == NetSuccess(symbols)
    ensures netAdvantage == NetAdvantage(symbols)
    ensures netSymbols == Criticals(symbols)
  {
    netSuccess := 0;
    netAdvantage := 0;
    netSymbols := [];
    var i := 0;
    while i < |symbols|
      invariant 0 <= i <= |symbols|
      invariant netSuccess == NetSuccess(symbols[..i])
      invariant netAdvantage == NetAdvantage(symbols[..i])
      invariant netSymbols == Criticals(symbols[..i])
    {
      var symbol := symbols[i];
      TallyStep(symbols, i);
      if symbol == Success {
        netSuccess := netSuccess + 1;
      } else if symbol == Advantage {
        netAdvantage := netAdvantage + 1;
      } else if symbol == Failure {
        netSuccess := netSuccess - 1;
      } else if symbol == Threat {
        netAdvantage := netAdvantage - 1;
      } else {
        // Triumph and Despair pass through unchanged
        netSymbols := netSymbols + [symbol];
      }
      i := i + 1;
    }
    assert symbols[..i] == symbols;
  }

  /**
   * `_cancel_symbols`: count net successes and net advantages, keep Triumph
   * and Despair in order, then append the net symbols.
   */
  method CancelSymbols(symbols: seq<Symbol>) returns (netSymbols: seq<Symbol>)
    ensures netSymbols == Cancelled(symbols)
  {
    var netSuccess, netAdvantage;
    netSuccess, netAdvantage, netSymbols := Tally(symbols);
    ghost var successGroup := NetGroup(netSuccess, Success, Failure);
    ghost var advantageGroup := NetGroup(netAdvantage, Advantage, Threat);
    NetGroupRepeat(netSuccess, Success, Failure);
    NetGroupRepeat(netAdvantage, Advantage, Threat);

    var successSymbol, advantageSymbol;
    if netSuccess >= 0 {
      successSymbol := Success;
    } else {
      netSuccess := netSuccess * -1;
      successSymbol := Failure;
    }
    if netAdvantage >= 0 {
      advantageSymbol := Advantage;
    } else {
      netAdvantage := netAdvantage * -1;
      advantageSymbol := Threat;
    }

    assert Repeat(successSymbol, netSuccess) == successGroup;
    assert Repeat(advantageSymbol, netAdvantage) == advantageGroup;
    ghost var criticals := netSymbols;
    netSymbols := AppendRun(netSymbols, successSymbol, netSuccess);
    netSymbols := AppendRun(netSymbols, advantageSymbol, netAdvantage);
    CancelledFromRuns(symbols, criticals, Repeat(successSymbol, netSuccess), Repeat(advantageSymbol, netAdvantage));
  }

  lemma CancelledFromRuns(symbols: seq<Symbol>, criticals: seq<Symbol>, successRun: seq<Symbol>, advantageRun: seq<Symbol>)
    requires criticals == Criticals(symbols)
    requires successRun == NetGroup(NetSuccess(symbols), Success, Failure)
    requires advantageRun == NetGroup(NetAdvantage(symbols), Advantage, Threat)
    ensures criticals + successRun + advantageRun == Cancelled(symbols)
  {
  }

  /** `for i in range(0, n): net_symbols.append(x)`, the two closing loops of `_cancel_symbols`. */
  method AppendRun(prefix: seq<Symbol>, x: Symbol, n: nat) returns (r: seq<Symbol>)
    ensures r == prefix + Repeat(x, n)
  {
    r := prefix;
    var k := 0;
    while k < n
      invariant 0 <= k <= n
      invariant r == prefix + Repeat(x, k)
    {
      RunSnoc(prefix, x, k);
      r := r + [x];
      k := k + 1;
    }
  }


  // ---------------------------------------------------------------------
  // What the net result keeps and what it drops
  // ---------------------------------------------------------------------

  lemma {:induction false} CountRepeat(x: Symbol, n: nat, y: Symbol)
    ensures Count(Repeat(x, n), y) == if x == y then n else 0
  {
    if n > 0 {
      RepeatSnoc(x, n - 1);
      CountConcat(Repeat(x, n - 1), [x], y);
      CountRepeat(x, n - 1, y);
    }
  }

  lemma {:induction false} CountNetGroup(n: int, plus: Symbol, minus: Symbol, y: Symbol)
    requires plus != minus
    ensures Count(NetGroup(n, plus, minus), y) ==
            if y == plus && n >= 0 then n else if y == minus && n < 0 then -n else 0
  {
    if n >= 0 {
      CountRepeat(plus, n, y);
    } else {
      CountRepeat(minus, -n, y);
    }
  }

  lemma {:induction false} CriticalsOfRepeat(x: Symbol, n: nat)
    requires !IsCritical(x)
    ensures Criticals(Repeat(x, n)) == []
  {
    if n > 0 {
      RepeatSnoc(x, n - 1);
      CriticalsOfRepeat(x, n - 1);
      CriticalsConcat(Repeat(x, n - 1), [x]);
      assert [x][1..] == [];
    }
  }

  lemma {:induction false} CriticalsOfNetGroup(n: int, plus: Symbol, minus: Symbol)
    requires !IsCritical(plus) && !IsCritical(minus)
    ensures Criticals(NetGroup(n, plus, minus)) == []
  {
    if n >= 0 {
      CriticalsOfRepeat(plus, n);
    } else {
      CriticalsOfRepeat(minus, -n);
    }
  }

  lemma {:induction false} CriticalsIdempotent(s: seq<Symbol>)
    ensures Criticals(Criticals(s)) == Criticals(s)
  {
    if s != [] {
      CriticalsIdempotent(s[1..]);
      var head := if IsCritical(s[0]) then [s[0]] else [];
      CriticalsConcat(head, Criticals(s[1..]));
      assert head != [] ==> head[1..] == [];
    }
  }

  lemma {:induction false} CountCriticals(s: seq<Symbol>, y: Symbol)
    ensures Count(Criticals(s), y) == if IsCritical(y) then Count(s, y) else 0
  {
    if s != [] {
      CountCriticals(s[1..], y);
      var head := if IsCritical(s[0]) then [s[0]] else [];
      CountConcat(head, Criticals(s[1..]), y);
      CountCons(s, y);
      if IsCritical(s[0]) {
        assert multiset(head) == multiset{s[0]};
      }
    }
  }

  lemma CountCancelled(s: seq<Symbol>, y: Symbol)
    ensures Count(Cancelled(s), y) ==
            (if IsCritical(y) then Count(s, y) else 0)
            + (if y == Success && NetSuccess(s) >= 0 then NetSuccess(s)
               else if y == Failure && NetSuccess(s) < 0 then -NetSuccess(s) else 0)
            + (if y == Advantage && NetAdvantage(s) >= 0 then NetAdvantage(s)
               else if y == Threat && NetAdvantage(s) < 0 then -NetAdvantage(s) else 0)
  {
    var c := Criticals(s);
    var u := NetGroup(NetSuccess(s), Success, Failure);
    var v := NetGroup(NetAdvantage(s), Advantage, Threat);
    CountConcat(c + u, v, y);
    CountConcat(c, u, y);
    CountCriticals(s, y);
    CountNetGroup(NetSuccess(s), Success, Failure, y);
    CountNetGroup(NetAdvantage(s), Advantage, Threat, y);
  }

  /** How many of each symbol the net result holds. */
  lemma {:induction false} CancelCounts(s: seq<Symbol>)
    ensures Count(Cancelled(s), Triumph) == Count(s, Triumph)
    ensures Count(Cancelled(s), Despair) == Count(s, Despair)
    ensures Count(Cancelled(s), Success) == if NetSuccess(s) >= 0 then NetSuccess(s) else 0
    ensures Count(Cancelled(s), Failure) == if NetSuccess(s) < 0 then -NetSuccess(s) else 0
    ensures Count(Cancelled(s), Advantage) == if NetAdvantage(s) >= 0 then NetAdvantage(s) else 0
    ensures Count(Cancelled(s), Threat) == if NetAdvantage(s) < 0 then -NetAdvantage(s) else 0
  {
    CountCancelled(s, Triumph);
    CountCancelled(s, Despair);
    CountCancelled(s, Success);
    CountCancelled(s, Failure);
    CountCancelled(s, Advantage);
    CountCancelled(s, Threat);
  }

  /** Cancelling keeps the balance of successes over failures and of advantages over threats. */
  lemma {:induction false} CancelPreservesNet(s: seq<Symbol>)
    ensures NetSuccess(Cancelled(s)) == NetSuccess(s)
    ensures NetAdvantage(Cancelled(s)) == NetAdvantage(s)
  {
    CancelCounts(s);
  }

  /** The net result never holds both sides of an opposing pair. */
  lemma {:induction false} CancelNoOpposing(s: seq<Symbol>)
    ensures !(Success in Cancelled(s) && Failure in Cancelled(s))
    ensures !(Advantage in Cancelled(s) && Threat in Cancelled(s))
  {
    CancelCounts(s);
    var r := Cancelled(s);
    assert Success in r <==> Count(r, Success) > 0;
    assert Failure in r <==> Count(r, Failure) > 0;
    assert Advantage in r <==> Count(r, Advantage) > 0;
    assert Threat in r <==> Count(r, Threat) > 0;
  }

  /** Every Triumph and Despair of the roll survives, in its order. */
  lemma {:induction false} CancelKeepsCriticals(s: seq<Symbol>)
    ensures Criticals(Cancelled(s)) == Criticals(s)
  {
    var c := Criticals(s);
    var u := NetGroup(NetSuccess(s), Success, Failure);
    var v := NetGroup(NetAdvantage(s), Advantage, Threat);
    CriticalsConcat(c + u, v);
    CriticalsConcat(c, u);
    CriticalsIdempotent(s);
    CriticalsOfNetGroup(NetSuccess(s), Success, Failure);
    CriticalsOfNetGroup(NetAdvantage(s), Advantage, Threat);
  }

  /** All the elements of `s` are `x`. */
  predicate AllAre(s: seq<Symbol>, x: Symbol)
  {
    forall i :: 0 <= i < |s| ==> s[i] == x
  }

  lemma {:induction false} AllCritical(c: seq<Symbol>)
    requires forall i :: 0 <= i < |c| ==> IsCritical(c[i])
    ensures Criticals(c) == c
  {
    if c != [] {
      AllCritical(c[1..]);
      assert c == [c[0]] + c[1..];
    }
  }

  lemma {:induction false} UniformGroup(u: seq<Symbol>, plus: Symbol, minus: Symbol)
    requires plus != minus && (AllAre(u, plus) || AllAre(u, minus))
    ensures NetGroup(Count(u, plus) - Count(u, minus), plus, minus) == u
    ensures !IsCritical(plus) && !IsCritical(minus) ==> Criticals(u) == []
  {
    if AllAre(u, plus) {
      PlusRun(u, plus, minus);
    } else {
      MinusRun(u, plus, minus);
    }
  }

  lemma AllAreRepeat(u: seq<Symbol>, x: Symbol)
    requires AllAre(u, x)
    ensures u == Repeat(x, |u|)
  {
  }

  lemma PlusRun(u: seq<Symbol>, plus: Symbol, minus: Symbol)
    requires plus != minus && AllAre(u, plus)
    ensures NetGroup(Count(u, plus) - Count(u, minus), plus, minus) == u
    ensures !IsCritical(plus) ==> Criticals(u) == []
  {
    AllAreRepeat(u, plus);
    CountRepeat(plus, |u|, plus);
    CountRepeat(plus, |u|, minus);
    if !IsCritical(plus) { CriticalsOfRepeat(plus, |u|); }
  }

  lemma MinusRun(u: seq<Symbol>, plus: Symbol, minus: Symbol)
    requires plus != minus && AllAre(u, minus)
    ensures NetGroup(Count(u, plus) - Count(u, minus), plus, minus) == u
    ensures !IsCritical(minus) ==> Criticals(u) == []
  {
    AllAreRepeat(u, minus);
    CountRepeat(minus, |u|, plus);
    CountRepeat(minus, |u|, minus);
    if !IsCritical(minus) { CriticalsOfRepeat(minus, |u|); }
  }

  /**
   * A list already in net form is left as it is: criticals first, then
   * only successes or only failures, then only advantages or only threats.
   */
  lemma {:induction false} CancelFixesNetForm(c: seq<Symbol>, u: seq<Symbol>, v: seq<Symbol>)
    requires forall i :: 0 <= i < |c| ==> IsCritical(c[i])
    requires AllAre(u, Success) || AllAre(u, Failure)
    requires AllAre(v, Advantage) || AllAre(v, Threat)
    ensures Cancelled(c + u + v) == c + u + v
  {
    assert Criticals(c) == c by {
      AllCritical(c);
    }
    assert Criticals(u) == [] && Count(u, Advantage) == 0 && Count(u, Threat) == 0
      && NetGroup(Count(u, Success) - Count(u, Failure), Success, Failure) == u by {
      UniformFacts(u, Success, Failure, Advantage, Threat);
    }
    assert Criticals(v) == [] && Count(v, Success) == 0 && Count(v, Failure) == 0
      && NetGroup(Count(v, Advantage) - Count(v, Threat), Advantage, Threat) == v by {
      UniformFacts(v, Advantage, Threat, Success, Failure);
    }
    NetFormFixed(c, u, v);
  }

  /** What a group of only `plus` or only `minus` symbols contributes to the net form. */
  lemma UniformFacts(u: seq<Symbol>, plus: Symbol, minus: Symbol, other1: Symbol, other2: Symbol)
    requires plus != minus && !IsCritical(plus) && !IsCritical(minus)
    requires other1 != plus && other1 != minus && other2 != plus && other2 != minus
    requires AllAre(u, plus) || AllAre(u, minus)
    ensures NetGroup(Count(u, plus) - Count(u, minus), plus, minus) == u
    ensures Criticals(u) == [] && Count(u, other1) == 0 && Count(u, other2) == 0
  {
    UniformGroup(u, plus, minus);
    CountUniform(u, plus, minus, other1);
    CountUniform(u, plus, minus, other2);
  }

  lemma NetFormFixed(c: seq<Symbol>, u: seq<Symbol>, v: seq<Symbol>)
    requires Criticals(c) == c && Criticals(u) == [] && Criticals(v) == []
    requires Count(u, Advantage) == 0 && Count(u, Threat) == 0
    requires Count(v, Success) == 0 && Count(v, Failure) == 0
    requires NetGroup(Count(u, Success) - Count(u, Failure), Success, Failure) == u
    requires NetGroup(Count(v, Advantage) - Count(v, Threat), Advantage, Threat) == v
    ensures Cancelled(c + u + v) == c + u + v
  {
    var w := c + u + v;
    NetFormParts(c, u, v);
    CancelledFromRuns(w, c, u, v);
  }

  lemma NetFormParts(c: seq<Symbol>, u: seq<Symbol>, v: seq<Symbol>)
    requires Criticals(c) == c && Criticals(u) == [] && Criticals(v) == []
    requires Count(u, Advantage) == 0 && Count(u, Threat) == 0
    requires Count(v, Success) == 0 && Count(v, Failure) == 0
    ensures Criticals(c + u + v) == c
    ensures NetSuccess(c + u + v) == Count(u, Success) - Count(u, Failure)
    ensures NetAdvantage(c + u + v) == Count(v, Advantage) - Count(v, Threat)
  {
    CriticalsConcat(c + u, v);
    CriticalsConcat(c, u);
    CountPastCriticals(c, u, v, Success);
    CountPastCriticals(c, u, v, Failure);
    CountPastCriticals(c, u, v, Advantage);
    CountPastCriticals(c, u, v, Threat);
  }

  lemma CountUniform(u: seq<Symbol>, plus: Symbol, minus: Symbol, y: Symbol)
    requires AllAre(u, plus) || AllAre(u, minus)
    requires y != plus && y != minus
    ensures Count(u, y) == 0
  {
    if AllAre(u, plus) {
      assert u == Repeat(plus, |u|);
      CountRepeat(plus, |u|, y);
    } else {
      assert u == Repeat(minus, |u|);
      CountRepeat(minus, |u|, y);
    }
  }

  lemma CountPastCriticals(c: seq<Symbol>, u: seq<Symbol>, v: seq<Symbol>, y: Symbol)
    requires Criticals(c) == c && !IsCritical(y)
    ensures Count(c + u + v, y) == Count(u, y) + Count(v, y)
  {
    CountCriticals(c, y);
    CountConcat(c + u, v, y);
    CountConcat(c, u, y);
  }

  /** Cancelling twice is cancelling once. */
  lemma {:induction false} CancelIdempotent(s: seq<Symbol>)
    ensures Cancelled(Cancelled(s)) == Cancelled(s)
  {
    var c := Criticals(s);
    var u := NetGroup(NetSuccess(s), Success, Failure);
    var v := NetGroup(NetAdvantage(s), Advantage, Threat);
    forall i | 0 <= i < |c| ensures IsCritical(c[i]) {
      CriticalsAreCritical(s, i);
    }
    NetGroupUniform(NetSuccess(s), Success, Failure);
    NetGroupUniform(NetAdvantage(s), Advantage, Threat);
    CancelFixesNetForm(c, u, v);
  }

  lemma NetGroupUniform(n: int, plus: Symbol, minus: Symbol)
    ensures AllAre(NetGroup(n, plus, minus), plus) || AllAre(NetGroup(n, plus, minus), minus)
  {
    if n >= 0 {
      assert AllAre(Repeat(plus, n), plus);
    } else {
      assert AllAre(Repeat(minus, -n), minus);
    }
  }

  lemma {:induction false} CriticalsAreCritical(s: seq<Symbol>, i: nat)
    requires i < |Criticals(s)|
    ensures IsCritical(Criticals(s)[i])
  {
    var head := if IsCritical(s[0]) then [s[0]] else [];
    if i < |head| {
    } else {
      CriticalsAreCritical(s[1..], i - |head|);
    }
  }

  /** One success against two failures leaves one failure; the advantage stays. */
  lemma {:induction false} CancelExample()
    ensures Cancelled([Success, Failure, Failure, Advantage]) == [Failure, Advantage]
  {
    var s := [Success, Failure, Failure, Advantage];
    assert NetSuccess(s) == -1 && NetAdvantage(s) == 1;
    assert Criticals(s) == [] by {
      assert s[1..][1..][1..][1..] == [];
    }
    assert Repeat(Failure, 1) == [Failure] && Repeat(Advantage, 1) == [Advantage];
  }
}
