/** Concrete runs from the examples that accompany the interpreter, each proved
    for every amount of fuel that suffices and every outcome of `Math.random`. */
module Scenarios {
  import opened Wrappers
  import opened Text
  import opened Directions
  import opened Stacks
  import opened Programs
  import opened Instructions
  import opened Interpreter

  /** One iteration that takes c to next, whatever fuel is left. */
  lemma Steps(c: Config, next: Config, fuel: nat, oracle: nat -> Draw, k: nat)
    requires c.Valid() && c.mode != Ended && fuel > 0
    requires Cycle(c, oracle(k)) == Ok(next)
    ensures Run(c, fuel, oracle, k) == Run(next, fuel - 1, oracle, k + 1)
  {
    RunUnfolds(c, fuel, oracle, k);
  }

  /** A one-line program is one row, and the run starts at its first cell. */
  lemma StartsOnOneRow(code: seq<Unit>)
    requires forall j :: 0 <= j < |code| ==> code[j] != Newline
    ensures Initial(code) == Config(Normal, [], [code], 0, 0, Right, [])
  {
    JoinSplit([code]);
  }

  // ".@" prints "0": `.` on the empty stack pops 0.

  const DotAt: seq<Unit> := ['.' as int, '@' as int]

  lemma DotAtPrints(draw: Draw)
    ensures Cycle(Config(Normal, [], [DotAt], 0, 0, Right, []), draw)
         == Ok(Config(Normal, [Number(0)], [DotAt], 1, 0, Right, []))
  {
    var c := Config(Normal, [], [DotAt], 0, 0, Right, []);
    assert Lookup('.' as int) == Some(OutputNumber);
    assert Top([]) == 0 && Drop([]) == [] && [] + [Number(0)] == [Number(0)];
    assert Execute(c, '.' as int, draw) == Ok(c.(output := [Number(0)]));
  }

  lemma DotAtHalts(draw: Draw)
    ensures Cycle(Config(Normal, [Number(0)], [DotAt], 1, 0, Right, []), draw)
         == Ok(Config(Ended, [Number(0)], [DotAt], 0, 0, Right, []))
  {
    assert Lookup('@' as int) == Some(End);
  }

  /** `.@` gives "0": an empty stack reads as 0. */
  lemma PrintsZeroFromEmptyStack(fuel: nat, oracle: nat -> Draw)
    requires fuel >= 2
    ensures Interpret(DotAt, fuel, oracle) == Halted(['0' as int])
  {
    StartsOnOneRow(DotAt);
    var c0 := Config(Normal, [], [DotAt], 0, 0, Right, []);
    var c1 := Config(Normal, [Number(0)], [DotAt], 1, 0, Right, []);
    var c2 := Config(Ended, [Number(0)], [DotAt], 0, 0, Right, []);
    DotAtPrints(oracle(0));
    Steps(c0, c1, fuel, oracle, 0);
    DotAtHalts(oracle(1));
    Steps(c1, c2, fuel - 1, oracle, 1);
    assert Join([Number(0)]) == ['0' as int];
  }

  // ":..@" prints "00": `:` on the empty stack pushes the 0 that `peek` reads.

  const DupDotDotAt: seq<Unit> := [':' as int, '.' as int, '.' as int, '@' as int]

  lemma DupDotDotAtDuplicates(draw: Draw)
    ensures Cycle(Config(Normal, [], [DupDotDotAt], 0, 0, Right, []), draw)
         == Ok(Config(Normal, [], [DupDotDotAt], 1, 0, Right, [0]))
  {
    assert Lookup(':' as int) == Some(Duplicate);
    assert Top([]) == 0 && [] + [0] == [0];
  }

  lemma DupDotDotAtPrintsFirst(draw: Draw)
    ensures Cycle(Config(Normal, [], [DupDotDotAt], 1, 0, Right, [0]), draw)
         == Ok(Config(Normal, [Number(0)], [DupDotDotAt], 2, 0, Right, []))
  {
    var c := Config(Normal, [], [DupDotDotAt], 1, 0, Right, [0]);
    assert Lookup('.' as int) == Some(OutputNumber);
    assert Top([0]) == 0 && Drop([0]) == [] && [] + [Number(0)] == [Number(0)];
    assert Execute(c, '.' as int, draw) == Ok(c.(output := [Number(0)], stack := []));
  }

  lemma DupDotDotAtPrintsSecond(draw: Draw)
    ensures Cycle(Config(Normal, [Number(0)], [DupDotDotAt], 2, 0, Right, []), draw)
         == Ok(Config(Normal, [Number(0), Number(0)], [DupDotDotAt], 3, 0, Right, []))
  {
    var c := Config(Normal, [Number(0)], [DupDotDotAt], 2, 0, Right, []);
    assert Lookup('.' as int) == Some(OutputNumber);
    assert Top([]) == 0 && Drop([]) == [] && [Number(0)] + [Number(0)] == [Number(0), Number(0)];
    assert Execute(c, '.' as int, draw) == Ok(c.(output := [Number(0), Number(0)]));
  }

  lemma DupDotDotAtHalts(draw: Draw)
    ensures Cycle(Config(Normal, [Number(0), Number(0)], [DupDotDotAt], 3, 0, Right, []), draw)
         == Ok(Config(Ended, [Number(0), Number(0)], [DupDotDotAt], 0, 0, Right, []))
  {
    assert Lookup('@' as int) == Some(End);
  }

  /** `:..@` gives "00": duplicating on an empty stack pushes 0. */
  lemma DuplicatesZeroOnEmptyStack(fuel: nat, oracle: nat -> Draw)
    requires fuel >= 4
    ensures Interpret(DupDotDotAt, fuel, oracle) == Halted(['0' as int, '0' as int])
  {
    StartsOnOneRow(DupDotDotAt);
    var c0 := Config(Normal, [], [DupDotDotAt], 0, 0, Right, []);
    var c1 := Config(Normal, [], [DupDotDotAt], 1, 0, Right, [0]);
    var c2 := Config(Normal, [Number(0)], [DupDotDotAt], 2, 0, Right, []);
    var c3 := Config(Normal, [Number(0), Number(0)], [DupDotDotAt], 3, 0, Right, []);
    var c4 := Config(Ended, [Number(0), Number(0)], [DupDotDotAt], 0, 0, Right, []);
    DupDotDotAtDuplicates(oracle(0));
    Steps(c0, c1, fuel, oracle, 0);
    DupDotDotAtPrintsFirst(oracle(1));
    Steps(c1, c2, fuel - 1, oracle, 1);
    DupDotDotAtPrintsSecond(oracle(2));
    Steps(c2, c3, fuel - 2, oracle, 2);
    DupDotDotAtHalts(oracle(3));
    Steps(c3, c4, fuel - 3, oracle, 3);
    JoinPush([Number(0)], Number(0));
    assert Join([Number(0)]) == ['0' as int];
  }

  // "\"@\".@" prints "64": the `@` between the quotes is pushed, not executed.

  const QuotedAt: seq<Unit> := [Quote, '@' as int, Quote, '.' as int, '@' as int]

  lemma QuotedAtOpens(draw: Draw)
    ensures Cycle(Config(Normal, [], [QuotedAt], 0, 0, Right, []), draw)
         == Ok(Config(String, [], [QuotedAt], 1, 0, Right, []))
  {
    assert Lookup(Quote) == Some(ToggleString);
  }

  lemma QuotedAtPushes(draw: Draw)
    ensures Cycle(Config(String, [], [QuotedAt], 1, 0, Right, []), draw)
         == Ok(Config(String, [], [QuotedAt], 2, 0, Right, ['@' as int]))
  {
    assert CellAt([QuotedAt], 1, 0) == Some('@' as int);
    assert [] + ['@' as int] == ['@' as int];
  }

  lemma QuotedAtCloses(draw: Draw)
    ensures Cycle(Config(String, [], [QuotedAt], 2, 0, Right, ['@' as int]), draw)
         == Ok(Config(Normal, [], [QuotedAt], 3, 0, Right, ['@' as int]))
  {
    assert Lookup(Quote) == Some(ToggleString);
  }

  lemma QuotedAtPrints(draw: Draw)
    ensures Cycle(Config(Normal, [], [QuotedAt], 3, 0, Right, ['@' as int]), draw)
         == Ok(Config(Normal, [Number(64)], [QuotedAt], 4, 0, Right, []))
  {
    var c := Config(Normal, [], [QuotedAt], 3, 0, Right, ['@' as int]);
    assert CellAt([QuotedAt], 3, 0) == Some('.' as int);
    assert Lookup('.' as int) == Some(OutputNumber);
    assert Top(['@' as int]) == 64 && Drop(['@' as int]) == [];
    assert [] + [Number(64)] == [Number(64)];
    assert Execute(c, '.' as int, draw) == Ok(c.(output := [Number(64)], stack := []));
  }

  lemma QuotedAtHalts(draw: Draw)
    ensures Cycle(Config(Normal, [Number(64)], [QuotedAt], 4, 0, Right, []), draw)
         == Ok(Config(Ended, [Number(64)], [QuotedAt], 0, 0, Right, []))
  {
    assert Lookup('@' as int) == Some(End);
  }

  /** `"@".@` gives "64": inside a string `@` is pushed as its code and does not halt. */
  lemma StringHidesAt(fuel: nat, oracle: nat -> Draw)
    requires fuel >= 5
    ensures Interpret(QuotedAt, fuel, oracle) == Halted(['6' as int, '4' as int])
  {
    StartsOnOneRow(QuotedAt);
    var c0 := Config(Normal, [], [QuotedAt], 0, 0, Right, []);
    var c1 := Config(String, [], [QuotedAt], 1, 0, Right, []);
    var c2 := Config(String, [], [QuotedAt], 2, 0, Right, ['@' as int]);
    var c3 := Config(Normal, [], [QuotedAt], 3, 0, Right, ['@' as int]);
    var c4 := Config(Normal, [Number(64)], [QuotedAt], 4, 0, Right, []);
    var c5 := Config(Ended, [Number(64)], [QuotedAt], 0, 0, Right, []);
    QuotedAtOpens(oracle(0));
    Steps(c0, c1, fuel, oracle, 0);
    QuotedAtPushes(oracle(1));
    Steps(c1, c2, fuel - 1, oracle, 1);
    QuotedAtCloses(oracle(2));
    Steps(c2, c3, fuel - 2, oracle, 2);
    QuotedAtPrints(oracle(3));
    Steps(c3, c4, fuel - 3, oracle, 3);
    QuotedAtHalts(oracle(4));
    Steps(c4, c5, fuel - 4, oracle, 4);
    JoinsSixtyFour();
  }

  /** The number 64 is rendered as the two digits 6 and 4. */
  lemma JoinsSixtyFour()
    ensures Join([Number(64)]) == ['6' as int, '4' as int]
  {
    assert NatDigits(64) == NatDigits(6) + [Zero + 4];
    assert Join([Number(64)]) == Join([]) + Decimal(64);
  }

  /** A character without a table entry, here `x`, makes the run throw rather
      than being skipped. */
  lemma UnknownCharacterThrows(fuel: nat, oracle: nat -> Draw)
    requires fuel >= 1
    ensures Interpret(['x' as int, '@' as int], fuel, oracle) == Failed(UnknownInstruction('x' as int))
  {
    var code: seq<Unit> := ['x' as int, '@' as int];
    StartsOnOneRow(code);
    UnknownCellFails(Config(Normal, [], [code], 0, 0, Right, []), 'x' as int, fuel - 1, oracle, 0);
  }
}
