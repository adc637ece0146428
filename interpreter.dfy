/** The `interpreter` loop (index.js:65-84): start in NORMAL mode with an empty
    stack and output at the top-left cell heading right; each iteration executes
    the cell under the pointer (pushing it instead when in STRING mode and it is
    not a quote) and then moves once; stop when the mode is ENDED and return the
    joined output. A run need not end, so it is given fuel: at most that many
    iterations. */
module Interpreter {
  import opened Wrappers
  import opened Text
  import opened Directions
  import opened Stacks
  import opened Programs
  import opened Instructions

  /** How a bounded run ends: halted with its output, thrown, or still running
      when the fuel ran out. */
  datatype Outcome = Halted(output: seq<Unit>) | Failed(fault: Fault) | Running

  /** The state `interpreter` builds before its loop. */
  function Initial(code: seq<Unit>): (c: Config)
    ensures c.Valid() && JoinLines(c.rows) == code
  {
    SplitJoin(code);
    Config(Normal, [], Split(code), 0, 0, Right, [])
  }

  /** One iteration of the loop body: read the cell under the pointer (a cell outside
      its row reads `undefined`, and both branches then throw), push it in STRING mode
      unless it is a quote, otherwise dispatch it; then move once. */
  function Cycle(c: Config, draw: Draw): (r: Result<Config, Fault>)
    requires c.Valid()
    ensures r.Ok? ==> r.value.Valid() && |r.value.rows| == |c.rows|
    ensures CellAt(c.rows, c.x, c.y).None? ==> r == Err(UndefinedCell(c.x, c.y))
  {
    match CellAt(c.rows, c.x, c.y)
    case None => Err(UndefinedCell(c.x, c.y))
    case Some(u) =>
      var executed := if c.mode == String && u != Quote then Ok(c.(stack := c.stack + [u])) else Execute(c, u, draw);
      match executed
      case Err(e) => Err(e)
      case Ok(next) =>
        var (x, y) := Advance(next.rows, next.x, next.y, next.direction);
        Ok(next.(x := x, y := y))
  }

  /** The loop from configuration c with `fuel` iterations left; `oracle(k)` is the
      value of `Math.random` in iteration k. */
  function Run(c: Config, fuel: nat, oracle: nat -> Draw, k: nat): Outcome
    requires c.Valid()
    decreases fuel, 0
  {
    if c.mode == Ended then Halted(Join(c.output))
    else if fuel == 0 then Running
    else Resume(Cycle(c, oracle(k)), fuel - 1, oracle, k + 1)
  }

  /** The loop after an iteration: stop on a throw, otherwise go on from the new state. */
  function Resume(step: Result<Config, Fault>, fuel: nat, oracle: nat -> Draw, k: nat): Outcome
    requires step.Ok? ==> step.value.Valid()
    decreases fuel, 1
  {
    match step
    case Err(e) => Failed(e)
    case Ok(next) => Run(next, fuel, oracle, k)
  }

  /** One iteration of a run that has not ended and has fuel left. */
  lemma RunUnfolds(c: Config, fuel: nat, oracle: nat -> Draw, k: nat)
    requires c.Valid() && c.mode != Ended && fuel > 0
    ensures Cycle(c, oracle(k)).Err? ==> Run(c, fuel, oracle, k) == Failed(Cycle(c, oracle(k)).error)
    ensures Cycle(c, oracle(k)).Ok? ==> Run(c, fuel, oracle, k) == Run(Cycle(c, oracle(k)).value, fuel - 1, oracle, k + 1)
  {
  }

  /** `interpreter(code)` allowed at most `fuel` iterations. */
  function Interpret(code: seq<Unit>, fuel: nat, oracle: nat -> Draw): Outcome
  {
    Run(Initial(code), fuel, oracle, 0)
  }

  /** In STRING mode every cell but the quote is pushed as its code and then the
      pointer moves; nothing is dispatched, so an `@` inside a string does not halt. */
  lemma StringModePushesCell(c: Config, u: Unit, draw: Draw)
    requires c.Valid() && c.mode == String
    requires CellAt(c.rows, c.x, c.y) == Some(u) && u != Quote
    ensures var (x, y) := Advance(c.rows, c.x, c.y, c.direction);
      Cycle(c, draw) == Ok(c.(stack := c.stack + [u], x := x, y := y))
    ensures Cycle(c, draw).value.mode == String
  {
  }

  /** The quote toggles between NORMAL and STRING and is itself never pushed. */
  lemma QuoteToggles(c: Config, draw: Draw)
    requires c.Valid() && c.mode != Ended
    requires CellAt(c.rows, c.x, c.y) == Some(Quote)
    ensures var r := Cycle(c, draw);
      r.Ok? && r.value.stack == c.stack && r.value.output == c.output &&
      r.value.mode == (if c.mode == Normal then String else Normal)
  {
    assert Lookup(Quote) == Some(ToggleString);
  }

  /** Every iteration moves the pointer exactly once after executing the cell, by the
      heading the cell left behind ... */
  lemma CycleMovesOnce(c: Config, draw: Draw)
    requires c.Valid() && c.mode != Ended
    requires CellAt(c.rows, c.x, c.y) != Some('#' as int) || c.mode == String
    requires Cycle(c, draw).Ok?
    ensures var r := Cycle(c, draw).value;
      (r.x, r.y) == Advance(r.rows, c.x, c.y, r.direction)
  {
    var u := CellAt(c.rows, c.x, c.y).value;
    if c.mode == Normal || u == Quote {
      var i := Lookup(u).value;
      assert i != Bridge by {
        GlyphLookup(u);
      }
    }
  }

  /** ... except `#`, whose handler moves once more, so the next cell is skipped. */
  lemma BridgeSkipsNextCell(c: Config, draw: Draw)
    requires c.Valid() && c.mode == Normal
    requires CellAt(c.rows, c.x, c.y) == Some('#' as int)
    ensures var (x1, y1) := Advance(c.rows, c.x, c.y, c.direction);
      var (x2, y2) := Advance(c.rows, x1, y1, c.direction);
      Cycle(c, draw) == Ok(c.(x := x2, y := y2))
  {
    assert Lookup('#' as int) == Some(Bridge);
  }

  /** Once the mode is ENDED the loop is over: the result is the joined output,
      whatever fuel is left. */
  lemma EndedRunReturnsOutput(c: Config, fuel: nat, oracle: nat -> Draw, k: nat)
    requires c.Valid() && c.mode == Ended
    ensures Run(c, fuel, oracle, k) == Halted(Join(c.output))
  {
  }

  /** `@` in NORMAL mode halts: the run returns the output as it stands, and no
      further cell is executed. */
  lemma AtHalts(c: Config, fuel: nat, oracle: nat -> Draw, k: nat)
    requires c.Valid() && c.mode == Normal
    requires CellAt(c.rows, c.x, c.y) == Some('@' as int)
    ensures Run(c, fuel + 1, oracle, k) == Halted(Join(c.output))
  {
    assert Lookup('@' as int) == Some(End);
    RunUnfolds(c, fuel + 1, oracle, k);
  }

  /** A NORMAL-mode cell without a table entry makes the run throw. */
  lemma UnknownCellFails(c: Config, u: Unit, fuel: nat, oracle: nat -> Draw, k: nat)
    requires c.Valid() && c.mode == Normal
    requires CellAt(c.rows, c.x, c.y) == Some(u) && Lookup(u).None?
    ensures Run(c, fuel + 1, oracle, k) == Failed(UnknownInstruction(u))
  {
    RunUnfolds(c, fuel + 1, oracle, k);
  }

  /** An iteration only ever appends to the output, at most one entry at a time. */
  lemma CycleOnlyAppendsOutput(c: Config, draw: Draw)
    requires c.Valid() && Cycle(c, draw).Ok?
    ensures var r := Cycle(c, draw).value;
      c.output <= r.output && |r.output| <= |c.output| + 1
  {
    var u := CellAt(c.rows, c.x, c.y).value;
    if c.mode != String || u == Quote {
      PerformOnlyAppendsOutput(c, Lookup(u).value, draw);
    }
  }

  /** More fuel does not change a run that already ended or failed: a bounded run
      that finishes gives the result of the unbounded loop. */
  lemma {:induction false} RunFuelMonotone(c: Config, fuel: nat, more: nat, oracle: nat -> Draw, k: nat)
    requires c.Valid() && Run(c, fuel, oracle, k) != Running
    ensures Run(c, fuel + more, oracle, k) == Run(c, fuel, oracle, k)
    decreases fuel, 0
  {
    if c.mode != Ended {
      var step := Cycle(c, oracle(k));
      assert Run(c, fuel, oracle, k) == Resume(step, fuel - 1, oracle, k + 1);
      assert Run(c, fuel + more, oracle, k) == Resume(step, fuel - 1 + more, oracle, k + 1);
      ResumeFuelMonotone(step, fuel - 1, more, oracle, k + 1);
    }
  }

  /** The same after an iteration, by induction together with `RunFuelMonotone`. */
  lemma {:induction false} ResumeFuelMonotone(step: Result<Config, Fault>, fuel: nat, more: nat, oracle: nat -> Draw, k: nat)
    requires step.Ok? ==> step.value.Valid()
    requires Resume(step, fuel, oracle, k) != Running
    ensures Resume(step, fuel + more, oracle, k) == Resume(step, fuel, oracle, k)
    decreases fuel, 1
  {
    if step.Ok? {
      RunFuelMonotone(step.value, fuel, more, oracle, k);
    }
  }

  /** The body of the `while` loop on the shared state: execute the cell under
      the pointer, then move once. Its effect is the one `Cycle` describes. */
  method Step(state: State, draw: Draw) returns (fault: Option<Fault>)
    requires state.Valid()
    modifies state, state.program, state.stack
    ensures state.Valid()
    ensures fault.None? ==> Cycle(old(state.Snapshot()), draw) == Ok(state.Snapshot())
    ensures fault.Some? ==> Cycle(old(state.Snapshot()), draw) == Err(fault.value)
  {
    ghost var before := state.Snapshot();
    var cell := state.program.Instruction();
    if cell.None? {
      return Some(UndefinedCell(state.program.x, state.program.y));
    }
    ghost var executed: Result<Config, Fault>;
    if state.mode == String && cell.value != Quote {
      state.stack.Push(cell.value);
      executed := Ok(before.(stack := before.stack + [cell.value]));
    } else {
      fault := state.Dispatch(cell.value, draw);
      executed := Execute(before, cell.value, draw);
      if fault.Some? {
        return;
      }
    }
    assert executed == Ok(state.Snapshot());
    state.program.Move();
    fault := None;
  }

  /** `interpreter`: the loop, over the mutable stack, program and state, run for at
      most `fuel` iterations. */
  method Interpreter(code: seq<Unit>, fuel: nat, oracle: nat -> Draw) returns (r: Outcome)
    ensures r == Interpret(code, fuel, oracle)
  {
    var program := Program.FromString(code);
    var stack := new Stack();
    var state := new State(program, stack);
    ghost var goal := Interpret(code, fuel, oracle);
    ghost var start := state.Snapshot();
    assert start == Initial(code);
    var k := 0;
    while state.mode != Ended && k < fuel
      invariant 0 <= k <= fuel
      invariant fresh(state.program) && fresh(state.stack)
      invariant state.Valid()
      invariant Run(state.Snapshot(), fuel - k, oracle, k) == goal
      decreases fuel - k
    {
      ghost var before := state.Snapshot();
      var fault := Step(state, oracle(k));
      RunUnfolds(before, fuel - k, oracle, k);
      if fault.Some? {
        return Failed(fault.value);
      }
      k := k + 1;
    }
    if state.mode == Ended {
      r := Halted(Join(state.output));
    } else {
      r := Running;
    }
  }
}
