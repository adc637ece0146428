/** The instruction table (index.js:11-63, 157-167): what each character does to
    the interpreter's state, first as a function on a snapshot of that state and
    then as methods on the mutable state the handlers share. */
module Instructions {
  import opened Wrappers
  import opened Text
  import opened Directions
  import opened Stacks
  import opened Programs

  /** `Mode`: one field holds both the string-mode flag and the halted flag. */
  datatype Mode = Normal | String | Ended

  /** The arithmetic and comparison lambdas given to `binaryOperation`. */
  datatype BinOp = Add | Multiply | Subtract | Divide | Modulo | Greater

  type Digit = d: int | 0 <= d <= 9

  /** The handlers of the table, one per key. */
  datatype Instruction =
    | Nop                   // " "
    | End                   // "@"
    | Bridge                // "#"
    | PushInt(value: Digit) // "0" .. "9"
    | Go(heading: Direction)// "v" "<" ">" "^"
    | GoRandom              // "?"
    | HorizontalIf          // "_"
    | VerticalIf            // "|"
    | Discard               // "$"
    | Not                   // "!"
    | Duplicate             // ":"
    | Swap                  // "\"
    | Binary(op: BinOp)     // "+" "*" "-" "/" "%" "`"
    | OutputNumber          // "."
    | OutputChar            // ","
    | ToggleString          // the double quote
    | Get                   // "g"
    | Put                   // "p"

  /** The ways a step can throw. */
  datatype Fault =
    | UnknownInstruction(unit: Unit)  // no table entry: `instructions[c]` is undefined
    | UndefinedCell(x: int, y: int)   // the pointer is outside its row
    | DivisionByZero                  // `/` or `%` with a zero divisor
    | GetOutside(x: int, y: int)      // `g` reads outside the grid
    | PutOutside(x: int, y: int)      // `p` writes outside the grid

  const Quote: Unit := '"' as int

  /** `instructions[u]`: the handler stored under the key u, if any. */
  function Lookup(u: Unit): Option<Instruction>
  {
    if u == ' ' as int then Some(Nop)
    else if u == '@' as int then Some(End)
    else if u == '#' as int then Some(Bridge)
    else if Zero <= u <= Zero + 9 then Some(PushInt(u - Zero))
    else if u == 'v' as int then Some(Go(Down))
    else if u == '<' as int then Some(Go(Left))
    else if u == '>' as int then Some(Go(Right))
    else if u == '^' as int then Some(Go(Up))
    else if u == '?' as int then Some(GoRandom)
    else if u == '_' as int then Some(HorizontalIf)
    else if u == '|' as int then Some(VerticalIf)
    else if u == '$' as int then Some(Discard)
    else if u == '!' as int then Some(Not)
    else if u == ':' as int then Some(Duplicate)
    else if u == '\\' as int then Some(Swap)
    else if u == '+' as int then Some(Binary(Add))
    else if u == '*' as int then Some(Binary(Multiply))
    else if u == '-' as int then Some(Binary(Subtract))
    else if u == '/' as int then Some(Binary(Divide))
    else if u == '%' as int then Some(Binary(Modulo))
    else if u == '`' as int then Some(Binary(Greater))
    else if u == '.' as int then Some(OutputNumber)
    else if u == ',' as int then Some(OutputChar)
    else if u == Quote then Some(ToggleString)
    else if u == 'g' as int then Some(Get)
    else if u == 'p' as int then Some(Put)
    else None
  }

  /** The key under which a handler is stored. */
  function Glyph(i: Instruction): Unit
  {
    match i
    case Nop => ' ' as int
    case End => '@' as int
    case Bridge => '#' as int
    case PushInt(d) => Zero + d
    case Go(d) => (match d case Down => 'v' as int case Left => '<' as int case Right => '>' as int case Up => '^' as int)
    case GoRandom => '?' as int
    case HorizontalIf => '_' as int
    case VerticalIf => '|' as int
    case Discard => '$' as int
    case Not => '!' as int
    case Duplicate => ':' as int
    case Swap => '\\' as int
    case Binary(op) =>
      (match op
       case Add => '+' as int case Multiply => '*' as int case Subtract => '-' as int
       case Divide => '/' as int case Modulo => '%' as int case Greater => '`' as int)
    case OutputNumber => '.' as int
    case OutputChar => ',' as int
    case ToggleString => Quote
    case Get => 'g' as int
    case Put => 'p' as int
  }

  /** Every handler is found under its own key ... */
  lemma LookupGlyph(i: Instruction)
    ensures Lookup(Glyph(i)) == Some(i)
  {
  }

  /** ... and every key that has a handler is that handler's key: the table is a bijection. */
  lemma GlyphLookup(u: Unit)
    ensures Lookup(u).Some? ==> Glyph(Lookup(u).value) == u
  {
  }

  /** `Math.trunc(n / d)`: the quotient rounded toward zero. */
  function TruncDiv(n: int, d: int): int
    requires d != 0
  {
    var q := Abs(n) / Abs(d);
    if (n < 0) != (d < 0) then -q else q
  }

  /** JavaScript `n % d`: the remainder takes the sign of the dividend. */
  function TruncMod(n: int, d: int): int
    requires d != 0
  {
    var r := Abs(n) % Abs(d);
    if n < 0 then -r else r
  }

  function Abs(n: int): nat
  {
    if n < 0 then -n else n
  }

  /** The truncating quotient and remainder fit together: n == q * d + r, the
      remainder is smaller than the divisor and has the sign of the dividend. */
  lemma TruncDivMod(n: int, d: int)
    requires d != 0
    ensures TruncDiv(n, d) * d + TruncMod(n, d) == n
    ensures Abs(TruncMod(n, d)) < Abs(d)
    ensures TruncMod(n, d) == 0 || (TruncMod(n, d) < 0 <==> n < 0)
  {
    var q, r := Abs(n) / Abs(d), Abs(n) % Abs(d);
    assert q * Abs(d) + r == Abs(n);
    if n < 0 {
      assert TruncDiv(n, d) * d == -(q * Abs(d));
    } else if d < 0 {
      assert TruncDiv(n, d) * d == q * Abs(d);
    }
  }

  /** The lambda of a binary handler applied to a, the value popped first, and b,
      the value popped second; a zero divisor is a fault. */
  function Apply(op: BinOp, a: int, b: int): (r: Result<int, Fault>)
    ensures r.Err? <==> (op == Divide || op == Modulo) && a == 0
    ensures r.Err? ==> r.error == DivisionByZero
    ensures op == Greater ==> r == Ok(if b > a then 1 else 0)
  {
    match op
    case Add => Ok(b + a)
    case Multiply => Ok(b * a)
    case Subtract => Ok(b - a)
    case Divide => if a == 0 then Err(DivisionByZero) else Ok(TruncDiv(b, a))
    case Modulo => if a == 0 then Err(DivisionByZero) else Ok(TruncMod(b, a))
    case Greater => Ok(if b > a then 1 else 0)
  }

  /** A snapshot of everything a handler can touch: the `state` record
      (mode, output, stack) and the program's grid, position and heading. */
  datatype Config = Config(mode: Mode, output: seq<Item>, rows: Grid, x: int, y: int,
                           direction: Direction, stack: seq<int>)
  {
    /** The pointer's row exists. */
    predicate Valid()
    {
      0 <= y < |rows|
    }
  }

  /** `instructions[u](state)`: an unknown key throws; otherwise the handler runs. */
  function Execute(c: Config, u: Unit, draw: Draw): (r: Result<Config, Fault>)
    requires c.Valid()
    ensures r.Ok? ==> r.value.Valid()
    ensures Lookup(u).None? ==> r == Err(UnknownInstruction(u))
  {
    match Lookup(u)
    case None => Err(UnknownInstruction(u))
    case Some(i) => Perform(c, i, draw)
  }

  /** What one handler does. The grid keeps its shape, and the only handlers that
      fail are the division-like ones and `g`/`p` outside the grid. */
  function Perform(c: Config, i: Instruction, draw: Draw): (r: Result<Config, Fault>)
    requires c.Valid()
    ensures r.Ok? ==> r.value.Valid() && |r.value.rows| == |c.rows|
    ensures r.Err? ==> i.Binary? || i.Get? || i.Put?
  {
    var s := c.stack;
    match i
    case Nop => Ok(c)
    case End => Ok(c.(mode := Ended))
    case Bridge =>
      var (x, y) := Advance(c.rows, c.x, c.y, c.direction);
      Ok(c.(x := x, y := y))
    case PushInt(d) => Ok(c.(stack := s + [d]))
    case Go(d) => Ok(c.(direction := d))
    case GoRandom => Ok(c.(direction := Random(draw)))
    case HorizontalIf => Ok(c.(stack := Drop(s), direction := if Top(s) == 0 then Right else Left))
    case VerticalIf => Ok(c.(stack := Drop(s), direction := if Top(s) == 0 then Down else Up))
    case Discard => Ok(c.(stack := Drop(s)))
    case Not => Ok(c.(stack := Drop(s) + [if Top(s) == 0 then 1 else 0]))
    case Duplicate => Ok(c.(stack := s + [Top(s)]))
    case Swap =>
      var last, penultimate := Top(s), Top(Drop(s));
      Ok(c.(stack := Drop(Drop(s)) + [last] + [penultimate]))
    case Binary(op) =>
      var a, b := Top(s), Top(Drop(s));
      (match Apply(op, a, b)
       case Err(e) => Err(e)
       case Ok(v) => Ok(c.(stack := Drop(Drop(s)) + [v])))
    case OutputNumber => Ok(c.(stack := Drop(s), output := c.output + [Number(Top(s))]))
    case OutputChar => Ok(c.(stack := Drop(s), output := c.output + [Char(FromCharCode(Top(s)))]))
    case ToggleString => Ok(c.(mode := if c.mode == Normal then String else Normal))
    case Get =>
      var y, x := Top(s), Top(Drop(s));
      (match CellAt(c.rows, x, y)
       case None => Err(GetOutside(x, y))
       case Some(cell) => Ok(c.(stack := Drop(Drop(s)) + [cell])))
    case Put =>
      var y, x, v := Top(s), Top(Drop(s)), Top(Drop(Drop(s)));
      if InBounds(c.rows, x, y)
      then Ok(c.(stack := Drop(Drop(Drop(s))), rows := Write(c.rows, x, y, FromCharCode(v))))
      else Err(PutOutside(x, y))
  }

  /** A handler only ever appends to the output, at most one entry at a time. */
  lemma PerformOnlyAppendsOutput(c: Config, i: Instruction, draw: Draw)
    requires c.Valid() && Perform(c, i, draw).Ok?
    ensures var r := Perform(c, i, draw).value;
      c.output <= r.output && |r.output| <= |c.output| + 1
  {
    match i
    case OutputNumber =>
      assert Perform(c, i, draw).value.output == c.output + [Number(Top(c.stack))];
    case OutputChar =>
      assert Perform(c, i, draw).value.output == c.output + [Char(FromCharCode(Top(c.stack)))];
    case _ =>
      assert Perform(c, i, draw).value.output == c.output;
  }

  /** The cases of the arithmetic tests: 5 / 2 is 2, (2 - 7) / 2 is -2 (toward
      zero, not down), and the remainder has the dividend's sign. */
  lemma TruncationExamples()
    ensures TruncDiv(5, 2) == 2 && TruncDiv(-5, 2) == -2 && TruncDiv(5, -2) == -2
    ensures TruncMod(5, 2) == 1 && TruncMod(-5, 2) == -1 && TruncMod(5, -2) == 1
  {
  }

  /** `\` pops `last` and `penultimate` and pushes them back in that order: with two
      or more values the top two change places and the rest stays; a single value
      a becomes [a, 0], and an empty stack becomes [0, 0]. */
  lemma SwapExchangesTopTwo(c: Config, draw: Draw)
    requires c.Valid()
    ensures var s, n := c.stack, |c.stack|;
      Perform(c, Swap, draw) == Ok(c.(stack :=
        if n >= 2 then s[..n - 2] + [s[n - 1], s[n - 2]]
        else if n == 1 then [s[0], 0]
        else [0, 0]))
  {
    var s, n := c.stack, |c.stack|;
    if n >= 2 {
      assert Drop(s) == s[..n - 1] && Drop(Drop(s)) == s[..n - 2];
      assert Top(Drop(s)) == s[n - 2];
      assert Drop(Drop(s)) + [s[n - 1]] + [s[n - 2]] == s[..n - 2] + [s[n - 1], s[n - 2]];
    } else if n == 1 {
      assert Drop(s) == [] && Top(s) == s[0];
      assert [] + [s[0]] + [0] == [s[0], 0];
    } else {
      assert [] + [0] + [0] == [0, 0];
    }
  }

  /** Duplicate, swap, discard (`:` `\` `$`) restores a non-empty stack; on an empty
      stack it leaves the 0 that `:` read. */
  lemma DuplicateSwapDiscard(c: Config, draw: Draw)
    requires c.Valid()
    ensures var c1 := Perform(c, Duplicate, draw).value;
      var c2 := Perform(c1, Swap, draw).value;
      var c3 := Perform(c2, Discard, draw).value;
      c3 == c.(stack := if c.stack == [] then [0] else c.stack)
  {
    var s := c.stack;
    var t := Top(s);
    var c1 := c.(stack := s + [t]);
    assert Perform(c, Duplicate, draw) == Ok(c1);
    var n := |s| + 1;
    SwapExchangesTopTwo(c1, draw);
    if s == [] {
      assert Perform(c1, Swap, draw) == Ok(c.(stack := [0, 0]));
      assert Drop([0, 0]) == [0];
    } else {
      assert (s + [t])[..n - 2] + [t, t] == s + [t];
      assert Perform(c1, Swap, draw) == Ok(c1);
      assert Drop(s + [t]) == s;
    }
  }

  /** A binary handler takes its left operand b from below its right operand a (the
      top): with two values or more it replaces them by `b op a`, leaving one value
      fewer and everything below untouched. */
  lemma BinaryOperandOrder(c: Config, op: BinOp, draw: Draw)
    requires c.Valid() && |c.stack| >= 2
    requires (op == Divide || op == Modulo) ==> c.stack[|c.stack| - 1] != 0
    ensures var s, n := c.stack, |c.stack|;
      var a, b := s[n - 1], s[n - 2];
      var r := Perform(c, Binary(op), draw);
      r.Ok? && r.value == c.(stack := r.value.stack) &&
      |r.value.stack| == n - 1 && r.value.stack[..n - 2] == s[..n - 2] &&
      r.value.stack[n - 2] == match op
        case Add => b + a
        case Multiply => b * a
        case Subtract => b - a
        case Divide => TruncDiv(b, a)
        case Modulo => TruncMod(b, a)
        case Greater => if b > a then 1 else 0
  {
    var s, n := c.stack, |c.stack|;
    assert Drop(s) == s[..n - 1] && Drop(Drop(s)) == s[..n - 2];
  }

  /** With fewer than two values the missing operands read as 0: the stack becomes
      the single value `b op a` with a the top (or 0) and b = 0, so `-` turns [5]
      into [-5]; a zero divisor still fails. */
  lemma BinaryOnShortStack(c: Config, op: BinOp, draw: Draw)
    requires c.Valid() && |c.stack| < 2
    ensures var a := if |c.stack| == 1 then c.stack[0] else 0;
      var r := Perform(c, Binary(op), draw);
      match Apply(op, a, 0)
      case Err(e) => r == Err(e)
      case Ok(v) => r == Ok(c.(stack := [v]))
  {
    var s := c.stack;
    assert Drop(Drop(s)) == [];
    assert Top(Drop(s)) == 0 && Top(s) == (if |s| == 1 then s[0] else 0);
    assert forall v :: Drop(Drop(s)) + [v] == [v];
  }

  /** The digits push their own value and change nothing else. */
  lemma DigitsPushTheirValue(c: Config, d: Digit, draw: Draw)
    requires c.Valid()
    ensures Execute(c, Zero + d, draw) == Ok(c.(stack := c.stack + [d]))
  {
    assert Lookup(Zero + d) == Some(PushInt(d));
  }

  /** `!` replaces the top value by 1 when it is 0 and by 0 otherwise; an empty
      stack reads as 0, so it becomes [1]. */
  lemma NotNegatesTop(c: Config, draw: Draw)
    requires c.Valid()
    ensures var r := Execute(c, '!' as int, draw);
      r.Ok? && r.value == c.(stack := r.value.stack) &&
      |r.value.stack| == (if c.stack == [] then 1 else |c.stack|) &&
      r.value.stack[..|r.value.stack| - 1] == Drop(c.stack) &&
      (r.value.stack[|r.value.stack| - 1] == 1 <==> Top(c.stack) == 0) &&
      (r.value.stack[|r.value.stack| - 1] == 0 <==> Top(c.stack) != 0)
  {
    assert Lookup('!' as int) == Some(Not);
  }

  /** `g` fails exactly when the popped (x, y) is outside the grid, with that position. */
  lemma GetFailsExactlyOutside(c: Config, draw: Draw)
    requires c.Valid()
    ensures var y, x := Top(c.stack), Top(Drop(c.stack));
      var r := Perform(c, Get, draw);
      (r.Err? <==> !InBounds(c.rows, x, y)) && (r.Err? ==> r.error == GetOutside(x, y))
  {
  }

  /** `p` fails exactly when the popped (x, y) is outside the grid, with that position. */
  lemma PutFailsExactlyOutside(c: Config, draw: Draw)
    requires c.Valid()
    ensures var y, x := Top(c.stack), Top(Drop(c.stack));
      var r := Perform(c, Put, draw);
      (r.Err? <==> !InBounds(c.rows, x, y)) && (r.Err? ==> r.error == PutOutside(x, y))
  {
  }

  /** The arrows set the heading and change nothing else. */
  lemma ArrowsSetHeading(c: Config, draw: Draw)
    requires c.Valid()
    ensures Execute(c, '>' as int, draw) == Ok(c.(direction := Right))
    ensures Execute(c, '<' as int, draw) == Ok(c.(direction := Left))
    ensures Execute(c, '^' as int, draw) == Ok(c.(direction := Up))
    ensures Execute(c, 'v' as int, draw) == Ok(c.(direction := Down))
  {
  }

  /** `_` and `|` pop one value and steer by it: zero goes right (down), anything else
      left (up). Nothing else changes. */
  lemma ConditionalsSteerByPoppedValue(c: Config, draw: Draw)
    requires c.Valid()
    ensures var r := Execute(c, '_' as int, draw);
      r.Ok? && r.value == c.(stack := Drop(c.stack), direction := r.value.direction) &&
      (r.value.direction == Right <==> Top(c.stack) == 0) &&
      (r.value.direction == Left <==> Top(c.stack) != 0)
    ensures var r := Execute(c, '|' as int, draw);
      r.Ok? && r.value == c.(stack := Drop(c.stack), direction := r.value.direction) &&
      (r.value.direction == Down <==> Top(c.stack) == 0) &&
      (r.value.direction == Up <==> Top(c.stack) != 0)
  {
  }

  /** `?` sets the heading the draw picks and changes nothing else; by
      `RandomCoversAll` every heading is picked by some draw. */
  lemma RandomSetsDrawnHeading(c: Config, draw: Draw)
    requires c.Valid()
    ensures Execute(c, '?' as int, draw) == Ok(c.(direction := Random(draw)))
  {
  }

  /** `.` pops one value and adds exactly its decimal rendering to the joined output. */
  lemma OutputNumberAppendsDecimal(c: Config, draw: Draw)
    requires c.Valid()
    ensures var r := Execute(c, '.' as int, draw);
      r.Ok? && r.value.stack == Drop(c.stack) && Join(r.value.output) == Join(c.output) + Decimal(Top(c.stack))
  {
    assert Lookup('.' as int) == Some(OutputNumber);
    var item := Number(Top(c.stack));
    assert Execute(c, '.' as int, draw) == Ok(c.(stack := Drop(c.stack), output := c.output + [item]));
    JoinPush(c.output, item);
  }

  /** `,` pops one value and adds exactly the one code unit it denotes to the joined output. */
  lemma OutputCharAppendsUnit(c: Config, draw: Draw)
    requires c.Valid()
    ensures var r := Execute(c, ',' as int, draw);
      r.Ok? && r.value.stack == Drop(c.stack) && Join(r.value.output) == Join(c.output) + [FromCharCode(Top(c.stack))]
  {
    assert Lookup(',' as int) == Some(OutputChar);
    var item := Char(FromCharCode(Top(c.stack)));
    assert Execute(c, ',' as int, draw) == Ok(c.(stack := Drop(c.stack), output := c.output + [item]));
    JoinPush(c.output, item);
  }

  /** `p` pops y, x and v and writes the unit of v into (x, y), changing nothing else. */
  lemma PutWritesCell(c: Config, v: int, x: int, y: int, draw: Draw)
    requires c.Valid() && InBounds(c.rows, x, y)
    ensures Perform(c.(stack := c.stack + [v, x, y]), Put, draw) ==
      Ok(c.(rows := Write(c.rows, x, y, FromCharCode(v))))
  {
    var s := c.stack + [v, x, y];
    assert Drop(s) == c.stack + [v, x] && Drop(Drop(s)) == c.stack + [v] && Drop(Drop(Drop(s))) == c.stack;
  }

  /** `g` pops y and x and pushes the cell at (x, y) in place of them. */
  lemma GetReadsCell(c: Config, x: int, y: int, draw: Draw)
    requires c.Valid() && InBounds(c.rows, x, y)
    ensures Perform(c.(stack := c.stack + [x, y]), Get, draw) ==
      Ok(c.(stack := c.stack + [c.rows[y][x]]))
  {
    var t := c.stack + [x, y];
    assert Drop(t) == c.stack + [x] && Drop(Drop(t)) == c.stack;
  }

  /** A `g` at the cell a `p` just wrote pushes back the unit written, which is v
      itself when 0 <= v < 65536. */
  lemma PutThenGet(c: Config, v: int, x: int, y: int, draw: Draw)
    requires c.Valid() && InBounds(c.rows, x, y)
    ensures var put := Perform(c.(stack := c.stack + [v, x, y]), Put, draw);
      put.Ok? &&
      var get := Perform(put.value.(stack := c.stack + [x, y]), Get, draw);
      get == Ok(put.value.(stack := c.stack + [FromCharCode(v)])) &&
      (0 <= v < 0x10000 ==> get.value.stack == c.stack + [v])
  {
    PutWritesCell(c, v, x, y, draw);
    var written := c.(rows := Write(c.rows, x, y, FromCharCode(v)));
    ReadAfterWrite(c.rows, x, y, FromCharCode(v), x, y);
    GetReadsCell(written, x, y, draw);
  }

  /** The state the handlers share: `mode` and `output` are fields of the
      `state` record; `program` and `stack` are the objects it refers to. */
  class State {
    var mode: Mode
    var output: seq<Item>
    const program: Program
    const stack: Stack

    ghost predicate Valid()
      reads this, program
    {
      program.Valid()
    }

    /** The snapshot of the state that the specification functions work on. */
    ghost function Snapshot(): Config
      reads this, program, stack
    {
      Config(mode, output, program.rows, program.x, program.y, program.direction, stack.items)
    }

    /** The record built at the start of `interpreter`. */
    constructor (program: Program, stack: Stack)
      requires program.Valid()
      ensures Valid() && this.program == program && this.stack == stack
      ensures mode == Normal && output == []
    {
      this.mode := Normal;
      this.output := [];
      this.program := program;
      this.stack := stack;
    }

    /** `pushInt(value)`. */
    method PushInt(value: int)
      modifies stack
      ensures stack.items == old(stack.items) + [value]
    {
      stack.Push(value);
    }

    /** `setDirection(factory)`, given what the factory chose. */
    method SetDirection(d: Direction)
      modifies program`direction
      ensures program.direction == d
    {
      program.SetDirection(d);
    }

    /** `binaryOperation(func)`: pop a, pop b, push the lambda's value for (a, b). */
    method BinaryOperation(op: BinOp) returns (fault: Option<Fault>)
      modifies stack
      ensures var s := old(stack.items);
        match Apply(op, Top(s), Top(Drop(s)))
        case Err(e) => fault == Some(e)
        case Ok(v) => fault == None && stack.items == Drop(Drop(s)) + [v]
    {
      var a := stack.Pop();
      var b := stack.Pop();
      var r := Apply(op, a, b);
      if r.Err? {
        return Some(r.error);
      }
      stack.Push(r.value);
      fault := None;
    }

    /** `instructions[u](state)`, with `draw` standing for `Math.random` in `?`.
        Its effect is the one `Execute` describes; on a fault the state is left
        as it is when the handler throws. */
    method Dispatch(u: Unit, draw: Draw) returns (fault: Option<Fault>)
      requires Valid()
      modifies this, program, stack
      ensures Valid()
      ensures Execute(old(Snapshot()), u, draw).Ok? ==>
                fault == None && Snapshot() == Execute(old(Snapshot()), u, draw).value
      ensures Execute(old(Snapshot()), u, draw).Err? ==>
                fault == Some(Execute(old(Snapshot()), u, draw).error)
    {
      var entry := Lookup(u);
      if entry.None? {
        return Some(UnknownInstruction(u));
      }
      var i := entry.value;
      if i.Binary? || i.Get? || i.Put? {
        fault := HandleFallible(i);
      } else if i.PushInt? || i.Discard? || i.Not? || i.Duplicate? || i.Swap? {
        HandleStack(i);
        fault := None;
      } else if i.OutputNumber? || i.OutputChar? {
        HandleOutput(i);
        fault := None;
      } else {
        HandleMotion(i, draw);
        fault := None;
      }
    }

    /** The handlers that change the mode, the heading or the position. */
    method HandleMotion(i: Instruction, draw: Draw)
      requires Valid()
      requires i.Nop? || i.End? || i.Bridge? || i.Go? || i.GoRandom? || i.HorizontalIf? || i.VerticalIf? || i.ToggleString?
      modifies this, program, stack
      ensures Valid()
      ensures Perform(old(Snapshot()), i, draw) == Ok(Snapshot())
    {
      match i
      case Nop =>
      case End =>
        mode := Ended;
      case Bridge =>
        program.Move();
      case Go(d) =>
        SetDirection(d);
      case GoRandom =>
        SetDirection(Random(draw));
      case HorizontalIf =>
        var v := stack.Pop();
        SetDirection(if v == 0 then Right else Left);
      case VerticalIf =>
        var v := stack.Pop();
        SetDirection(if v == 0 then Down else Up);
      case ToggleString =>
        mode := if mode == Normal then String else Normal;
    }

    /** The handlers that only rearrange the stack. */
    method HandleStack(i: Instruction)
      requires i.PushInt? || i.Discard? || i.Not? || i.Duplicate? || i.Swap?
      requires Valid()
      modifies stack
      ensures Perform(old(Snapshot()), i, 0) == Ok(Snapshot())
    {
      match i
      case PushInt(d) =>
        PushInt(d);
      case Discard =>
        var _ := stack.Pop();
      case Not =>
        var v := stack.Pop();
        stack.Push(if v == 0 then 1 else 0);
      case Duplicate =>
        var v := stack.Peek();
        stack.Push(v);
      case Swap =>
        var last := stack.Pop();
        var penultimate := stack.Pop();
        stack.Push(last);
        stack.Push(penultimate);
    }

    /** The handlers that pop a value and print it. */
    method HandleOutput(i: Instruction)
      requires i.OutputNumber? || i.OutputChar?
      requires Valid()
      modifies this, stack
      ensures Perform(old(Snapshot()), i, 0) == Ok(Snapshot())
    {
      match i
      case OutputNumber =>
        var v := stack.Pop();
        output := output + [Number(v)];
      case OutputChar =>
        var v := stack.Pop();
        output := output + [Char(FromCharCode(v))];
    }

    /** The handlers that can throw: the binary operations, `g` and `p`. */
    method HandleFallible(i: Instruction) returns (fault: Option<Fault>)
      requires i.Binary? || i.Get? || i.Put?
      requires Valid()
      modifies program, stack
      ensures Valid()
      ensures Perform(old(Snapshot()), i, 0).Ok? ==>
                fault == None && Snapshot() == Perform(old(Snapshot()), i, 0).value
      ensures Perform(old(Snapshot()), i, 0).Err? ==>
                fault == Some(Perform(old(Snapshot()), i, 0).error)
    {
      fault := None;
      match i
      case Binary(op) =>
        fault := BinaryOperation(op);
      case Get =>
        var y := stack.Pop();
        var x := stack.Pop();
        var cell := program.GetCharAt(x, y);
        if cell.None? {
          return Some(GetOutside(x, y));
        }
        stack.Push(cell.value);
      case Put =>
        var y := stack.Pop();
        var x := stack.Pop();
        var v := stack.Pop();
        var ok := program.SetCharAt(x, y, FromCharCode(v));
        if !ok {
          return Some(PutOutside(x, y));
        }
    }
  }
}
