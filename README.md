# Befunge interpreter engine in Dafny

This project models the execution engine of a small Befunge-93-style
interpreter written in JavaScript (`index.js`): a two-dimensional grid of
single-character instructions, an instruction pointer that moves in one of four
directions and wraps at the edges, an integer stack on which an empty stack
reads as 0, a string mode that pushes character codes, self-modifying
`g`/`p`, and the loop that executes one cell and moves once per iteration until
`@` ends the run and the output array is joined.

The model has two layers.

- A pure specification. `Instructions.Config` is a snapshot of everything a
  handler can touch. `Instructions.Perform` gives the effect of one handler and
  `Instructions.Execute` looks it up in the table. `Interpreter.Cycle` is one
  loop iteration, and `Interpreter.Run` / `Interpreter.Interpret` run the loop
  with a fuel bound.
- Imperative classes that follow the JavaScript objects. `Stacks.Stack` is
  `Stack`. `Programs.Program` is `Program`. `Instructions.State` is the shared
  `state` record, with one method per group of handlers. The method
  `Interpreter.Interpreter` is the `while` loop. Each method is proved against
  the specification: `Interpreter.Interpreter` returns exactly
  `Interpret(code, fuel, oracle)`.

Modelling choices:

- Characters are UTF-16 code units (`Text.Unit`, 0 to 65535), because
  `split("")`, `charCodeAt(0)` and `String.fromCharCode` all work on code
  units. `String.fromCharCode(v)` keeps `v` modulo 2^16 (`Text.FromCharCode`).
- The output array holds numbers (from `.`) and one-unit strings (from `,`)
  (`Text.Item`). `Text.Join` renders them as `join("")` does, with numbers in
  decimal.
- Every way the JavaScript code throws becomes a `Fault`:
  - an unknown character in NORMAL mode (`instructions[c]` is `undefined`);
  - a pointer outside its row (`instruction` is `undefined`);
  - `g` outside the grid (`getCharAt` itself throws when y is not a row; when
    only x is outside the row it returns `undefined` and `charCodeAt` throws);
  - `p` at a y that is not a row.
- Two cases that do not throw in JavaScript are also a `Fault` (see "Left out"):
  - `p` at an x outside an existing row (a sparse write in JavaScript);
  - division or modulo by zero (`Infinity` or `NaN` in JavaScript).
- `Math.random()` in `?` is an oracle `nat -> Draw`. It gives the draw
  `Math.floor(4 * Math.random())` of loop iteration k.
- A run need not terminate, so the loop gets a fuel bound. `Outcome` is
  `Halted(output)`, `Failed(fault)` or `Running` (the fuel ran out).
  `Interpreter.RunFuelMonotone` shows that a finished bounded run gives the
  same result with any amount of extra fuel.

Where the code and the language's usual description differ, the model follows
the code:

- An unknown character is not a no-op: the table has no entry for it and the
  loop throws (`Interpreter.UnknownCellFails`, `Scenarios.UnknownCharacterThrows`).
- One field holds NORMAL, STRING and ENDED (`Instructions.Mode`). There is no
  separate running flag.
- Wrapping is a single step, not a modulo (`Programs.ClampIsModuloExactly`).
  On a grid whose rows all have the same length this is the usual toroidal
  wrap (`Programs.AdvanceStaysInBounds`). With rows of different lengths, a
  vertical move onto a shorter row can leave x outside that row
  (`Programs.RaggedMoveCanLeaveRow`). If the loop then reads that cell, it gets
  `undefined` and the run throws. The first of the two moves of `#` is not
  read, so after it the run can go on.
- Division and modulo by zero are not special-cased in the code (see "Left out").

## Model

| member | source | states |
|---|---|---|
| Directions.Delta | index.js:1-5 | each heading moves exactly one cell along one axis (dx² + dy² = 1) |
| Directions.DeltaInjective | index.js:1-5 | the four headings have four different displacements |
| Directions.RandomCoversAll | index.js:6-8 | every heading is the result of some draw, so `?` can go any way |
| Directions.RandomInjective | index.js:6-8 | different draws give different headings |
| Directions.Random | index.js:6-8 | `Direction.random` picks the draw's entry of [DOWN, LEFT, RIGHT, UP]; pinned down by `RandomCoversAll` and `RandomInjective` |
| Text.FromCharCode | index.js:53 | the unit is v itself when 0 <= v < 65536, and is congruent to v modulo 2^16 otherwise |
| Text.NatDigits | index.js:83 | the rendering of a number is a non-empty string of digits with no leading zero |
| Text.ParseNatDigits | index.js:83 | reading back the digits of a natural number gives the number |
| Text.DecimalRoundTrip | index.js:52 | the decimal text `.` prints for any integer determines that integer |
| Text.JoinPush | index.js:83 | pushing one entry appends exactly its rendering to the joined output |
| Text.JoinAppend | index.js:83 | joining the concatenation of two output arrays concatenates their joins |
| Text.Decimal | index.js:52 | `String(n)` for an integer: a minus sign before the digits of abs(n) when n < 0; pinned down by `NatDigits` and `DecimalRoundTrip` |
| Text.Render | index.js:52-53 | how `join("")` renders a number (its decimal) or a one-unit string; used by `JoinPush` |
| Text.Join | index.js:83 | `output.join("")`: the renderings in the order pushed; pinned down by `JoinPush` and `JoinAppend` |
| Stacks.PopAfterPush | index.js:145-154 | `pop` after `push(v)` returns v and restores the stack |
| Stacks.EmptyReadsZero | index.js:138-150 | on an empty stack `peek` and `pop` give 0 and the stack stays empty |
| Stacks.PushAfterPop | index.js:145-154 | on a non-empty stack, pushing back the popped value undoes the pop |
| Stacks.DropLength | index.js:145-150 | `pop` removes exactly one value when there is one, and none otherwise |
| Stacks.Top | index.js:138-150 | what `peek` and `pop` return: the last value pushed, or 0; pinned down by `PopAfterPush`, `EmptyReadsZero` and `PushAfterPop` |
| Stacks.Drop | index.js:145-150 | what `pop` leaves; pinned down by `PopAfterPush`, `EmptyReadsZero`, `PushAfterPop` and `DropLength` |
| Stacks.Stack.constructor | index.js:130-132 | a new stack is empty |
| Stacks.Stack.Empty | index.js:134-136 | true exactly when the stack holds no value |
| Stacks.Stack.Peek | index.js:138-143 | returns the top value, or 0 on an empty stack, and changes nothing |
| Stacks.Stack.Pop | index.js:145-150 | returns the top value (0 when empty) and removes only that value |
| Stacks.Stack.Push | index.js:152-154 | the stack becomes the old stack with v on top |
| Programs.Split | index.js:88 | splitting gives at least one row, and no row contains a line break |
| Programs.SplitJoin | index.js:88 | joining the rows with line breaks gives back the source text |
| Programs.JoinSplit | index.js:88 | rows without line breaks are exactly what splitting their join gives |
| Programs.ClampIsModuloExactly | index.js:122-126 | `_clamp` equals true modulo if and only if the value lies in [-length, 2·length) |
| Programs.Clamp | index.js:122-126 | `_clamp`: one added or subtracted length; pinned down by `ClampIsModuloExactly` |
| Programs.CellAt | index.js:97-104 | a cell is read exactly when (x, y) lies inside the grid; `None` stands for both ways of missing it: x outside an existing row, where `getCharAt` returns `undefined`, and y not a row, where `getCharAt` throws |
| Programs.Write | index.js:106-108 | a write keeps the number of rows and the length of every row |
| Programs.ReadAfterWrite | index.js:97-108 | a written cell reads back as the unit written, and every other cell is unchanged |
| Programs.Advance | index.js:114-120 | after a move the row index is a valid row |
| Programs.AdvanceStaysInBounds | index.js:114-126 | on a grid of equal-length rows a move from a cell lands on a cell, and both coordinates wrap modulo the grid's size |
| Programs.WrapsHorizontally | index.js:114-126 | moving right off a row's end re-enters at column 0, and moving left off column 0 re-enters at the last column |
| Programs.WrapsVertically | index.js:114-126 | moving down off the last row re-enters row 0, and up off row 0 re-enters the last row, with x wrapped against the row entered |
| Programs.RaggedMoveCanLeaveRow | index.js:114-126 | on rows of different lengths a single-step wrap can leave the pointer outside the row it lands on |
| Programs.Program.FromString | index.js:87-89 | the program holds the split rows, joining them gives back the source, and the pointer is at (0, 0) heading right |
| Programs.Program.constructor | index.js:91-95 | the pointer starts at (0, 0) heading right over the given rows |
| Programs.Program.GetCharAt | index.js:97-99 | returns the cell exactly when (x, y) is inside the grid, and `None` otherwise; `None` covers both the `undefined` of an x outside an existing row and the throw of a y that is not a row |
| Programs.Program.Instruction | index.js:101-104 | returns the cell under the pointer, or `undefined` when the pointer is outside its row |
| Programs.Program.SetCharAt | index.js:106-108 | overwrites exactly the cell (x, y) when it exists, and otherwise reports failure and changes nothing |
| Programs.Program.SetDirection | index.js:110-112 | the heading becomes the given one, and nothing else changes |
| Programs.Program.Move | index.js:114-120 | the position becomes the wrapped step along the heading, and the row index stays valid |
| Instructions.LookupGlyph | index.js:17-63 | every handler is stored under its own character |
| Instructions.GlyphLookup | index.js:17-63 | every character with a handler is that handler's character: the table is a bijection |
| Instructions.Lookup | index.js:17-63 | `instructions[u]`: the handler under key u, if any; pinned down by `LookupGlyph` and `GlyphLookup` (a bijection onto the 35 keys) |
| Instructions.TruncDivMod | index.js:49-50 | the truncating quotient and remainder satisfy n = q·d + r, with abs(r) < abs(d) and r carrying the dividend's sign |
| Instructions.TruncationExamples | index.js:49-50 | 5/2 = 2, -5/2 = -2, 5/-2 = -2; 5%2 = 1, -5%2 = -1, 5%-2 = 1 |
| Instructions.TruncDiv | index.js:49 | `Math.trunc(b / a)`; pinned down by `TruncDivMod` and `TruncationExamples` |
| Instructions.TruncMod | index.js:50 | JavaScript `b % a`; pinned down by `TruncDivMod` and `TruncationExamples` |
| Instructions.Apply | index.js:46-51 | an operation fails exactly for `/` or `%` with a zero divisor, and `` ` `` gives 1 exactly when b > a |
| Instructions.Execute | index.js:78 | a character with no table entry throws; any other result keeps the pointer's row valid |
| Instructions.Perform | index.js:18-62 | a handler keeps the grid's row count, and only the binary operations, `g` and `p` can fail |
| Instructions.PerformOnlyAppendsOutput | index.js:52-53 | a handler only appends to the output, at most one entry |
| Instructions.SwapExchangesTopTwo | index.js:41-45 | `\` exchanges the top two values and keeps the rest; [a] becomes [a, 0] and [] becomes [0, 0] |
| Instructions.DuplicateSwapDiscard | index.js:38-45 | `:` `\` `$` restores a non-empty stack, and leaves [0] on an empty one |
| Instructions.BinaryOperandOrder | index.js:46-51 | a binary handler replaces the top two values a (top) and b by `b op a`, leaving the rest untouched |
| Instructions.BinaryOnShortStack | index.js:46-51 | with fewer than two values the missing operands read as 0: the stack becomes the single value `b op a` (`-` turns [5] into [-5]), or the zero-divisor fault |
| Instructions.DigitsPushTheirValue | index.js:21-30 | each digit pushes its own value and changes nothing else |
| Instructions.NotNegatesTop | index.js:39 | `!` replaces the top value by 1 exactly when it is 0 and by 0 otherwise; an empty stack becomes [1] |
| Instructions.ArrowsSetHeading | index.js:31-34 | the arrows set the heading and change nothing else |
| Instructions.ConditionalsSteerByPoppedValue | index.js:36-37 | `_` and the vertical bar pop one value and go right or down exactly when it is 0, left or up otherwise; nothing else changes |
| Instructions.RandomSetsDrawnHeading | index.js:35 | `?` sets the drawn heading and changes nothing else |
| Instructions.OutputNumberAppendsDecimal | index.js:52 | `.` pops one value and appends exactly its decimal rendering to the joined output |
| Instructions.OutputCharAppendsUnit | index.js:53 | `,` pops one value and appends exactly its code unit to the joined output |
| Instructions.PutWritesCell | index.js:59-62 | `p` pops y, x and v and writes the unit of v at (x, y), changing nothing else |
| Instructions.GetReadsCell | index.js:55-58 | `g` pops y and x and pushes the code of the cell at (x, y) |
| Instructions.PutThenGet | index.js:55-62 | a `g` of the cell a `p` just wrote pushes back the unit written, which is v when 0 <= v < 65536 |
| Instructions.GetFailsExactlyOutside | index.js:55-58 | `g` throws exactly when the popped (x, y) is outside the grid, and the fault names that position |
| Instructions.PutFailsExactlyOutside | index.js:59-62 | `p` fails exactly when the popped (x, y) is outside the grid, and the fault names that position |
| Instructions.State.constructor | index.js:66-71 | the state starts in NORMAL mode with empty output over the given program and stack |
| Instructions.State.PushInt | index.js:157-159 | `pushInt(value)` pushes the value onto the stack |
| Instructions.State.SetDirection | index.js:161-163 | `setDirection` sets the heading the factory chose |
| Instructions.State.BinaryOperation | index.js:165-167 | pops a, then b, and pushes the operation's value for (a, b), or reports its fault |
| Instructions.State.Dispatch | index.js:78 | running the table entry changes the state exactly as `Execute` says, or reports the fault `Execute` gives |
| Instructions.State.HandleMotion | index.js:18-37 | the handlers for mode, heading and position change the state exactly as `Perform` says |
| Instructions.State.HandleStack | index.js:21-45 | the stack handlers change the stack exactly as `Perform` says |
| Instructions.State.HandleOutput | index.js:52-53 | `.` and `,` change the stack and output exactly as `Perform` says |
| Instructions.State.HandleFallible | index.js:46-62 | the binary operations, `g` and `p` change the state as `Perform` says, or report its fault |
| Interpreter.Initial | index.js:66-71 | the run starts on the split source, which joins back to the source text |
| Interpreter.Cycle | index.js:74-80 | an iteration keeps the row count, and a pointer outside its row throws |
| Interpreter.RunUnfolds | index.js:73-81 | a run that has not ended either throws with the iteration's fault or continues from the iteration's result |
| Interpreter.Run | index.js:73-83 | the loop with at most `fuel` iterations left; pinned down by `RunUnfolds`, `EndedRunReturnsOutput` and `RunFuelMonotone` |
| Interpreter.Resume | index.js:73-81 | the loop after an iteration: a throw ends it, otherwise it goes on from the new state |
| Interpreter.Interpret | index.js:65-84 | `interpreter(code)` with a fuel bound; `Interpreter.Interpreter` is proved to return exactly this |
| Interpreter.StringModePushesCell | index.js:75-76 | in STRING mode every cell but the quote is pushed, then the pointer moves, and the mode stays STRING |
| Interpreter.QuoteToggles | index.js:54 | the quote toggles between NORMAL and STRING and is not pushed |
| Interpreter.CycleMovesOnce | index.js:73-81 | every iteration except one on `#` moves the pointer exactly once after executing the cell |
| Interpreter.BridgeSkipsNextCell | index.js:20 | `#` moves twice in its iteration, so the next cell is skipped |
| Interpreter.EndedRunReturnsOutput | index.js:73-83 | once the mode is ENDED the result is the joined output, whatever fuel is left |
| Interpreter.AtHalts | index.js:19 | `@` ends the run with the output as it stands |
| Interpreter.UnknownCellFails | index.js:78 | a NORMAL-mode character with no table entry makes the run throw |
| Interpreter.CycleOnlyAppendsOutput | index.js:73-81 | an iteration only appends to the output, at most one entry |
| Interpreter.RunFuelMonotone | index.js:73-83 | more fuel does not change a run that ended or threw |
| Interpreter.ResumeFuelMonotone | index.js:73-83 | more fuel does not change a run after an iteration once it ended or threw |
| Interpreter.Step | index.js:74-80 | the loop body changes the shared state exactly as `Cycle` says, or reports its fault |
| Interpreter.Interpreter | index.js:65-84 | the imperative loop returns exactly what the specification `Interpret` gives |
| Scenarios.PrintsZeroFromEmptyStack | index.test.js:12 | `.@` prints "0" |
| Scenarios.DuplicatesZeroOnEmptyStack | index.test.js:56 | `:..@` prints "00" |
| Scenarios.StringHidesAt | index.test.js:129 | `"@".@` prints "64": the `@` inside the string is pushed and does not halt |
| Scenarios.UnknownCharacterThrows | index.js:78 | `x@` throws on `x` |

## Left out

- `Math.random` (index.js:6-8, 35) is an oracle parameter. The model does not
  describe the distribution of the draws.
- Instructions.Apply: division or modulo by zero is a `DivisionByZero` fault.
  In JavaScript, `Math.trunc(b / 0)` and `b % 0` give `Infinity`, `-Infinity`
  or `NaN`, and the run goes on with a non-integer value. Floating-point values
  are not modelled.
- Values are unbounded integers. The model does not capture the loss of
  precision above 2^53, or the exponent form that `String(n)` uses for
  |n| >= 10^21 (`Text.Decimal`).
- Instructions.Perform: `p` at an x outside an existing row is a `PutOutside`
  fault. In JavaScript it is a sparse write that grows the row (or adds a
  property when x is negative). A row with holes cannot be represented in the
  grid model.
- Programs.Program.SetCharAt: for the same reason, it refuses a write outside
  the grid instead of growing a row.
- Instructions.State.Dispatch: on a fault the contract does not describe the
  state left behind. The JavaScript exception ends `interpreter`, so that state
  is never observed.
- Non-termination: `interpreter` may loop forever. The model runs at most
  `fuel` iterations and reports `Running` when the fuel runs out.
- `module.exports` (index.js:169) is plumbing. The test files are Mocha/Chai
  harnesses; three of their examples are proved as scenarios.
