/** The four headings of the instruction pointer (index.js:1-9). */
module Directions {

  /** One of the four cardinal headings; `Delta` gives its displacement. */
  datatype Direction = Down | Left | Right | Up

  /** An outcome of `Math.floor(4 * Math.random())`: an index into the list of headings. */
  type Draw = i: int | 0 <= i < 4

  /** The displacement [dx, dy] of a heading; y grows downwards. */
  function Delta(d: Direction): (r: (int, int))
    ensures r.0 * r.0 + r.1 * r.1 == 1
  {
    match d
    case Down => (0, 1)
    case Left => (-1, 0)
    case Right => (1, 0)
    case Up => (0, -1)
  }

  /** `Direction.random`: the draw indexes the list [DOWN, LEFT, RIGHT, UP]. */
  function Random(i: Draw): Direction
  {
    [Down, Left, Right, Up][i]
  }

  /** Every heading is the outcome of some draw, so `?` can go anywhere. */
  lemma RandomCoversAll(d: Direction)
    ensures exists i: Draw :: Random(i) == d
  {
    var i: Draw := match d case Down => 0 case Left => 1 case Right => 2 case Up => 3;
    assert Random(i) == d;
  }

  /** Distinct draws give distinct headings: the four outcomes are all different. */
  lemma RandomInjective(i: Draw, j: Draw)
    ensures Random(i) == Random(j) <==> i == j
  {
  }

  /** The four headings have four distinct displacements. */
  lemma DeltaInjective(d: Direction, e: Direction)
    ensures Delta(d) == Delta(e) <==> d == e
  {
  }
}
