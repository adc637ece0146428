/** Characters as the interpreter sees them: JavaScript strings are sequences of
    UTF-16 code units, `split("")` cuts a row into code units, `charCodeAt(0)`
    reads one and `String.fromCharCode` makes one. Also the rendering of the
    output array by `join("")` (index.js:52-53, 83, 88). */
module Text {

  /** A UTF-16 code unit. */
  type Unit = i: int | 0 <= i < 0x10000

  const Newline: Unit := '\n' as int
  const Minus: Unit := '-' as int
  const Zero: Unit := '0' as int

  /** `String.fromCharCode(v)` for an integer v: ToUint16 keeps v modulo 2^16. */
  function FromCharCode(v: int): (u: Unit)
    ensures 0 <= v < 0x10000 ==> u == v
    ensures (u - v) % 0x10000 == 0
  {
    v % 0x10000
  }

  predicate IsDigit(u: Unit)
  {
    Zero <= u <= Zero + 9
  }

  /** The decimal numeral of a natural number, most significant digit first,
      without leading zeros (what `String(n)` gives for a non-negative integer). */
  function NatDigits(n: nat): (r: seq<Unit>)
    ensures |r| > 0
    ensures forall i :: 0 <= i < |r| ==> IsDigit(r[i])
    ensures r[0] == Zero ==> n == 0
    decreases n
  {
    if n < 10 then [Zero + n] else NatDigits(n / 10) + [Zero + n % 10]
  }

  /** `String(n)` for an integer n: a minus sign before the digits of |n| when n < 0. */
  function Decimal(n: int): seq<Unit>
  {
    if n < 0 then [Minus] + NatDigits(-n) else NatDigits(n)
  }

  /** The value of a string of decimal digits (the reading direction of a numeral). */
  function ParseNat(s: seq<Unit>): int
  {
    if s == [] then 0 else ParseNat(s[..|s| - 1]) * 10 + (s[|s| - 1] - Zero)
  }

  /** The value of an optionally signed numeral. */
  function ParseDecimal(s: seq<Unit>): int
  {
    if |s| > 0 && s[0] == Minus then -ParseNat(s[1..]) else ParseNat(s)
  }

  /** Reading back the digits of a natural number gives that number. */
  lemma {:induction false} ParseNatDigits(n: nat)
    ensures ParseNat(NatDigits(n)) == n
    decreases n
  {
    if n >= 10 {
      var r := NatDigits(n);
      assert r[..|r| - 1] == NatDigits(n / 10);
      ParseNatDigits(n / 10);
    }
  }

  /** `.` prints numbers in a form that determines them: decimal rendering round-trips. */
  lemma DecimalRoundTrip(n: int)
    ensures ParseDecimal(Decimal(n)) == n
  {
    if n < 0 {
      ParseNatDigits(-n);
      assert Decimal(n)[1..] == NatDigits(-n);
    } else {
      ParseNatDigits(n);
    }
  }

  /** One entry of the output array: `.` pushes a number, `,` a one-unit string. */
  datatype Item = Number(n: int) | Char(u: Unit)

  /** How `join("")` renders one entry. */
  function Render(item: Item): seq<Unit>
  {
    match item
    case Number(n) => Decimal(n)
    case Char(u) => [u]
  }

  /** `output.join("")`: the renderings of the entries, in the order they were pushed. */
  function Join(items: seq<Item>): seq<Unit>
  {
    if items == [] then [] else Join(items[..|items| - 1]) + Render(items[|items| - 1])
  }

  /** Pushing an entry appends its rendering to the joined output and changes nothing before it. */
  lemma JoinPush(items: seq<Item>, item: Item)
    ensures Join(items + [item]) == Join(items) + Render(item)
  {
    assert (items + [item])[..|items|] == items;
  }

  /** Joining is a homomorphism: the output of two runs of pushes is the concatenation of their outputs. */
  lemma {:induction false} JoinAppend(xs: seq<Item>, ys: seq<Item>)
    ensures Join(xs + ys) == Join(xs) + Join(ys)
    decreases |ys|
  {
    if ys == [] {
      assert xs + ys == xs;
    } else {
      var init, last := ys[..|ys| - 1], ys[|ys| - 1];
      assert ys == init + [last];
      assert xs + ys == (xs + init) + [last];
      JoinPush(xs + init, last);
      JoinAppend(xs, init);
      JoinPush(init, last);
    }
  }
}
