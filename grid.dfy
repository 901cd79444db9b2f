/**
 * Board geometry once pixels are divided out: cells, the four headings, the
 * one-cell step the snake and the boss take (and that the model gives the
 * bullets, whose real step is ten pixels short of a cell), the radius test used
 * when food is placed, and the text key (`PointOnBoard.generateKeyPoint`)
 * under which the food dictionary stores a cell.
 */
module Grid {
  import opened Wrappers

  /** One square of the board: `x` is the column (0 at the left), `y` the row (0 at the top). */
  datatype Cell = Cell(x: int, y: int)

  /** `Snake.Direction`; the source's raw values 0...3 are up, down, left, right, in this order. */
  datatype Direction = Up | Down | Left | Right

  predicate IsVertical(d: Direction) {
    d == Up || d == Down
  }

  function Opposite(d: Direction): Direction {
    match d
    case Up => Down
    case Down => Up
    case Left => Right
    case Right => Left
  }

  function DistanceSquared(a: Cell, b: Cell): (r: int)
    ensures r >= 0
    ensures r == 0 <==> a == b
  {
    (a.x - b.x) * (a.x - b.x) + (a.y - b.y) * (a.y - b.y)
  }

  /**
   * The cell one step from `c` heading `d` (`moveCalc` with `performOperation`:
   * one cell along the heading's axis; up decreases the row).
   */
  function Step(c: Cell, d: Direction): (r: Cell)
    ensures DistanceSquared(c, r) == 1
    ensures IsVertical(d) ==> r.x == c.x
    ensures !IsVertical(d) ==> r.y == c.y
  {
    match d
    case Up => Cell(c.x, c.y - 1)
    case Down => Cell(c.x, c.y + 1)
    case Left => Cell(c.x - 1, c.y)
    case Right => Cell(c.x + 1, c.y)
  }

  /** Stepping back along the opposite heading undoes a step. */
  lemma StepBack(c: Cell, d: Direction)
    ensures Step(Step(c, d), Opposite(d)) == c
  {
  }

  /** The playing field: `width` columns (`numOfSquaresInRow`) by `height` rows (`numOfSquaresInCol`). */
  predicate InBoard(c: Cell, width: int, height: int) {
    0 <= c.x < width && 0 <= c.y < height
  }

  /** The start cell: column `numOfSquaresInRow / 2`, row `numOfSquaresInCol / 2 - 1`. */
  function StartCell(width: int, height: int): (c: Cell)
    requires 1 <= width && 2 <= height
    ensures InBoard(c, width, height)
  {
    Cell(width / 2, height / 2 - 1)
  }

  /**
   * `distance(from:to:) <= 2` on cell indices. The source takes a square root;
   * for a non-negative squared distance `sqrt(d) <= 2` holds exactly when `d <= 4`.
   */
  predicate Near(a: Cell, b: Cell) {
    DistanceSquared(a, b) <= 4
  }

  /** The cell straight ahead of the head is within the radius that placement rejects. */
  lemma AheadIsNear(head: Cell, d: Direction)
    ensures Near(Step(head, d), head)
  {
  }

  /** Swift's `Int(_: Double)`: truncation toward zero. */
  function Truncate(r: real): (n: int)
    ensures 0.0 <= r ==> n as real <= r < n as real + 1.0
    ensures r < 0.0 ==> n as real - 1.0 < r <= n as real
  {
    if r >= 0.0 then r.Floor else -((-r).Floor)
  }

  /** The integer point `generateKeyPoint` formats: both coordinates truncated toward zero. */
  function KeyPoint(px: real, py: real): (c: Cell)
    ensures 0.0 <= px && 0.0 <= py ==> c.x == px.Floor && c.y == py.Floor
  {
    Cell(Truncate(px), Truncate(py))
  }

  /** Every point inside a cell of the board (origin at non-negative indices) yields that cell's key. */
  lemma KeyPointOfCell(c: Cell, fx: real, fy: real)
    requires 0 <= c.x && 0 <= c.y
    requires 0.0 <= fx < 1.0 && 0.0 <= fy < 1.0
    ensures KeyPoint(c.x as real + fx, c.y as real + fy) == c
  {
  }

  // ---------------------------------------------------------------------------
  // The key text "(x, y)" and its parser

  predicate IsDigit(ch: char) {
    '0' <= ch <= '9'
  }

  function DigitChar(d: nat): (ch: char)
    requires d < 10
    ensures IsDigit(ch)
  {
    (('0' as int) + d) as char
  }

  function DigitValue(ch: char): (d: nat)
    requires IsDigit(ch)
    ensures d < 10
  {
    (ch as int) - ('0' as int)
  }

  /** Decimal digits of `n`, most significant first, as Swift's string interpolation prints them. */
  function NatText(n: nat): string
    decreases n
  {
    if n < 10 then [DigitChar(n)] else NatText(n / 10) + [DigitChar(n % 10)]
  }

  function IntText(i: int): string {
    if i < 0 then "-" + NatText(-i) else NatText(i)
  }

  /** `PointOnBoard.generateKeyPoint`: the text "(x, y)". */
  function KeyText(c: Cell): string {
    "(" + IntText(c.x) + ", " + IntText(c.y) + ")"
  }

  predicate AllDigits(s: string) {
    forall k :: 0 <= k < |s| ==> IsDigit(s[k])
  }

  /** The value of a string of decimal digits. */
  function DigitsValue(s: string): nat
    requires AllDigits(s)
  {
    if |s| == 0 then 0 else 10 * DigitsValue(s[..|s| - 1]) + DigitValue(s[|s| - 1])
  }

  function ParseNat(s: string): Option<nat> {
    if |s| > 0 && AllDigits(s) then Some(DigitsValue(s)) else None
  }

  function ParseInt(s: string): Option<int> {
    if |s| > 0 && s[0] == '-' then
      match ParseNat(s[1..])
      case Some(n) => Some(-(n as int))
      case None => None
    else
      match ParseNat(s)
      case Some(n) => Some(n)
      case None => None
  }

  /** Index of the first occurrence of `ch` in `s`. */
  function IndexOf(s: string, ch: char): (r: Option<nat>)
    ensures r.Some? ==> r.value < |s| && s[r.value] == ch && ch !in s[..r.value]
    ensures r.None? ==> ch !in s
  {
    if |s| == 0 then None
    else if s[0] == ch then Some(0)
    else
      match IndexOf(s[1..], ch)
      case Some(i) => assert s[1..][..i] == s[1..i + 1]; Some(i + 1)
      case None => None
  }

  /** Reads a key back: the inverse of `KeyText` on every cell (`KeyTextRoundTrip`). */
  function ParseKey(s: string): Option<Cell> {
    if |s| < 2 || s[0] != '(' || s[|s| - 1] != ')' then None
    else
      var inner := s[1..|s| - 1];
      match IndexOf(inner, ',')
      case None => None
      case Some(i) =>
        if i + 2 <= |inner| && inner[i + 1] == ' ' then
          match (ParseInt(inner[..i]), ParseInt(inner[i + 2..]))
          case (Some(x), Some(y)) => Some(Cell(x, y))
          case _ => None
        else None
  }

  lemma {:induction false} NatTextDigits(n: nat)
    ensures |NatText(n)| > 0 && AllDigits(NatText(n))
    decreases n
  {
    if n >= 10 {
      NatTextDigits(n / 10);
    }
  }

  lemma {:induction false} NatTextValue(n: nat)
    ensures AllDigits(NatText(n)) && DigitsValue(NatText(n)) == n
    decreases n
  {
    NatTextDigits(n);
    if n >= 10 {
      NatTextValue(n / 10);
      var s := NatText(n);
      assert s[..|s| - 1] == NatText(n / 10);
    } else {
      assert NatText(n)[..0] == "";
    }
  }

  /** The digits of `n` read back as `n`, and hold neither a sign nor a comma. */
  lemma NatTextRoundTrip(n: nat)
    ensures ParseNat(NatText(n)) == Some(n)
    ensures NatText(n)[0] != '-' && ',' !in NatText(n)
  {
    NatTextValue(n);
    NatTextDigits(n);
    assert !IsDigit('-') && !IsDigit(',');
  }

  lemma IntTextRoundTrip(i: int)
    ensures ParseInt(IntText(i)) == Some(i)
    ensures ',' !in IntText(i)
  {
    if i < 0 {
      NatTextRoundTrip(-i);
      assert IntText(i)[1..] == NatText(-i);
    } else {
      NatTextRoundTrip(i);
    }
  }

  lemma {:induction false} IndexOfAfter(a: string, b: string, ch: char)
    requires ch !in a && |b| > 0 && b[0] == ch
    ensures IndexOf(a + b, ch) == Some(|a|)
    decreases |a|
  {
    if |a| > 0 {
      assert (a + b)[1..] == a[1..] + b;
      IndexOfAfter(a[1..], b, ch);
    }
  }

  /** Parsing `(a, b)` gives back the numbers `a` and `b` spell, when `a` holds no comma. */
  lemma ParsePair(a: string, b: string, x: int, y: int)
    requires ParseInt(a) == Some(x) && ParseInt(b) == Some(y) && ',' !in a
    ensures ParseKey("(" + a + ", " + b + ")") == Some(Cell(x, y))
  {
    var s := "(" + a + ", " + b + ")";
    var inner := s[1..|s| - 1];
    assert inner == a + (", " + b);
    IndexOfAfter(a, ", " + b, ',');
    assert inner[..|a|] == a;
    assert inner[|a| + 2..] == b;
  }

  /** The text key identifies the cell: parsing it gives the cell back. */
  lemma KeyTextRoundTrip(c: Cell)
    ensures ParseKey(KeyText(c)) == Some(c)
  {
    IntTextRoundTrip(c.x);
    IntTextRoundTrip(c.y);
    ParsePair(IntText(c.x), IntText(c.y), c.x, c.y);
  }

  /** Distinct cells never share a dictionary key, so keying the food map by cell loses nothing. */
  lemma KeyTextInjective(c: Cell, d: Cell)
    ensures KeyText(c) == KeyText(d) ==> c == d
  {
    KeyTextRoundTrip(c);
    KeyTextRoundTrip(d);
  }
}
