/**
 * The snake's body as the list of its segments' cells, head first: the
 * follow-the-leader move (`Snake.move`), the overlap test (`Snake.touchBody`),
 * growth at the tail (`Snake.eat` with `SnakePart.addBodyPart`) and the
 * direction gate of the tap and swipe handlers.
 *
 * Both versions of the game share this module: their `move`, `touchBody`,
 * `eat` and `addBodyPart` walk the same doubly linked chain the same way.
 */
module Body {
  import opened Grid

  /** Consecutive segments are on the same or on adjacent cells. */
  predicate Connected(s: seq<Cell>) {
    forall i :: 0 <= i < |s| - 1 ==> DistanceSquared(s[i], s[i + 1]) <= 1
  }

  /** Every segment follows the one before it: the head goes to `target`, the old tail cell is vacated. */
  function FollowLeader(s: seq<Cell>, target: Cell): (r: seq<Cell>)
    requires |s| > 0
    ensures |r| == |s|
  {
    [target] + s[..|s| - 1]
  }

  /**
   * `Snake.move`'s walk down the chain: each segment takes the place the
   * segment in front of it had before the move, and finally the head is put
   * on `target`.
   */
  method Shift(parts: seq<Cell>, target: Cell) returns (moved: seq<Cell>)
    requires |parts| > 0
    ensures moved == FollowLeader(parts, target)
  {
    moved := [target];
    var i := 1;
    while i < |parts|
      invariant 1 <= i <= |parts|
      invariant moved == [target] + parts[..i - 1]
    {
      assert parts[..i] == parts[..i - 1] + [parts[i - 1]];
      moved := moved + [parts[i - 1]];
      i := i + 1;
    }
  }

  /** `Snake.touchBody`: does a segment other than the head cover cell `c`? */
  method TouchBody(parts: seq<Cell>, c: Cell) returns (hit: bool)
    requires |parts| > 0
    ensures hit <==> c in parts[1..]
  {
    var i := 1;
    while i < |parts|
      invariant 1 <= i <= |parts|
      invariant c !in parts[1..i]
    {
      if parts[i] == c {
        return true;
      }
      assert parts[1..i + 1] == parts[1..i] + [parts[i]];
      i := i + 1;
    }
    assert parts[1..i] == parts[1..];
    return false;
  }

  /**
   * Where `Snake.eat` puts the new segment: on the tail's `locationFrame`.
   * `move` writes `locationFrame` for every segment except the head, so while
   * the snake is one segment long that frame is still the start cell `anchor`.
   */
  function TailLocation(parts: seq<Cell>, anchor: Cell): Cell
    requires |parts| > 0
  {
    if |parts| == 1 then anchor else parts[|parts| - 1]
  }

  /** The body after `Snake.eat`: one more segment, appended behind the tail. */
  function Grown(parts: seq<Cell>, anchor: Cell): (r: seq<Cell>)
    requires |parts| > 0
    ensures |r| == |parts| + 1 && r[..|parts|] == parts
  {
    parts + [TailLocation(parts, anchor)]
  }

  /** The move after growing leaves the whole old body in place behind the new head. */
  lemma GrowThenMove(parts: seq<Cell>, anchor: Cell, target: Cell)
    requires |parts| > 0
    ensures FollowLeader(Grown(parts, anchor), target) == [target] + parts
  {
    assert Grown(parts, anchor)[..|parts|] == parts;
  }

  /** A body whose head steps onto an adjacent cell stays connected. */
  lemma MovePreservesConnected(s: seq<Cell>, d: Direction)
    requires |s| > 0 && Connected(s)
    ensures Connected(FollowLeader(s, Step(s[0], d)))
  {
    var r := FollowLeader(s, Step(s[0], d));
    forall i | 0 <= i < |r| - 1
      ensures DistanceSquared(r[i], r[i + 1]) <= 1
    {
      if i > 0 {
        assert r[i] == s[i - 1] && r[i + 1] == s[i];
      }
    }
  }

  /** Growing keeps a body of two or more segments connected: the new segment doubles the tail. */
  lemma GrowPreservesConnected(s: seq<Cell>, anchor: Cell)
    requires |s| > 1 && Connected(s)
    ensures Connected(Grown(s, anchor))
  {
  }

  /**
   * The self-collision test runs on the head before the move, so a move onto
   * the body is seen on the next tick: it is seen exactly when the target is a
   * segment other than the vacated tail cell.
   */
  lemma CollisionSeenNextTick(s: seq<Cell>, target: Cell)
    requires |s| > 0
    ensures target in FollowLeader(s, target)[1..] <==> target in s[..|s| - 1]
  {
    assert FollowLeader(s, target)[1..] == s[..|s| - 1];
  }

  /**
   * A one-segment snake that eats on its start cell gets its new segment
   * under its own head, and the next tick reports a self-collision.
   */
  lemma AnchorGrowthCollides(head: Cell)
    ensures head in Grown([head], head)[1..]
  {
    assert Grown([head], head)[1..] == [head];
  }

  /**
   * Growth of a one-segment snake whose head has left its start cell puts the
   * new segment on that far cell, so the body is not connected until the next
   * move pulls the tail up.
   */
  lemma GrowOffAnchorDisconnects(head: Cell, anchor: Cell)
    requires DistanceSquared(head, anchor) > 1
    ensures !Connected(Grown([head], anchor))
  {
    var g := Grown([head], anchor);
    assert g[0] == head && g[1] == anchor;
    assert DistanceSquared(g[0], g[0 + 1]) > 1;
  }

  /**
   * The gate of `changeDirectionByTap` and `changeDirectionBySwipe`: with a
   * segment behind the head, a vertical request is ignored while head and
   * neck share a column, a horizontal one while they share a row.
   */
  predicate Blocked(parts: seq<Cell>, req: Direction) {
    |parts| >= 2 &&
    (if IsVertical(req) then parts[0].x == parts[1].x else parts[0].y == parts[1].y)
  }

  /** The heading after a request: the request, unless the gate blocks it. */
  function Turn(parts: seq<Cell>, current: Direction, req: Direction): (d: Direction)
    ensures d == req || d == current
    ensures |parts| < 2 ==> d == req
    ensures |parts| >= 2 && Step(parts[0], current) != parts[1] ==> Step(parts[0], d) != parts[1]
  {
    if Blocked(parts, req) then current else req
  }

  /** After a step along `current`, a perpendicular request is always honoured. */
  lemma TurnPerpendicular(parts: seq<Cell>, current: Direction, req: Direction)
    requires |parts| >= 2 && parts[0] == Step(parts[1], current)
    requires IsVertical(req) != IsVertical(current)
    ensures Turn(parts, current, req) == req
  {
  }

  /** After a step along `current`, a request on the same axis (forward or back) changes nothing. */
  lemma TurnSameAxis(parts: seq<Cell>, current: Direction, req: Direction)
    requires |parts| >= 2 && parts[0] == Step(parts[1], current)
    requires IsVertical(req) == IsVertical(current)
    ensures Turn(parts, current, req) == current
  {
  }

  /**
   * The request a tap makes, from the head-minus-tap offsets `dx`, `dy` in
   * pixels (`calcSnakeMoveDiff`): along the dominant axis, toward the tap;
   * a tap level with the head or exactly diagonal resolves to up or left.
   */
  function TapRequest(dx: real, dy: real): (r: Direction)
    ensures IsVertical(r) <==> (if dy < 0.0 then -dy else dy) > (if dx < 0.0 then -dx else dx)
    ensures r == Down ==> dy < 0.0
    ensures r == Up ==> dy >= 0.0
    ensures r == Right ==> dx < 0.0
    ensures r == Left ==> dx >= 0.0
  {
    var ax := if dx < 0.0 then -dx else dx;
    var ay := if dy < 0.0 then -dy else dy;
    if ay > ax then (if dy < 0.0 then Down else Up)
    else (if dx < 0.0 then Right else Left)
  }
}
