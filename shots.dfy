/**
 * Bullets: who fired them, where they are, the `bullets` list that
 * `Snake.fire` keeps, the scan for a bullet the stepping one runs into, and
 * what happens to both when two bullets meet.
 */
module Shots {
  import opened Wrappers
  import opened Grid

  /** Whose gun fired a bullet: it decides the collision handler and whether the bullet can kill the snake. */
  datatype Shooter = Player | EnemyGun | BossGun

  /** One bullet: its current cell, its fixed heading and its shooter. */
  datatype Shot = Shot(at: Cell, heading: Direction, from: Shooter)

  /** `killSnake`: enemy and boss bullets are lethal, the player's are not. */
  predicate KillsSnake(s: Shot) {
    s.from != Player
  }

  /**
   * The collision handlers' bounds test: a bullet is retired once it is more
   * than a cell beyond the left or top edge, or beyond the container's extent
   * `reachX` by `reachY` (in cells) on the right or bottom.
   */
  predicate OutOfReach(c: Cell, reachX: int, reachY: int) {
    c.x < -1 || c.x > reachX || c.y < -1 || c.y > reachY
  }

  predicate Distinct(s: seq<nat>) {
    forall i, j :: 0 <= i < j < |s| ==> s[i] != s[j]
  }

  /** `bullets.remove(at:)` at `bullets.firstIndex(of: b)`, nothing when `b` is absent. */
  function Without(s: seq<nat>, b: nat): (r: seq<nat>)
    ensures b !in s ==> r == s
    ensures b in s ==> |r| == |s| - 1
    ensures forall x :: x in r ==> x in s
    ensures forall x :: x in s && x != b ==> x in r
  {
    if |s| == 0 then s
    else if s[0] == b then s[1..]
    else [s[0]] + Without(s[1..], b)
  }

  /** A fresh element in front of a repeat-free list keeps it free of repeats. */
  lemma DistinctCons(x: nat, s: seq<nat>)
    requires x !in s && Distinct(s)
    ensures Distinct([x] + s)
  {
    var r := [x] + s;
    forall i, j | 0 <= i < j < |r|
      ensures r[i] != r[j]
    {
      assert r[j] == s[j - 1];
      if i > 0 {
        assert r[i] == s[i - 1];
      }
    }
  }

  /** Removal keeps the list free of repeats and takes out exactly the removed bullet. */
  lemma {:induction false} WithoutDistinct(s: seq<nat>, b: nat)
    requires Distinct(s)
    ensures Distinct(Without(s, b)) && b !in Without(s, b)
    decreases |s|
  {
    if |s| > 0 {
      var t := s[1..];
      assert Distinct(t) by {
        forall i, j | 0 <= i < j < |t|
          ensures t[i] != t[j]
        {
          assert t[i] == s[i + 1] && t[j] == s[j + 1];
        }
      }
      assert s[0] !in t by {
        forall k | 0 <= k < |t|
          ensures t[k] != s[0]
        {
          assert t[k] == s[k + 1];
        }
      }
      WithoutDistinct(t, b);
      if s[0] != b {
        DistinctCons(s[0], Without(t, b));
      }
    }
  }

  /** The first bullet in list order, other than `id`, sitting on `at`: the `for fire in bullets` scan. */
  function FirstCollider(bullets: seq<nat>, shots: map<nat, Shot>, id: nat, at: Cell): (r: Option<nat>)
    requires forall b :: b in bullets ==> b in shots
    ensures r.Some? ==> r.value in bullets && r.value != id && shots[r.value].at == at
    ensures r.None? <==> forall b :: b in bullets && b != id ==> shots[b].at != at
  {
    if |bullets| == 0 then None
    else if bullets[0] != id && shots[bullets[0]].at == at then Some(bullets[0])
    else FirstCollider(bullets[1..], shots, id, at)
  }

  /** The scan as `Snake.fire`'s timer runs it, stopping at the first overlap. */
  method FindCollider(bullets: seq<nat>, shots: map<nat, Shot>, id: nat, at: Cell) returns (r: Option<nat>)
    requires forall b :: b in bullets ==> b in shots
    ensures r == FirstCollider(bullets, shots, id, at)
  {
    var i := 0;
    while i < |bullets|
      invariant 0 <= i <= |bullets|
      invariant FirstCollider(bullets, shots, id, at) == FirstCollider(bullets[i..], shots, id, at)
    {
      var fire := bullets[i];
      if fire != id && shots[fire].at == at {
        return Some(fire);
      }
      assert bullets[i..][1..] == bullets[i + 1..];
      i := i + 1;
    }
    return None;
  }

  /**
   * Every bullet whose timer still runs is in the `bullets` list, so the
   * per-step scans (a lethal bullet's head check, the bullet-against-bullet
   * scan) see all live bullets.
   */
  predicate Tracked(flying: set<nat>, bullets: seq<nat>) {
    forall b :: b in flying ==> b in bullets
  }

  /** When bullet `b` runs into `other`, the source stops only `b`'s timer. */
  function AnnihilatedAsWritten(flying: set<nat>, b: nat, other: nat): set<nat> {
    flying - {b}
  }

  /** Both bullets stop, matching their removal from the list and from the board. */
  function Annihilated(flying: set<nat>, b: nat, other: nat): (r: set<nat>)
    ensures b !in r && other !in r && r <= flying
  {
    flying - {b, other}
  }

  /** Annihilation with both timers stopped keeps every live bullet in the list. */
  lemma AnnihilatedKeepsTracked(flying: set<nat>, bullets: seq<nat>, b: nat, other: nat)
    requires Distinct(bullets) && Tracked(flying, bullets)
    ensures Tracked(Annihilated(flying, b, other), Without(Without(bullets, b), other))
  {
    WithoutDistinct(bullets, b);
    WithoutDistinct(Without(bullets, b), other);
  }

  /**
   * As written, the bullet that was run into keeps flying after it has left
   * the list and the board: it is removed from view yet still moves, and can
   * still strike food or the boss and re-arm firing when it finishes.
   */
  lemma AnnihilationAsWrittenLeavesGhost(flying: set<nat>, bullets: seq<nat>, b: nat, other: nat)
    requires Distinct(bullets) && b != other && other in flying
    ensures var f := AnnihilatedAsWritten(flying, b, other);
            var l := Without(Without(bullets, b), other);
            other in f && other !in l && !Tracked(f, l)
  {
    WithoutDistinct(bullets, b);
    WithoutDistinct(Without(bullets, b), other);
  }
}
