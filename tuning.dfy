/**
 * The game's numeric knobs: the clamped spawn interval and snake speed, the
 * enemy-chance ratio, the boss counters and the final score. Swift `Double`
 * arithmetic is modelled over exact `real`s.
 */
module Tuning {

  const InitialSpawnTime: real := 1.6
  const MinSpawnTime: real := 0.3
  const MinSpeed: real := 0.2
  /** Starting move interval of the snake, newer and older game. */
  const ArenaSpeed: real := 0.72
  const ClassicSpeed: real := 0.78
  const MaxEnemyRatio: real := 0.44
  /** Boss schedule: seconds without a boss before one comes, hits to kill it and their cap. */
  const BossSpawnTime: nat := 40
  const InitialKillTarget: nat := 12
  const MaxKillTarget: nat := 28
  const BossBonus: nat := 500
  const InitialBossMoveTime: real := 0.44

  function Max(a: real, b: real): real {
    if a >= b then a else b
  }

  function Min(a: real, b: real): real {
    if a <= b then a else b
  }

  /** `max(spawnTime, 0.3)` then `min(spawnTime, 1.6)` in `didEatFood`. */
  function ClampSpawnTime(v: real): (r: real)
    ensures MinSpawnTime <= r <= InitialSpawnTime
    ensures MinSpawnTime <= v <= InitialSpawnTime ==> r == v
    ensures v < MinSpawnTime ==> r == MinSpawnTime
    ensures v > InitialSpawnTime ==> r == InitialSpawnTime
  {
    Min(Max(v, MinSpawnTime), InitialSpawnTime)
  }

  /** `max(moveSpeed, 0.2)` then `min(moveSpeed, initialSpeed)` in `eatFood`. */
  function ClampSpeed(v: real, initial: real): (r: real)
    requires MinSpeed <= initial
    ensures MinSpeed <= r <= initial
    ensures MinSpeed <= v <= initial ==> r == v
    ensures v < MinSpeed ==> r == MinSpeed
    ensures v > initial ==> r == initial
  {
    Min(Max(v, MinSpeed), initial)
  }

  /** `v * 0.96^n`: the source's regular-food speed factor applied `n` times. */
  function SpeedDecay(v: real, n: nat): real {
    if n == 0 then v else SpeedDecay(v, n - 1) * 0.96
  }

  /** `s * 0.98^n`: the source's regular-food spawn multiplier applied `n` times. */
  function SpawnDecay(s: real, n: nat): real {
    if n == 0 then s else SpawnDecay(s, n - 1) * 0.98
  }

  lemma {:induction false} SpeedDecayBounds(v: real, n: nat)
    requires 0.0 <= v
    ensures 0.0 <= SpeedDecay(v, n) <= v
  {
    if n > 0 {
      var m: nat := n - 1;
      SpeedDecayBounds(v, m);
    }
  }

  lemma {:induction false} SpawnDecayBounds(s: real, n: nat)
    requires 0.0 <= s
    ensures 0.0 <= SpawnDecay(s, n) <= s
  {
    if n > 0 {
      var m: nat := n - 1;
      SpawnDecayBounds(s, m);
    }
  }

  /** The speed after `n` regular foods in a row, each a `* 0.96` then the clamp. */
  function SpeedAfterRegular(v: real, initial: real, n: nat): real
    requires MinSpeed <= initial
  {
    if n == 0 then v else ClampSpeed(SpeedAfterRegular(v, initial, n - 1) * 0.96, initial)
  }

  /**
   * Regular food compounds: starting from a speed in range, `n` regular foods
   * give `v * 0.96^n`, floored at the minimum interval; the upper clamp never acts.
   */
  lemma {:induction false} SpeedAfterRegularIsGeometric(v: real, initial: real, n: nat)
    requires MinSpeed <= v <= initial
    ensures SpeedAfterRegular(v, initial, n) == Max(SpeedDecay(v, n), MinSpeed)
  {
    if n > 0 {
      var m: nat := n - 1;
      SpeedAfterRegularIsGeometric(v, initial, m);
      SpeedDecayBounds(v, m);
    }
  }

  /** The spawn interval after `n` regular foods in a row, each a `* 0.98` then the clamp. */
  function SpawnTimeAfterRegular(s: real, n: nat): real {
    if n == 0 then s else ClampSpawnTime(SpawnTimeAfterRegular(s, n - 1) * 0.98)
  }

  lemma {:induction false} SpawnTimeAfterRegularIsGeometric(s: real, n: nat)
    requires MinSpawnTime <= s <= InitialSpawnTime
    ensures SpawnTimeAfterRegular(s, n) == Max(SpawnDecay(s, n), MinSpawnTime)
  {
    if n > 0 {
      var m: nat := n - 1;
      SpawnTimeAfterRegularIsGeometric(s, m);
      SpawnDecayBounds(s, m);
    }
  }

  // ---------------------------------------------------------------------------
  // Enemy-chance ratio

  /** The per-second `* 1.01` with the cap. */
  function PerSecondRatio(r: real): (r': real)
    ensures 0.0 <= r <= MaxEnemyRatio ==> r <= r' <= MaxEnemyRatio
    ensures r' <= MaxEnemyRatio
  {
    Min(r * 1.01, MaxEnemyRatio)
  }

  /** `isFoodThere`: `+ 0.005` when the looked-up cell holds food, then the cap. */
  function QueryRatio(r: real, found: bool): (r': real)
    ensures 0.0 <= r <= MaxEnemyRatio ==> r <= r' <= MaxEnemyRatio
    ensures r <= MaxEnemyRatio && !found ==> r' == r
    ensures r' <= MaxEnemyRatio
  {
    Min(r + (if found then 0.005 else 0.0), MaxEnemyRatio)
  }

  /** Choosing an enemy damps the ratio by `* 0.88`. */
  function EnemyPickedRatio(r: real): (r': real)
    ensures 0.0 < r ==> 0.0 < r' < r
  {
    r * 0.88
  }

  /** The three things that change the ratio while a game runs. */
  datatype RatioEvent = Second | Query(found: bool) | EnemyPicked

  function RatioAfter(r: real, evs: seq<RatioEvent>): real
    decreases |evs|
  {
    if |evs| == 0 then r
    else
      var r' := match evs[0]
        case Second => PerSecondRatio(r)
        case Query(found) => QueryRatio(r, found)
        case EnemyPicked => EnemyPickedRatio(r);
      RatioAfter(r', evs[1..])
  }

  /** Whatever happens, a ratio that starts in [0, 0.44] stays there. */
  lemma {:induction false} RatioStaysBounded(r: real, evs: seq<RatioEvent>)
    requires 0.0 <= r <= MaxEnemyRatio
    ensures 0.0 <= RatioAfter(r, evs) <= MaxEnemyRatio
    decreases |evs|
  {
    if |evs| > 0 {
      var r' := match evs[0]
        case Second => PerSecondRatio(r)
        case Query(found) => QueryRatio(r, found)
        case EnemyPicked => EnemyPickedRatio(r);
      RatioStaysBounded(r', evs[1..]);
    }
  }

  /**
   * The ratio starts each game at 0 and the per-second growth is a product, so
   * until the snake finds food on a cell no enemy can be chosen.
   */
  lemma {:induction false} RatioZeroUntilFood(evs: seq<RatioEvent>)
    requires forall i :: 0 <= i < |evs| ==> evs[i] != Query(true)
    ensures RatioAfter(0.0, evs) == 0.0
    decreases |evs|
  {
    if |evs| > 0 {
      RatioZeroUntilFood(evs[1..]);
    }
  }

  // ---------------------------------------------------------------------------
  // Boss counters and score

  /** `timeForBoss` on the per-second tick: counts up without a boss, is 0 while one exists. */
  function NextTimeForBoss(t: nat, bossPresent: bool): (r: nat)
    ensures bossPresent <==> r == 0
    ensures !bossPresent ==> r == t + 1
  {
    if bossPresent then 0 else t + 1
  }

  /** `numToKillBoss` after a kill: two more hits, at most 28. */
  function NextKillTarget(n: nat): (r: nat)
    ensures n <= MaxKillTarget ==> n <= r <= MaxKillTarget
    ensures n + 2 <= MaxKillTarget ==> r == n + 2
  {
    if n + 2 <= MaxKillTarget then n + 2 else MaxKillTarget
  }

  function KillTargetAfter(kills: nat): nat {
    if kills == 0 then InitialKillTarget else NextKillTarget(KillTargetAfter(kills - 1))
  }

  /** The `k`-th boss needs `12 + 2k` hits, until the cap of 28 from the eighth kill on. */
  lemma {:induction false} KillTargetSchedule(kills: nat)
    ensures KillTargetAfter(kills) == if 12 + 2 * kills <= 28 then 12 + 2 * kills else 28
  {
    if kills > 0 {
      KillTargetSchedule(kills - 1);
    }
  }

  /** `bossMoveTime` after a kill: 0.05 s faster, but never faster than the snake's interval less 0.08. */
  function NextBossMoveTime(b: real, moveSpeed: real): (r: real)
    ensures r >= moveSpeed - 0.08 && r >= b - 0.05
    ensures r == moveSpeed - 0.08 || r == b - 0.05
  {
    Max(b - 0.05, moveSpeed - 0.08)
  }

  /** While the snake's interval stays in [0.2, 0.72], the boss interval stays in [0.12, 0.64] once it started at 0.44. */
  lemma BossMoveTimeBounded(b: real, moveSpeed: real)
    requires 0.12 <= b <= 0.64 && MinSpeed <= moveSpeed <= ArenaSpeed
    ensures 0.12 <= NextBossMoveTime(b, moveSpeed) <= 0.64
  {
  }

  /** The popup's score: `Int(Double((1 + count) * time) * 1.2)` plus the bonus. */
  function Score(count: nat, time: nat, bonus: nat): (s: int)
    ensures s >= bonus
    ensures time == 0 ==> s == bonus
  {
    (((1 + count) * time) as real * 1.2).Floor + bonus
  }

  /** More food, more time or more bonus never lowers the score. */
  lemma ScoreMonotone(c1: nat, t1: nat, b1: nat, c2: nat, t2: nat, b2: nat)
    requires c1 <= c2 && t1 <= t2 && b1 <= b2
    ensures Score(c1, t1, b1) <= Score(c2, t2, b2)
  {
    assert (1 + c1) * t1 <= (1 + c2) * t2 by {
      assert (1 + c1) * t1 <= (1 + c2) * t1;
    }
  }
}
