/**
 * The newer game (the `Board` and `Snake` classes of
 * Snake/ViewControllers/BoardContainerViewController.swift): a snake that
 * eats, grows and shoots, food that can be an enemy that shoots back, and a
 * boss that arrives after forty food-spawning seconds.
 *
 * Every timer of the source becomes an event method the environment calls:
 * the one-second clock (`SecondTick`), the snake's movement timer
 * (`MovementTick`, while `snake.moving`), the food spawn timer (`SpawnTick`,
 * while `spawning`), a bullet's timer (`BulletStep`, while its id is in
 * `snake.flying`), the boss's arrival and timer (`BossArrive`, `BossTick`)
 * and the delayed closures (`Rearm`, `BossResume`, `ShowLostPopup`), each
 * allowed only while a counter of pending calls is positive. Random draws and
 * the dictionary's iteration order are parameters.
 */
module Arena {
  import opened Wrappers
  import opened Grid
  import opened Body
  import opened Tuning
  import opened Food
  import opened Shots

  /** `bossData` without its timer and image: the boss's top-left cell and the hits it has taken. */
  datatype BossState = BossState(at: Cell, hits: nat)

  /** The state of a `Snake` that the game logic reads. */
  datatype SnakeView = SnakeView(
    parts: seq<Cell>, direction: Direction, moveSpeed: real, moving: bool,
    allowFire: bool, bullets: seq<nat>, shots: map<nat, Shot>, flying: set<nat>,
    nextShot: nat, rearms: nat)

  /**
   * The bullet bookkeeping: the list holds each bullet once, every listed or
   * flying bullet has a position, every bullet with a running timer is still
   * listed, and the next id is fresh.
   */
  predicate GunValid(v: SnakeView) {
    Distinct(v.bullets)
    && (forall b :: b in v.bullets ==> b in v.shots)
    && v.flying <= v.shots.Keys
    && Tracked(v.flying, v.bullets)
    && (forall b :: b in v.shots ==> b < v.nextShot)
  }

  /**
   * `Snake.fire`: nothing while firing is blocked; otherwise a new bullet is
   * listed and starts flying from `from`. The player's bullet follows the
   * snake's heading and blocks further shots until a re-arm; an enemy's or the
   * boss's flies along `aim` and leaves firing allowed.
   */
  function FireView(v: SnakeView, from: Cell, shooter: Shooter, aim: Direction): (r: SnakeView)
    ensures v.allowFire ==> && r.flying == v.flying + {v.nextShot} && r.nextShot == v.nextShot + 1
                            && r.shots == v.shots[v.nextShot := Shot(from, if shooter == Player then v.direction else aim, shooter)]
                            && r.allowFire == (shooter != Player)
  {
    if !v.allowFire then v
    else
      var id := v.nextShot;
      v.(bullets := v.bullets + [id],
         allowFire := shooter != Player,
         shots := v.shots[id := Shot(from, if shooter == Player then v.direction else aim, shooter)],
         flying := v.flying + {id},
         nextShot := id + 1)
  }

  /** A shot keeps the bookkeeping consistent, and adds exactly one new flying bullet when allowed. */
  lemma FireKeepsGun(v: SnakeView, from: Cell, shooter: Shooter, aim: Direction)
    requires GunValid(v)
    ensures var r := FireView(v, from, shooter, aim);
      && GunValid(r)
      && (v.allowFire ==> v.nextShot !in v.shots && r.flying == v.flying + {v.nextShot}
                          && r.shots[v.nextShot].at == from && r.allowFire == (shooter != Player))
      && (!v.allowFire ==> r == v)
  {
    if v.allowFire {
      var r := FireView(v, from, shooter, aim);
      assert v.nextShot !in v.bullets;
      forall i, j | 0 <= i < j < |r.bullets|
        ensures r.bullets[i] != r.bullets[j]
      {
        if j < |v.bullets| {
          assert r.bullets[i] == v.bullets[i] && r.bullets[j] == v.bullets[j];
        } else {
          assert r.bullets[i] == v.bullets[i];
        }
      }
    }
  }

  /**
   * `enamyShot`: every damaged enemy, in the dictionary's iteration order
   * `order`, fires a lethal bullet along its draw in `aims`.
   */
  function VolleyView(v: SnakeView, order: seq<Cell>, aims: seq<Direction>): SnakeView
    requires |order| == |aims|
    decreases |order|
  {
    if |order| == 0 then v
    else
      var n := |order| - 1;
      FireView(VolleyView(v, order[..n], aims[..n]), order[n], EnemyGun, aims[n])
  }

  /**
   * A volley keeps the bookkeeping consistent and touches nothing but the
   * bullets: it adds one id per damaged enemy when firing is allowed, and
   * nothing while a player's shot blocks firing.
   */
  lemma {:induction false} VolleyKeeps(v: SnakeView, order: seq<Cell>, aims: seq<Direction>)
    requires |order| == |aims| && GunValid(v)
    ensures var r := VolleyView(v, order, aims);
      && GunValid(r)
      && r.parts == v.parts && r.direction == v.direction && r.moveSpeed == v.moveSpeed
      && r.moving == v.moving && r.rearms == v.rearms
      && (!v.allowFire ==> r == v)
      && (v.allowFire ==> r.allowFire && r.nextShot == v.nextShot + |order|)
    decreases |order|
  {
    if |order| > 0 {
      var n := |order| - 1;
      VolleyKeeps(v, order[..n], aims[..n]);
      FireKeepsGun(VolleyView(v, order[..n], aims[..n]), order[n], EnemyGun, aims[n]);
    }
  }

  /** Bullets `first` onwards fly from the cells of `order` along `aims`, one id each in order. */
  ghost predicate VolleyFlying(r: SnakeView, first: nat, order: seq<Cell>, aims: seq<Direction>)
    requires |order| == |aims|
  {
    forall id :: first <= id < first + |order| ==>
      id in r.flying && id in r.shots && r.shots[id] == Shot(order[id - first], aims[id - first], EnemyGun)
  }

  /** The last enemy's shot extends the volley of the others by the next id. */
  lemma VolleyStep(w: SnakeView, first: nat, order: seq<Cell>, aims: seq<Direction>)
    requires |order| == |aims| > 0 && w.allowFire && w.nextShot == first + |order| - 1
    requires VolleyFlying(w, first, order[..|order| - 1], aims[..|order| - 1])
    ensures VolleyFlying(FireView(w, order[|order| - 1], EnemyGun, aims[|order| - 1]), first, order, aims)
  {
    var n := |order| - 1;
    var r := FireView(w, order[n], EnemyGun, aims[n]);
    forall id | first <= id < first + |order|
      ensures id in r.flying && id in r.shots && r.shots[id] == Shot(order[id - first], aims[id - first], EnemyGun)
    {
      if id < w.nextShot {
        assert order[..n][id - first] == order[id - first];
        assert aims[..n][id - first] == aims[id - first];
      }
    }
  }

  /**
   * When firing is allowed, the volley's bullets are numbered in visiting
   * order, each flying from its enemy's cell along its draw, and firing stays
   * allowed.
   */
  lemma {:induction false} VolleyEffect(v: SnakeView, order: seq<Cell>, aims: seq<Direction>)
    requires |order| == |aims| && v.allowFire
    ensures var r := VolleyView(v, order, aims);
      && r.allowFire && r.nextShot == v.nextShot + |order|
      && VolleyFlying(r, v.nextShot, order, aims)
    decreases |order|
  {
    if |order| > 0 {
      var n := |order| - 1;
      VolleyEffect(v, order[..n], aims[..n]);
      VolleyStep(VolleyView(v, order[..n], aims[..n]), v.nextShot, order, aims);
    }
  }

  // ---------------------------------------------------------------------------
  // One step of a bullet

  /**
   * The bullet's timer moves it along its heading, by one cell in the model
   * (the source moves it `bodySize`, ten pixels short of a cell).
   */
  function AdvancedView(v: SnakeView, id: nat): (r: SnakeView)
    requires id in v.shots
    ensures r.shots.Keys == v.shots.Keys
    ensures r.shots[id].at == Step(v.shots[id].at, v.shots[id].heading)
    ensures r.shots[id].heading == v.shots[id].heading && r.shots[id].from == v.shots[id].from
    ensures forall b :: b in v.shots && b != id ==> r.shots[b] == v.shots[b]
    ensures r.(shots := v.shots) == v
  {
    var s := v.shots[id];
    v.(shots := v.shots[id := s.(at := Step(s.at, s.heading))])
  }

  /** A lethal bullet on the head: firing is allowed again and the movement timer stops. */
  function StruckView(v: SnakeView): SnakeView {
    v.(allowFire := true, moving := false)
  }

  /** Two bullets meet: the corrected annihilation stops both and schedules one re-arm. */
  function CollidedView(v: SnakeView, id: nat, other: nat): SnakeView {
    v.(flying := Annihilated(v.flying, id, other),
       bullets := Without(Without(v.bullets, id), other),
       rearms := v.rearms + 1)
  }

  /** A bullet that is done: off the list, timer stopped, one re-arm scheduled. */
  function RetiredView(v: SnakeView, id: nat): SnakeView {
    v.(flying := v.flying - {id}, bullets := Without(v.bullets, id), rearms := v.rearms + 1)
  }

  /** A bullet stepped after the loss: only its timer stops. */
  function HaltedView(v: SnakeView, id: nat): SnakeView {
    v.(flying := v.flying - {id})
  }

  /** After two bullets meet, neither flies or is listed any more, and the bookkeeping holds. */
  lemma CollideKeepsGun(v: SnakeView, id: nat, other: nat)
    requires GunValid(v)
    ensures var r := CollidedView(v, id, other);
      GunValid(r) && id !in r.flying && other !in r.flying && id !in r.bullets && other !in r.bullets
  {
    WithoutDistinct(v.bullets, id);
    WithoutDistinct(Without(v.bullets, id), other);
    AnnihilatedKeepsTracked(v.flying, v.bullets, id, other);
  }

  /** Two bullets meet as `Snake.fire`'s timer is written: only the stepping bullet's timer stops. */
  function CollidedViewAsWritten(v: SnakeView, id: nat, other: nat): SnakeView {
    v.(flying := AnnihilatedAsWritten(v.flying, id, other),
       bullets := Without(Without(v.bullets, id), other),
       rearms := v.rearms + 1)
  }

  /** As written, the bullet that was run into keeps flying unlisted, and the bookkeeping breaks. */
  lemma CollideAsWrittenBreaksGun(v: SnakeView, id: nat, other: nat)
    requires GunValid(v) && id != other && other in v.flying
    ensures var r := CollidedViewAsWritten(v, id, other);
      other in r.flying && other !in r.bullets && !GunValid(r)
  {
    AnnihilationAsWrittenLeavesGhost(v.flying, v.bullets, id, other);
  }

  /** A retired bullet neither flies nor is listed, every other bullet is untouched, and the bookkeeping holds. */
  lemma RetireKeepsGun(v: SnakeView, id: nat)
    requires GunValid(v)
    ensures var r := RetiredView(v, id);
      GunValid(r) && id !in r.flying && id !in r.bullets
      && (forall b :: b in v.flying && b != id ==> b in r.flying && b in r.bullets)
  {
    WithoutDistinct(v.bullets, id);
  }

  /** What one step does to a bullet, in the order `Snake.fire`'s timer and the handlers test it. */
  datatype Fate =
    | HitSnake          // a lethal bullet on the head: the game is lost
    | Collided(other: nat) // it met another listed bullet
    | BodyBlocked       // it reached a body segment
    | Stopped           // the game was already lost
    | OffField          // it left the field
    | BossStruck        // a player's or enemy's bullet reached the boss
    | FoodStruck        // it reached food
    | Flies             // nothing there

  /**
   * The fate of bullet `id` in the view `v` taken just after its step (so
   * `v.shots[id].at` is its new cell); `lost`, `boss` and `food` are the
   * board's.
   */
  function FateOf(v: SnakeView, id: nat, lost: bool, boss: Option<BossState>, food: FoodMap,
                  reachX: int, reachY: int): (f: Fate)
    requires GunValid(v) && id in v.shots && |v.parts| > 0
    ensures f == HitSnake ==> KillsSnake(v.shots[id]) && v.shots[id].at == v.parts[0]
    ensures f.Collided? ==> f.other != id && f.other in v.bullets && v.shots[f.other].at == v.shots[id].at
    ensures f == BossStruck ==> boss.Some? && v.shots[id].from != BossGun
    ensures f == FoodStruck ==> v.shots[id].at in food
    ensures !lost && f != HitSnake && !f.Collided? && f != BodyBlocked ==> f != Stopped
  {
    var s := v.shots[id];
    if id in v.bullets && s.at == v.parts[0] && KillsSnake(s) then HitSnake
    else match FirstCollider(v.bullets, v.shots, id, s.at)
      case Some(o) => Collided(o)
      case None =>
        if s.at in v.parts[1..] then BodyBlocked
        else if lost then Stopped
        else if OutOfReach(s.at, reachX, reachY) then OffField
        else if s.from != BossGun && boss.Some? && InBossFrame(s.at, boss.value.at) then BossStruck
        else if s.at in food then FoodStruck
        else Flies
  }

  /** The snake's side of a step, `v` being the view after the move. */
  function ShotAfter(v: SnakeView, id: nat, f: Fate): SnakeView {
    match f
    case HitSnake => StruckView(v)
    case Collided(o) => CollidedView(v, id, o)
    case Stopped => HaltedView(v, id)
    case Flies => v
    case _ => RetiredView(v, id)
  }

  /**
   * The player's bullets never hurt the snake, the boss's never hurt the boss,
   * and every bullet but a lethal one on the head or an unobstructed one stops
   * flying.
   */
  lemma FateFacts(v: SnakeView, id: nat, lost: bool, boss: Option<BossState>, food: FoodMap,
                  reachX: int, reachY: int)
    requires GunValid(v) && id in v.shots && id in v.flying && |v.parts| > 0
    ensures var f := FateOf(v, id, lost, boss, food, reachX, reachY);
      && (v.shots[id].from == Player ==> f != HitSnake)
      && (v.shots[id].from == BossGun ==> f != BossStruck)
      && (id in ShotAfter(v, id, f).flying <==> f == HitSnake || f == Flies)
      && (lost ==> f != Flies && f != OffField && f != BossStruck && f != FoodStruck)
  {
  }

  class Snake {
    /** The segments' cells, head first. */
    var parts: seq<Cell>
    /** The start cell: the head's `locationFrame`, which `move` never rewrites. */
    const anchor: Cell
    var direction: Direction
    /** The movement timer's interval. */
    var moveSpeed: real
    const initialSpeed: real
    /** Whether the movement timer runs. */
    var moving: bool
    var allowFire: bool
    /** The `bullets` list, by id. */
    var bullets: seq<nat>
    /** Where each bullet ever fired is, and how it flies. */
    var shots: map<nat, Shot>
    /** The bullets whose timer runs. */
    var flying: set<nat>
    var nextShot: nat
    /** Delayed `allowFire = true` closures not yet run. */
    var rearms: nat

    ghost function View(): SnakeView
      reads this
    {
      SnakeView(parts, direction, moveSpeed, moving, allowFire, bullets, shots, flying, nextShot, rearms)
    }

    ghost predicate Valid()
      reads this
    {
      |parts| > 0 && MinSpeed <= initialSpeed && MinSpeed <= moveSpeed <= initialSpeed
      && GunValid(View())
    }

    /** `Snake.init`: one segment on `start`; the heading is the source's random draw. */
    constructor (start: Cell, speed: real, heading: Direction)
      requires MinSpeed <= speed
      ensures Valid() && anchor == start && initialSpeed == speed
      ensures View() == SnakeView([start], heading, speed, false, true, [], map[], {}, 0, 0)
    {
      parts := [start];
      anchor := start;
      direction := heading;
      moveSpeed := speed;
      initialSpeed := speed;
      moving := false;
      allowFire := true;
      bullets := [];
      shots := map[];
      flying := {};
      nextShot := 0;
      rearms := 0;
    }

    /** `startMoving`. */
    method StartMoving()
      requires Valid()
      modifies this
      ensures Valid() && View() == old(View()).(moving := true)
    {
      moving := true;
    }

    /** `move(to:)`: every segment follows the one in front of it, the head goes to `target`. */
    method Move(target: Cell)
      requires Valid()
      modifies this
      ensures Valid() && View() == old(View()).(parts := FollowLeader(old(parts), target))
    {
      parts := Shift(parts, target);
    }

    /** `eat(imageView:)`: a new segment behind the tail. */
    method Eat()
      requires Valid()
      modifies this
      ensures Valid() && View() == old(View()).(parts := Grown(old(parts), anchor))
    {
      parts := parts + [TailLocation(parts, anchor)];
    }

    /**
     * The snake's half of `eatFood`: the movement timer stops; regular and
     * slow food add a segment; enemies are fatal and leave the speed alone;
     * otherwise the speed factor is applied and clamped and the timer restarts.
     */
    method EatFood(kind: FoodKind) returns (fatal: bool)
      requires Valid()
      modifies this
      ensures Valid()
      ensures fatal <==> Fatal(kind)
      ensures var grown := if Grows(kind) then Grown(old(parts), anchor) else old(parts);
        View() == old(View()).(parts := grown, moving := !fatal,
          moveSpeed := if fatal then old(moveSpeed) else ClampSpeed(old(moveSpeed) * SpeedFactor(kind), initialSpeed))
    {
      moving := false;
      if Grows(kind) {
        Eat();
      } else if Fatal(kind) {
        return true;
      }
      moveSpeed := ClampSpeed(moveSpeed * SpeedFactor(kind), initialSpeed);
      moving := true;
      fatal := false;
    }

    /** A tap or swipe asking for heading `req`, gated as `Turn` says. */
    method Steer(req: Direction)
      requires Valid()
      modifies this
      ensures Valid() && View() == old(View()).(direction := Turn(old(parts), old(direction), req))
    {
      direction := Turn(parts, direction, req);
    }

    /** `fire(from:...)`. */
    method Fire(from: Cell, shooter: Shooter, aim: Direction)
      requires Valid()
      modifies this
      ensures Valid() && View() == FireView(old(View()), from, shooter, aim)
    {
      FireKeepsGun(View(), from, shooter, aim);
      if !allowFire {
        return;
      }
      var id := nextShot;
      bullets := bullets + [id];
      allowFire := shooter != Player;
      var heading := if shooter == Player then direction else aim;
      shots := shots[id := Shot(from, heading, shooter)];
      flying := flying + {id};
      nextShot := id + 1;
    }

    /** One of the delayed `allowFire = true` closures runs. */
    method Rearm()
      requires Valid() && rearms > 0
      modifies this
      ensures Valid() && View() == old(View()).(allowFire := true, rearms := old(rearms) - 1)
    {
      allowFire := true;
      rearms := rearms - 1;
    }

    /** A bullet's timer fires: the bullet moves one cell along its heading (`AdvancedView`). */
    method Advance(id: nat)
      requires Valid() && id in flying
      modifies this
      ensures Valid() && View() == AdvancedView(old(View()), id)
    {
      var s := shots[id];
      shots := shots[id := s.(at := Step(s.at, s.heading))];
    }

    /** A lethal bullet reached the head: firing is re-allowed and the movement timer stops. */
    method Struck()
      requires Valid()
      modifies this
      ensures Valid() && View() == StruckView(old(View()))
    {
      allowFire := true;
      moving := false;
    }

    /** The movement timer is invalidated. */
    method Stop()
      requires Valid()
      modifies this
      ensures Valid() && View() == old(View()).(moving := false)
    {
      moving := false;
    }

    /** The egg branch of the movement timer: firing is blocked and the movement timer stops. */
    method EggTouched()
      requires Valid()
      modifies this
      ensures Valid() && View() == old(View()).(allowFire := false, moving := false)
    {
      allowFire := false;
      moving := false;
    }

    /**
     * Bullet `id` ran into bullet `other`: both leave the list, a re-arm is
     * scheduled, and both timers stop, the corrected annihilation
     * (`CollidedViewAsWritten` is the source's, which stops only `id`).
     */
    method Collide(id: nat, other: nat)
      requires Valid()
      modifies this
      ensures Valid() && View() == CollidedView(old(View()), id, other)
    {
      CollideKeepsGun(View(), id, other);
      flying := Annihilated(flying, id, other);
      bullets := Without(Without(bullets, id), other);
      rearms := rearms + 1;
      assert View() == CollidedView(old(View()), id, other);
    }

    /** Bullet `id` is finished: its timer stops, it leaves the list and a re-arm is scheduled. */
    method Retire(id: nat)
      requires Valid()
      modifies this
      ensures Valid() && View() == RetiredView(old(View()), id)
    {
      RetireKeepsGun(View(), id);
      flying := flying - {id};
      bullets := Without(bullets, id);
      rearms := rearms + 1;
    }

    /** Bullet `id`'s timer stops after the game is lost; it stays in the list and nothing is re-armed. */
    method Halt(id: nat)
      requires Valid()
      modifies this
      ensures Valid() && View() == HaltedView(old(View()), id)
    {
      flying := flying - {id};
    }
  }

  // ---------------------------------------------------------------------------
  // The board

  /**
   * The game variables of a `Board`, apart from its snake: the food
   * dictionary, the counters, the boss's data and the bookkeeping of its
   * timers and delayed closures.
   */
  datatype BoardState = BoardState(
    food: FoodMap, count: nat, time: nat, ticks: nat, lost: bool, bonusScore: nat,
    spawnTime: real, enemyChanceRatio: real, boss: Option<BossState>, bossPending: bool,
    bossTimerLive: bool, numToKillBoss: nat, bossMoveTime: real, skipMove: bool,
    bossResumes: nat, timeForBoss: nat, spawning: bool, clockRunning: bool,
    popups: nat, popupScore: Option<int>)

  /** The board's `didLose` closure: the boss timer stops, the game is lost, the popup is scheduled. */
  function AfterLoss(b: BoardState): (r: BoardState)
    ensures r.lost && !r.bossTimerLive && r.popups == b.popups + 1
  {
    b.(bossTimerLive := false, lost := true, popups := b.popups + 1)
  }

  /**
   * A bullet reaches the boss: one more hit and the next boss tick skips its
   * move; the hit that reaches `numToKillBoss` kills it, which raises the next
   * target, clears the food, speeds up the next boss, pays the bonus and
   * restarts food spawning.
   */
  function AfterBossHit(b: BoardState, moveSpeed: real): (r: BoardState)
    requires b.boss.Some?
    ensures r.skipMove
    ensures b.boss.value.hits + 1 == b.numToKillBoss <==> r.boss.None?
    ensures r.boss.Some? ==> r.boss.value == b.boss.value.(hits := b.boss.value.hits + 1)
                             && r.numToKillBoss == b.numToKillBoss && r.bonusScore == b.bonusScore
    ensures r.boss.None? ==> r.bonusScore == b.bonusScore + BossBonus && r.food == map[] && r.spawning
  {
    var hits := b.boss.value.hits + 1;
    if hits == b.numToKillBoss then
      b.(numToKillBoss := NextKillTarget(b.numToKillBoss), bossTimerLive := false, food := map[],
         bossMoveTime := NextBossMoveTime(b.bossMoveTime, moveSpeed), bonusScore := b.bonusScore + BossBonus,
         boss := None, skipMove := true, spawning := true)
    else
      b.(boss := Some(b.boss.value.(hits := hits)), skipMove := true)
  }

  /** A boss needs exactly `numToKillBoss` hits: fewer leave it alive with that many hits counted. */
  lemma {:induction false} BossHitsCount(b: BoardState, moveSpeed: real, n: nat)
    requires b.boss.Some? && b.boss.value.hits + n <= b.numToKillBoss
    ensures var r := BossHitsAfter(b, moveSpeed, n);
      && (b.boss.value.hits + n < b.numToKillBoss ==>
            r.boss == Some(b.boss.value.(hits := b.boss.value.hits + n))
            && r.numToKillBoss == b.numToKillBoss && r.bonusScore == b.bonusScore)
      && (b.boss.value.hits + n == b.numToKillBoss && n > 0 ==> r.boss.None? && r.bonusScore == b.bonusScore + BossBonus)
    decreases n
  {
    if n > 0 {
      var m: nat := n - 1;
      BossHitsCount(b, moveSpeed, m);
    }
  }

  /** The board after `n` hits on the boss, stopping once it is gone. */
  function BossHitsAfter(b: BoardState, moveSpeed: real, n: nat): BoardState
    decreases n
  {
    if n == 0 then b
    else
      var r := BossHitsAfter(b, moveSpeed, n - 1);
      if r.boss.Some? then AfterBossHit(r, moveSpeed) else r
  }

  /** The board's side of a step of bullet `id` whose new cell is `at`. */
  function BoardAfterShot(b: BoardState, at: Cell, moveSpeed: real, f: Fate): BoardState
    requires f == BossStruck ==> b.boss.Some?
    requires f == FoodStruck ==> at in b.food
  {
    match f
    case HitSnake => AfterLoss(b)
    case BossStruck => AfterBossHit(b, moveSpeed)
    case FoodStruck => b.(food := Strike(b.food, at))
    case _ => b
  }

  /** `didEatFood`: the eaten food goes, the spawn interval is scaled and clamped, the count rises, spawning restarts. */
  function AfterEating(b: BoardState, mul: real, key: Cell): (r: BoardState)
    ensures key !in r.food && r.food.Keys == b.food.Keys - {key}
    ensures r.count == b.count + 1 && r.spawning
    ensures MinSpawnTime <= r.spawnTime <= InitialSpawnTime
  {
    b.(food := b.food - {key}, spawnTime := ClampSpawnTime(b.spawnTime * mul),
       count := b.count + 1, spawning := true)
  }

  /** What a tick of the snake's movement timer leads to. */
  datatype TickOutcome = OffBoard | SelfHit | BossZone | EggHit | FatalFood | Ate(kind: FoodKind) | Moved

  /**
   * The movement timer's tests in order: the next cell must be on the board,
   * the head (before the move) must not be on the body, the new head must not
   * be in the boss's core, and food on the new cell is eaten unless it carries
   * an egg or is an enemy.
   */
  function TickOf(parts: seq<Cell>, d: Direction, boss: Option<BossState>, food: FoodMap,
                  width: int, height: int): (t: TickOutcome)
    requires |parts| > 0
    ensures t == OffBoard <==> !InBoard(Step(parts[0], d), width, height)
    ensures t == SelfHit <==> InBoard(Step(parts[0], d), width, height) && parts[0] in parts[1..]
    ensures t.Ate? ==> Step(parts[0], d) in food && !food[Step(parts[0], d)].hasEgg
                       && food[Step(parts[0], d)].kind == t.kind && !Fatal(t.kind)
    ensures t == Moved ==> Step(parts[0], d) !in food
  {
    var next := Step(parts[0], d);
    if !InBoard(next, width, height) then OffBoard
    else if parts[0] in parts[1..] then SelfHit
    else if boss.Some? && InBossCore(next, boss.value.at) then BossZone
    else if next !in food then Moved
    else if food[next].hasEgg then EggHit
    else if Fatal(food[next].kind) then FatalFood
    else Ate(food[next].kind)
  }

  /** Whether a tick ends the game. */
  predicate Fatality(t: TickOutcome) {
    !t.Ate? && !t.Moved?
  }

  /**
   * The snake once its head is on the new cell: the boss's core and an egg
   * stop it (an egg also blocks firing), an enemy stops it through `eatFood`,
   * and food it may eat is handled as `eatFood` does.
   */
  function Landed(m: SnakeView, anchor: Cell, initial: real, t: TickOutcome): SnakeView
    requires |m.parts| > 0 && MinSpeed <= initial
  {
    match t
    case EggHit => m.(allowFire := false, moving := false)
    case Ate(k) =>
      m.(parts := if Grows(k) then Grown(m.parts, anchor) else m.parts,
         moveSpeed := ClampSpeed(m.moveSpeed * SpeedFactor(k), initial), moving := true)
    case Moved => m
    case _ => m.(moving := false)
  }

  /** The snake after a tick toward `next`: stopped where it is, or moved and then `Landed`. */
  function SnakeAfterTick(v: SnakeView, anchor: Cell, initial: real, next: Cell, t: TickOutcome): SnakeView
    requires |v.parts| > 0 && MinSpeed <= initial
  {
    if t == OffBoard || t == SelfHit then v.(moving := false)
    else Landed(v.(parts := FollowLeader(v.parts, next)), anchor, initial, t)
  }

  /** The board after the tick's probes: `bossCheck` drops a boss it killed the snake on, `isFoodThere` bumps the ratio. */
  function Probed(b: BoardState, t: TickOutcome): (r: BoardState)
    ensures r == b.(boss := r.boss, bossTimerLive := r.bossTimerLive, enemyChanceRatio := r.enemyChanceRatio)
  {
    if t == OffBoard || t == SelfHit then b
    else if t == BossZone then b.(boss := None, bossTimerLive := false)
    else b.(enemyChanceRatio := QueryRatio(b.enemyChanceRatio, t != Moved))
  }

  /** The board after a tick toward `next`: the probes, then `didLose` or `didEatFood`. */
  function BoardAfterTick(b: BoardState, next: Cell, t: TickOutcome): BoardState {
    var p := Probed(b, t);
    if Fatality(t) then AfterLoss(p)
    else if t.Ate? then AfterEating(p, SpawnMultiplier(t.kind), next)
    else p
  }

  /**
   * A tick keeps the snake moving exactly when it does not end the game, only
   * regular and slow food add a segment, and the head lands on the cell ahead
   * unless the tick stopped at the edge or on the body.
   */
  lemma TickSnakeEffects(v: SnakeView, anchor: Cell, initial: real, next: Cell, t: TickOutcome)
    requires |v.parts| > 0 && MinSpeed <= initial && v.moving
    ensures var r := SnakeAfterTick(v, anchor, initial, next, t);
      && (r.moving <==> !Fatality(t))
      && |r.parts| == |v.parts| + (if t.Ate? && Grows(t.kind) then 1 else 0)
      && (t != OffBoard && t != SelfHit ==> r.parts[0] == next)
      && (t != OffBoard && t != SelfHit && !(t.Ate? && Grows(t.kind)) ==> r.parts == FollowLeader(v.parts, next))
  {
    if t != OffBoard && t != SelfHit {
      var m := v.(parts := FollowLeader(v.parts, next));
      assert SnakeAfterTick(v, anchor, initial, next, t) == Landed(m, anchor, initial, t);
    }
  }

  /** A tick ends the game exactly when it is fatal, and counts food exactly when some is eaten. */
  lemma TickBoardEffects(b: BoardState, next: Cell, t: TickOutcome)
    ensures var r := BoardAfterTick(b, next, t);
      && (r.lost <==> b.lost || Fatality(t))
      && r.count == b.count + (if t.Ate? then 1 else 0)
      && (t.Ate? ==> next !in r.food)
      && (t == Moved ==> r.food == b.food)
  {
  }

  /** A tick keeps a snake of two or more segments connected. */
  lemma TickKeepsConnected(v: SnakeView, anchor: Cell, initial: real, t: TickOutcome)
    requires |v.parts| >= 2 && MinSpeed <= initial && Connected(v.parts)
    ensures Connected(SnakeAfterTick(v, anchor, initial, Step(v.parts[0], v.direction), t).parts)
  {
    MovePreservesConnected(v.parts, v.direction);
    var moved := FollowLeader(v.parts, Step(v.parts[0], v.direction));
    if t.Ate? && Grows(t.kind) {
      GrowPreservesConnected(moved, anchor);
    }
  }

  /** The cells of the damaged enemies in the dictionary's iteration order, each once. */
  ghost predicate DamagedOrder(food: FoodMap, order: seq<Cell>) {
    (forall i, j :: 0 <= i < j < |order| ==> order[i] != order[j])
    && (forall c :: c in order <==> c in food && food[c].kind == EnemyDamaged)
  }

  /**
   * The spawn timer's body after the enemies' volley: after forty seconds
   * without a boss the timer stops, the food is cleared and the boss is on its
   * way; otherwise a kind is chosen and `addFoodToBoard` tries to place it on
   * `cell`.
   */
  function SpawnAfter(b: BoardState, parts: seq<Cell>, enemyDraw: real, r1: real, r2: real, cell: Cell, die: int): BoardState
    requires |parts| > 0 && 1 <= die <= 6
  {
    if b.timeForBoss >= BossSpawnTime then b.(spawning := false, food := map[], bossPending := true)
    else
      var p := PickArena(enemyDraw, b.enemyChanceRatio, r1, r2);
      b.(enemyChanceRatio := p.ratio,
         food := PlaceArena(b.food, parts, cell, FoodEntry(p.kind, EggLaid(b.spawnTime, die))))
  }

  /** The boss tick's shots: the enemies' volley on a draw below 0.2, then the boss's own shot on an action of at most 0.14. */
  function BossVolley(v: SnakeView, at: Cell, shoot: real, action: real, aim: Direction,
                      order: seq<Cell>, aims: seq<Direction>): SnakeView
    requires |order| == |aims|
  {
    var v1 := if shoot < 0.2 then VolleyView(v, order, aims) else v;
    if action <= 0.14 then FireView(v1, at, BossGun, aim) else v1
  }

  /** The end of a boss tick: after a hit it only schedules a resume; otherwise the boss moves to `moveTo` and the food under it goes. */
  function BossMoved(b: BoardState, moveTo: Cell): BoardState
    requires b.boss.Some?
  {
    if b.skipMove then b.(bossResumes := b.bossResumes + 1)
    else b.(food := Swept(b.food, moveTo), boss := Some(b.boss.value.(at := moveTo)))
  }

  /**
   * The boss tick's board: an action of at least 0.92 tries to place an
   * egg-less enemy on `spawnAt`; then, unless a hit froze it, the boss moves
   * to `moveTo` and the food under it goes.
   */
  function BossTickAfter(b: BoardState, parts: seq<Cell>, action: real, spawnAt: Cell, moveTo: Cell): BoardState
    requires |parts| > 0 && b.boss.Some?
  {
    var f1 := if action > 0.14 && action >= 0.92 then PlaceArena(b.food, parts, spawnAt, FoodEntry(Enemy, false)) else b.food;
    BossMoved(b.(food := f1), moveTo)
  }

  /** After a boss tick that moves, no food lies under the boss. */
  lemma BossClearsItsCells(b: BoardState, parts: seq<Cell>, action: real, spawnAt: Cell, moveTo: Cell)
    requires |parts| > 0 && b.boss.Some? && !b.skipMove
    ensures var r := BossTickAfter(b, parts, action, spawnAt, moveTo);
      r.boss.Some? && r.boss.value.at == moveTo && r.boss.value.hits == b.boss.value.hits
      && forall c :: c in r.food ==> !InBossFrame(c, moveTo)
  {
  }

  /** A boss tick: after the loss the timer only stops itself; otherwise as `BossTickAfter`. */
  function BossFired(b: BoardState, parts: seq<Cell>, action: real, spawnAt: Cell, moveTo: Cell): (r: BoardState)
    requires |parts| > 0 && b.boss.Some?
    ensures b.lost ==> r == b.(bossTimerLive := false)
  {
    if b.lost then b.(bossTimerLive := false) else BossTickAfter(b, parts, action, spawnAt, moveTo)
  }

  /**
   * A delayed `bossData?.timer.fire(); skipMove = false`: the boss timer, if
   * it still runs, fires at once (it still sees the `skipMove` that scheduled
   * this closure), and only then is `skipMove` cleared.
   */
  function Resumed(b: BoardState, parts: seq<Cell>, action: real, spawnAt: Cell, moveTo: Cell): (r: BoardState)
    requires |parts| > 0 && b.bossResumes > 0 && (b.bossTimerLive ==> b.boss.Some?)
    ensures !r.skipMove
  {
    var b1 := b.(bossResumes := b.bossResumes - 1);
    var b2 := if b1.bossTimerLive then BossFired(b1, parts, action, spawnAt, moveTo) else b1;
    b2.(skipMove := false)
  }

  /**
   * The board's own invariant: all food lies on the board, the clamped
   * quantities stay in their ranges, a live boss has taken fewer hits than it
   * takes to kill it, and the boss timer runs only while there is a boss.
   */
  predicate StateOK(b: BoardState, width: int, height: int) {
    (forall c :: c in b.food ==> InBoard(c, width, height))
    && MinSpawnTime <= b.spawnTime <= InitialSpawnTime
    && 0.0 <= b.enemyChanceRatio <= MaxEnemyRatio
    && InitialKillTarget <= b.numToKillBoss <= MaxKillTarget
    && (b.boss.Some? ==> b.boss.value.hits < b.numToKillBoss)
    && (b.bossTimerLive ==> b.boss.Some?)
    && 0.12 <= b.bossMoveTime <= 0.64
  }

  class Board {
    /** `numOfSquaresInRow` and `numOfSquaresInCol`. */
    const width: int
    const height: int
    /** The container's extent in cells, beyond which bullets are retired. */
    const reachX: int
    const reachY: int
    var snake: Snake
    /** The view controller's game variables, as one record each event replaces. */
    var state: BoardState

    /** The snake lies on the board and both it and the board keep their invariants. */
    ghost predicate Valid()
      reads this, snake
    {
      snake.Valid() && snake.initialSpeed == ArenaSpeed
      && 1 <= width && 2 <= height
      && InBoard(snake.anchor, width, height)
      && (forall c :: c in snake.parts ==> InBoard(c, width, height))
      && StateOK(state, width, height)
    }

    /** `Board.create`, which ends in `startGame`; `heading` is the snake's random first heading. */
    constructor (width: int, height: int, reachX: int, reachY: int, heading: Direction)
      requires 1 <= width && 2 <= height
      ensures Valid() && fresh(snake)
      ensures this.width == width && this.height == height && this.reachX == reachX && this.reachY == reachY
      ensures state == BoardState(map[], 0, 0, 0, false, 0, InitialSpawnTime, 0.0, None, false, false,
                                  InitialKillTarget, InitialBossMoveTime, false, 0, 0, true, true, 0, None)
      ensures snake.View() == SnakeView([StartCell(width, height)], heading, ArenaSpeed, true, true, [], map[], {}, 0, 0)
    {
      var s := new Snake(StartCell(width, height), ArenaSpeed, heading);
      s.StartMoving();
      this.width := width;
      this.height := height;
      this.reachX := reachX;
      this.reachY := reachY;
      snake := s;
      state := BoardState(map[], 0, 0, 0, false, 0, InitialSpawnTime, 0.0, None, false, false,
                          InitialKillTarget, InitialBossMoveTime, false, 0, 0, true, true, 0, None);
    }

    /**
     * `startGame` with `addSnakeToBoard`: a fresh game with a new one-segment
     * snake in the middle, moving, and food spawning again. The boss is
     * dropped, but the kill target, the boss's interval, `skipMove` and the
     * played time carry over from the last game.
     */
    method StartGame(heading: Direction)
      requires Valid()
      modifies this
      ensures Valid() && fresh(snake)
      ensures snake.View() == SnakeView([StartCell(width, height)], heading, ArenaSpeed, true, true, [], map[], {}, 0, 0)
      ensures state == old(state).(food := map[], count := 0, lost := false, bonusScore := 0,
                                   spawnTime := InitialSpawnTime, boss := None, bossTimerLive := false,
                                   timeForBoss := 0, enemyChanceRatio := 0.0, spawning := true,
                                   ticks := 0, clockRunning := true)
    {
      var s := new Snake(StartCell(width, height), ArenaSpeed, heading);
      s.StartMoving();
      snake := s;
      state := state.(lost := false, bonusScore := 0, count := 0, spawnTime := InitialSpawnTime,
                      boss := None, bossTimerLive := false, timeForBoss := 0, food := map[]);
      state := state.(enemyChanceRatio := 0.0, spawning := true, ticks := 0, clockRunning := true);
    }

    /** The clock's tick: the boss countdown, the played time and the per-second ratio growth. */
    method SecondTick()
      requires Valid() && state.clockRunning
      modifies this
      ensures Valid() && snake == old(snake)
      ensures state == old(state).(timeForBoss := NextTimeForBoss(old(state.timeForBoss), old(state.boss).Some?),
                                   ticks := old(state.ticks) + 1, time := old(state.ticks) + 1,
                                   enemyChanceRatio := PerSecondRatio(old(state.enemyChanceRatio)))
    {
      var i := state.ticks + 1;
      state := state.(timeForBoss := NextTimeForBoss(state.timeForBoss, state.boss.Some?));
      state := state.(ticks := i, time := i);
      state := state.(enemyChanceRatio := PerSecondRatio(state.enemyChanceRatio));
    }

    /** `showLostPopup`: the clock and the spawn timer stop and the popup shows the score with the bonus. */
    method ShowLostPopup()
      requires Valid() && state.popups > 0
      modifies this
      ensures Valid() && snake == old(snake)
      ensures state == old(state).(popups := old(state.popups) - 1, clockRunning := false, spawning := false,
                                   popupScore := Some(Score(old(state.count), old(state.time), old(state.bonusScore))))
    {
      state := state.(popups := state.popups - 1, clockRunning := false, spawning := false);
      state := state.(popupScore := Some(Score(state.count, state.time, state.bonusScore)));
    }

    /** The board's `didLose` closure. */
    method Lose()
      requires Valid()
      modifies this
      ensures Valid() && snake == old(snake)
      ensures state == AfterLoss(old(state))
    {
      state := state.(bossTimerLive := false, lost := true, popups := state.popups + 1);
    }

    /** `changeDirectionByTap`, given the head's offsets from the tap in pixels. */
    method ChangeDirectionByTap(dx: real, dy: real)
      requires Valid()
      modifies snake
      ensures Valid()
      ensures snake.View() == old(snake.View()).(direction := Turn(old(snake.parts), old(snake.direction), TapRequest(dx, dy)))
    {
      snake.Steer(TapRequest(dx, dy));
    }

    /** `changeDirectionBySwipe`. */
    method ChangeDirectionBySwipe(req: Direction)
      requires Valid()
      modifies snake
      ensures Valid()
      ensures snake.View() == old(snake.View()).(direction := Turn(old(snake.parts), old(snake.direction), req))
    {
      snake.Steer(req);
    }

    /** `fire(gestureRecognizer:)`: the player's shot from the head. */
    method Fire()
      requires Valid()
      modifies snake
      ensures Valid()
      ensures snake.View() == FireView(old(snake.View()), old(snake.parts[0]), Player, old(snake.direction))
    {
      snake.Fire(snake.parts[0], Player, snake.direction);
    }

    /** A delayed `allowFire = true` runs. */
    method Rearm()
      requires Valid() && snake.rearms > 0
      modifies snake
      ensures Valid()
      ensures snake.View() == old(snake.View()).(allowFire := true, rearms := old(snake.rearms) - 1)
    {
      snake.Rearm();
    }

    /** A bullet reaches the boss (the boss branch of the player's and the enemies' handlers). */
    method DamageBoss()
      requires Valid() && state.boss.Some?
      modifies this
      ensures Valid() && snake == old(snake)
      ensures state == AfterBossHit(old(state), snake.moveSpeed)
    {
      BossMoveTimeBounded(state.bossMoveTime, snake.moveSpeed);
      var hits := state.boss.value.hits + 1;
      if hits == state.numToKillBoss {
        state := state.(numToKillBoss := NextKillTarget(state.numToKillBoss), bossTimerLive := false, food := map[],
                        bossMoveTime := NextBossMoveTime(state.bossMoveTime, snake.moveSpeed),
                        bonusScore := state.bonusScore + BossBonus, boss := None, skipMove := true, spawning := true);
      } else {
        state := state.(boss := Some(state.boss.value.(hits := hits)), skipMove := true);
      }
    }

    /**
     * The tests a bullet's timer and its shooter's handler make on the
     * bullet's new cell, in their order: the lethal check on the head, the
     * scan of the other bullets, the body, the lost game, the bounds, the
     * boss and the food.
     */
    method Classify(id: nat) returns (f: Fate)
      requires Valid() && id in snake.shots
      ensures f == FateOf(snake.View(), id, state.lost, state.boss, state.food, reachX, reachY)
    {
      var s := snake.shots[id];
      if id in snake.bullets && s.at == snake.parts[0] && KillsSnake(s) {
        return HitSnake;
      }
      var other := FindCollider(snake.bullets, snake.shots, id, s.at);
      if other.Some? {
        return Collided(other.value);
      }
      var body := TouchBody(snake.parts, s.at);
      if body {
        return BodyBlocked;
      } else if state.lost {
        return Stopped;
      } else if OutOfReach(s.at, reachX, reachY) {
        return OffField;
      } else if s.from != BossGun && state.boss.Some? && InBossFrame(s.at, state.boss.value.at) {
        return BossStruck;
      } else if s.at in state.food {
        return FoodStruck;
      }
      return Flies;
    }

    /** The snake's side of each fate: the bullet's list entry, its timer and the re-arm. */
    method SettleShot(id: nat, f: Fate)
      requires Valid() && id in snake.shots
      modifies snake
      ensures Valid()
      ensures snake.View() == ShotAfter(old(snake.View()), id, f)
    {
      match f
      case HitSnake =>
        snake.Struck();
      case Collided(other) =>
        snake.Collide(id, other);
      case Stopped =>
        snake.Halt(id);
      case Flies =>
      case _ =>
        snake.Retire(id);
    }

    /** What the timer and the handler then do for each fate. */
    method Settle(id: nat, f: Fate)
      requires Valid() && id in snake.shots
      requires f == FateOf(snake.View(), id, state.lost, state.boss, state.food, reachX, reachY)
      modifies this, snake
      ensures Valid() && snake == old(snake)
      ensures snake.View() == ShotAfter(old(snake.View()), id, f)
      ensures state == BoardAfterShot(old(state), old(snake.shots[id].at), old(snake.moveSpeed), f)
    {
      var at := snake.shots[id].at;
      SettleShot(id, f);
      if f == HitSnake {
        Lose();
      } else if f == BossStruck {
        DamageBoss();
      } else if f == FoodStruck {
        state := state.(food := Strike(state.food, at));
      }
    }

    /**
     * One step of bullet `id`'s timer with the collision handler of its
     * shooter: the snake's side is `ShotAfter`, the board's `BoardAfterShot`,
     * both decided by `FateOf` on the bullet's new cell.
     */
    method BulletStep(id: nat) returns (f: Fate)
      requires Valid() && id in snake.flying
      modifies this, snake
      ensures Valid() && snake == old(snake)
      ensures var v := AdvancedView(old(snake.View()), id);
        && f == FateOf(v, id, old(state.lost), old(state.boss), old(state.food), reachX, reachY)
        && snake.View() == ShotAfter(v, id, f)
        && state == BoardAfterShot(old(state), v.shots[id].at, old(snake.moveSpeed), f)
    {
      snake.Advance(id);
      f := Classify(id);
      Settle(id, f);
    }

    /**
     * The movement timer's tests on the cell ahead, `next`: the bounds, the
     * head against the body, the boss's core, then the food there.
     */
    method LookAhead(next: Cell) returns (t: TickOutcome)
      requires Valid() && next == Step(snake.parts[0], snake.direction)
      ensures t == TickOf(snake.parts, snake.direction, state.boss, state.food, width, height)
    {
      if !InBoard(next, width, height) {
        return OffBoard;
      }
      var hit := TouchBody(snake.parts, snake.parts[0]);
      if hit {
        return SelfHit;
      } else if state.boss.Some? && InBossCore(next, state.boss.value.at) {
        return BossZone;
      } else if next !in state.food {
        return Moved;
      }
      var found := state.food[next];
      if found.hasEgg {
        return EggHit;
      } else if Fatal(found.kind) {
        return FatalFood;
      }
      return Ate(found.kind);
    }

    /** The snake's side of a tick with outcome `t`, from its new cell on. */
    method Land(t: TickOutcome, kind: FoodKind)
      requires Valid() && t != OffBoard && t != SelfHit
      requires t.Ate? ==> kind == t.kind && !Fatal(kind)
      requires t == FatalFood ==> Fatal(kind)
      modifies snake
      ensures Valid()
      ensures snake.View() == Landed(old(snake.View()), snake.anchor, ArenaSpeed, t)
    {
      if t == EggHit {
        snake.EggTouched();
      } else if t == FatalFood || t.Ate? {
        var fatal := snake.EatFood(kind);
      } else if t == BossZone {
        snake.Stop();
      }
    }

    /** The snake's side of a tick with outcome `t`. */
    method TickSnake(next: Cell, t: TickOutcome)
      requires Valid() && next == Step(snake.parts[0], snake.direction)
      requires t == TickOf(snake.parts, snake.direction, state.boss, state.food, width, height)
      modifies snake
      ensures Valid()
      ensures snake.View() == SnakeAfterTick(old(snake.View()), snake.anchor, ArenaSpeed, next, t)
    {
      if t == OffBoard || t == SelfHit {
        snake.Stop();
        return;
      }
      var kind := if next in state.food then state.food[next].kind else Regular;
      snake.Move(next);
      assert forall c :: c in snake.parts ==> c == next || c in old(snake.parts);
      Land(t, kind);
    }

    /** The tick's probes on the board: `bossCheck` and `isFoodThere`. */
    method Probe(t: TickOutcome)
      requires Valid()
      modifies this
      ensures Valid() && snake == old(snake)
      ensures state == Probed(old(state), t)
    {
      if t == BossZone {
        state := state.(boss := None, bossTimerLive := false);
      } else if t != OffBoard && t != SelfHit {
        state := state.(enemyChanceRatio := QueryRatio(state.enemyChanceRatio, t != Moved));
      }
    }

    /** The board's side of a tick with outcome `t`: the probes, then `didLose` or `didEatFood`. */
    method TickBoard(next: Cell, t: TickOutcome)
      requires Valid()
      modifies this
      ensures Valid() && snake == old(snake)
      ensures state == BoardAfterTick(old(state), next, t)
    {
      Probe(t);
      if Fatality(t) {
        Lose();
      } else if t.Ate? {
        DidEatFood(SpawnMultiplier(t.kind), next);
      }
    }

    /**
     * One tick of the snake's movement timer: the outcome is `TickOf` the
     * snake before the move, and the snake and the board change as
     * `SnakeAfterTick` and `BoardAfterTick` say.
     */
    method MovementTick() returns (t: TickOutcome)
      requires Valid() && snake.moving
      modifies this, snake
      ensures Valid() && snake == old(snake)
      ensures var next := Step(old(snake.parts)[0], old(snake.direction));
        && t == TickOf(old(snake.parts), old(snake.direction), old(state.boss), old(state.food), width, height)
        && snake.View() == SnakeAfterTick(old(snake.View()), snake.anchor, ArenaSpeed, next, t)
        && state == BoardAfterTick(old(state), next, t)
    {
      var next := Step(snake.parts[0], snake.direction);
      t := LookAhead(next);
      TickSnake(next, t);
      TickBoard(next, t);
    }

    /** `didEatFood`: the food on `key` goes, the spawn interval is scaled by `mul` and clamped, spawning restarts. */
    method DidEatFood(mul: real, key: Cell)
      requires Valid()
      modifies this
      ensures Valid() && snake == old(snake)
      ensures state == AfterEating(old(state), mul, key)
    {
      var t := Min(Max(state.spawnTime * mul, MinSpawnTime), InitialSpawnTime);
      assert t == ClampSpawnTime(state.spawnTime * mul);
      state := state.(food := state.food - {key}, spawnTime := t, count := state.count + 1, spawning := true);
    }

    /**
     * `addFoodToBoard(imageName:eggChance:)` on cell `c`: the guards of
     * `PlaceArena`, then the food, with an egg on a roll `die` of the
     * six-sided draw when eggs may be laid.
     */
    method AddFoodToBoard(c: Cell, kind: FoodKind, eggChance: bool, die: int)
      requires Valid() && InBoard(c, width, height) && (eggChance ==> 1 <= die <= 6)
      modifies this
      ensures Valid() && snake == old(snake)
      ensures state == old(state).(food := PlaceArena(old(state.food), snake.parts, c,
                                   FoodEntry(kind, eggChance && EggLaid(old(state.spawnTime), die))))
    {
      var free := SpotFree(c);
      if free {
        var egg := eggChance && EggLaid(state.spawnTime, die);
        state := state.(food := state.food[c := FoodEntry(kind, egg)]);
      }
    }

    /** `addFoodToBoard`'s guards on cell `c`: its key is free, it is not the head's, no segment covers it, it is not near the head. */
    method SpotFree(c: Cell) returns (free: bool)
      requires Valid()
      ensures free <==> !ArenaSpotTaken(state.food, snake.parts, c)
    {
      if c in state.food || c == snake.parts[0] {
        return false;
      }
      var covered := TouchBody(snake.parts, c);
      return !covered && !Near(c, snake.parts[0]);
    }

    /**
     * `enamyShot`: every damaged enemy, visited in the dictionary's order
     * `order`, fires a lethal bullet along its draw in `aims`.
     */
    method EnemyShot(order: seq<Cell>, aims: seq<Direction>)
      requires Valid() && |order| == |aims|
      modifies snake
      ensures Valid()
      ensures snake.View() == VolleyView(old(snake.View()), order, aims)
    {
      var i := 0;
      while i < |order|
        invariant 0 <= i <= |order|
        invariant Valid()
        invariant snake.View() == VolleyView(old(snake.View()), order[..i], aims[..i])
      {
        snake.Fire(order[i], EnemyGun, aims[i]);
        assert order[..i + 1][..i] == order[..i] && aims[..i + 1][..i] == aims[..i];
        i := i + 1;
      }
      assert order[..i] == order && aims[..i] == aims;
    }

    /**
     * One tick of the food spawn timer (`startSpawningFoodToBoard`): nothing
     * after the loss; otherwise the enemies' volley, then either the boss's
     * arrival or a new food whose kind the draws `enemyDraw`, `r1`, `r2`
     * choose, tried on cell `cell` with egg roll `die`.
     */
    method SpawnTick(enemyDraw: real, r1: real, r2: real, cell: Cell, die: int,
                     order: seq<Cell>, aims: seq<Direction>)
      requires Valid() && state.spawning && InBoard(cell, width, height) && 1 <= die <= 6
      requires |order| == |aims| && DamagedOrder(state.food, order)
      modifies this, snake
      ensures Valid() && snake == old(snake)
      ensures old(state.lost) ==> state == old(state) && snake.View() == old(snake.View())
      ensures !old(state.lost) ==>
        && snake.View() == VolleyView(old(snake.View()), order, aims)
        && state == SpawnAfter(old(state), old(snake.parts), enemyDraw, r1, r2, cell, die)
    {
      if state.lost {
        return;
      }
      VolleyKeeps(snake.View(), order, aims);
      EnemyShot(order, aims);
      if state.timeForBoss >= BossSpawnTime {
        state := state.(spawning := false, food := map[], bossPending := true);
        return;
      }
      var p := PickArena(enemyDraw, state.enemyChanceRatio, r1, r2);
      state := state.(enemyChanceRatio := p.ratio);
      AddFoodToBoard(cell, p.kind, true, die);
    }

    /** The delayed closure that creates `bossData` at the top-left corner, with no hits, and starts its timer. */
    method BossArrive()
      requires Valid() && state.bossPending
      modifies this
      ensures Valid() && snake == old(snake)
      ensures state == old(state).(boss := Some(BossState(Cell(0, 0), 0)), bossTimerLive := true, bossPending := false)
    {
      state := state.(boss := Some(BossState(Cell(0, 0), 0)), bossTimerLive := true, bossPending := false);
    }

    /** The boss tick's shots: the enemies' volley on a `shoot` below 0.2, the boss's own on an `action` of at most 0.14. */
    method BossShots(at: Cell, shoot: real, action: real, aim: Direction, order: seq<Cell>, aims: seq<Direction>)
      requires Valid() && |order| == |aims|
      modifies snake
      ensures Valid()
      ensures snake.View() == BossVolley(old(snake.View()), at, shoot, action, aim, order, aims)
    {
      if shoot < 0.2 {
        EnemyShot(order, aims);
      }
      if action <= 0.14 {
        snake.Fire(at, BossGun, aim);
      }
    }

    /** The end of a boss tick: a resume scheduled after a hit, or the move and the sweep. */
    method BossStep(moveTo: Cell)
      requires Valid() && state.boss.Some?
      modifies this
      ensures Valid() && snake == old(snake)
      ensures state == BossMoved(old(state), moveTo)
    {
      if state.skipMove {
        state := state.(bossResumes := state.bossResumes + 1);
        return;
      }
      var rest := Sweep(state.food, moveTo);
      state := state.(boss := Some(state.boss.value.(at := moveTo)), food := rest);
    }

    /** The boss tick's board: an egg-less enemy on an `action` of at least 0.92, then `BossStep`. */
    method BossMoves(action: real, spawnAt: Cell, moveTo: Cell)
      requires Valid() && state.boss.Some? && InBoard(spawnAt, width, height)
      modifies this
      ensures Valid() && snake == old(snake)
      ensures state == BossTickAfter(old(state), snake.parts, action, spawnAt, moveTo)
    {
      if action > 0.14 && action >= 0.92 {
        AddFoodToBoard(spawnAt, Enemy, false, 1);
      }
      BossStep(moveTo);
    }

    /**
     * One tick of the boss timer: after the loss it stops; otherwise the
     * shots, an enemy tried on `spawnAt`, and the move to `moveTo` that
     * clears the food under the boss, unless a hit froze it.
     */
    method BossTick(shoot: real, action: real, aim: Direction, spawnAt: Cell, moveTo: Cell,
                    order: seq<Cell>, aims: seq<Direction>)
      requires Valid() && state.bossTimerLive && InBoard(spawnAt, width, height)
      requires |order| == |aims| && DamagedOrder(state.food, order)
      modifies this, snake
      ensures Valid() && snake == old(snake)
      ensures state == BossFired(old(state), old(snake.parts), action, spawnAt, moveTo)
      ensures snake.View() == if old(state.lost) then old(snake.View())
                              else BossVolley(old(snake.View()), old(state.boss.value.at), shoot, action, aim, order, aims)
    {
      if state.lost {
        state := state.(bossTimerLive := false);
        return;
      }
      VolleyKeeps(snake.View(), order, aims);
      BossShots(state.boss.value.at, shoot, action, aim, order, aims);
      BossMoves(action, spawnAt, moveTo);
    }

    /** A delayed `bossData?.timer.fire(); skipMove = false` runs. */
    method BossResume(shoot: real, action: real, aim: Direction, spawnAt: Cell, moveTo: Cell,
                      order: seq<Cell>, aims: seq<Direction>)
      requires Valid() && state.bossResumes > 0 && InBoard(spawnAt, width, height)
      requires |order| == |aims| && DamagedOrder(state.food, order)
      modifies this, snake
      ensures Valid() && snake == old(snake)
      ensures state == Resumed(old(state), old(snake.parts), action, spawnAt, moveTo)
      ensures snake.View() == if old(state.bossTimerLive) && !old(state.lost)
                              then BossVolley(old(snake.View()), old(state.boss.value.at), shoot, action, aim, order, aims)
                              else old(snake.View())
    {
      state := state.(bossResumes := state.bossResumes - 1);
      if state.bossTimerLive {
        BossTick(shoot, action, aim, spawnAt, moveTo, order, aims);
      }
      state := state.(skipMove := false);
    }
  }
}
