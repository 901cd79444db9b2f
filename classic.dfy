/**
 * The older game (the `Board` and `Snake` classes of
 * Snake/BoardContainerViewController.swift): the snake eats regular, slow
 * and do-nothing food, may shoot at the food, and loses on the edge, on its
 * body or on an egg. There are no enemies, no boss and no bullet list.
 *
 * As in `Arena`, every timer becomes an event method: the clock
 * (`SecondTick`, while `clockRunning`), the movement timer (`MovementTick`,
 * while `snake.moving`), the spawn timer (`SpawnTick`, while `spawning`) and
 * a bullet's timer (`BulletStep`, while its id is in `snake.flying`); the
 * delayed `allowFire = true` is `Rearm`.
 */
module Classic {
  import opened Wrappers
  import opened Grid
  import opened Body
  import opened Tuning
  import opened Food
  import opened Shots

  /** The food kinds of the older game's `FoodType`. */
  predicate ClassicKind(k: FoodKind) {
    k == Regular || k == Slow || k == DoNothing
  }

  /** The state of the older `Snake` that the game logic reads; its bullets are all the player's. */
  datatype SnakeView = SnakeView(
    parts: seq<Cell>, direction: Direction, moveSpeed: real, moving: bool,
    allowFire: bool, shots: map<nat, Shot>, flying: set<nat>, nextShot: nat, rearms: nat)

  /** Every flying bullet has a position, and the next id is fresh. */
  predicate GunValid(v: SnakeView) {
    v.flying <= v.shots.Keys && (forall b :: b in v.shots ==> b < v.nextShot)
  }

  /** `Snake.fire`: when allowed, a bullet leaves the head along the heading and blocks further shots. */
  function FireView(v: SnakeView): (r: SnakeView)
    requires |v.parts| > 0
    ensures !v.allowFire ==> r == v
    ensures v.allowFire ==> !r.allowFire && r.flying == v.flying + {v.nextShot} && r.nextShot == v.nextShot + 1
                            && r.shots == v.shots[v.nextShot := Shot(v.parts[0], v.direction, Player)]
  {
    if !v.allowFire then v
    else
      v.(allowFire := false,
         shots := v.shots[v.nextShot := Shot(v.parts[0], v.direction, Player)],
         flying := v.flying + {v.nextShot},
         nextShot := v.nextShot + 1)
  }

  /** A shot keeps the bookkeeping consistent. */
  lemma FireKeepsGun(v: SnakeView)
    requires |v.parts| > 0 && GunValid(v)
    ensures GunValid(FireView(v))
    ensures v.allowFire ==> v.nextShot !in v.shots
  {
  }

  /**
   * The bullet's timer moves it along its heading, by one cell in the model
   * (the source moves it `bodySize`, ten pixels short of a cell).
   */
  function AdvancedView(v: SnakeView, id: nat): (r: SnakeView)
    requires id in v.shots
    ensures r.shots.Keys == v.shots.Keys && r.(shots := v.shots) == v
    ensures r.shots[id] == v.shots[id].(at := Step(v.shots[id].at, v.shots[id].heading))
  {
    var s := v.shots[id];
    v.(shots := v.shots[id := s.(at := Step(s.at, s.heading))])
  }

  // ---------------------------------------------------------------------------
  // One step of a bullet

  /**
   * The older handler's bounds test: the bullet is done once it is a cell
   * beyond the left or top edge, or at the container's extent `reachX` by
   * `reachY` (in cells) on the right or bottom.
   */
  predicate OutOfField(c: Cell, reachX: int, reachY: int) {
    c.x <= -1 || c.x >= reachX || c.y <= -1 || c.y >= reachY
  }

  /** What the player's collision handler answers for the bullet's new cell. */
  datatype Handled =
    | Stopped    // the game is lost: the timer stops, nothing is re-armed
    | OffField   // the bullet left the field and is done
    | FoodStruck // it reached food and is done
    | Flies      // nothing there

  function HandlerOf(at: Cell, lost: bool, food: FoodMap, reachX: int, reachY: int): (h: Handled)
    ensures h == FoodStruck ==> at in food
    ensures h == Stopped <==> lost
  {
    if lost then Stopped
    else if OutOfField(at, reachX, reachY) then OffField
    else if at in food then FoodStruck
    else Flies
  }

  /** Whether the handler finished the bullet (`return true`), which schedules a re-arm. */
  predicate Finished(h: Handled) {
    h == OffField || h == FoodStruck
  }

  /**
   * The snake after a step as `Snake.fire`'s timer is written: a bullet on a
   * body segment stops and schedules a re-arm, and the handler then runs all
   * the same, which may schedule a second one.
   */
  function ShotAfterAsWritten(v: SnakeView, id: nat, blocked: bool, h: Handled): SnakeView {
    v.(flying := if blocked || h != Flies then v.flying - {id} else v.flying,
       rearms := v.rearms + (if blocked then 1 else 0) + (if Finished(h) then 1 else 0))
  }

  /** The board's food after a step: the handler strikes the food it found. */
  function FoodAfterShot(food: FoodMap, at: Cell, h: Handled): FoodMap
    requires h == FoodStruck ==> at in food
  {
    if h == FoodStruck then StrikeClassic(food, at) else food
  }

  /**
   * As written, a bullet stopped by the body still reaches the handler: on
   * food it strikes that food, and each such step schedules two re-arms.
   */
  lemma BlockedShotStillHandled(v: SnakeView, id: nat, food: FoodMap, at: Cell)
    requires at in food && id in v.flying
    ensures var r := ShotAfterAsWritten(v, id, true, FoodStruck);
      id !in r.flying && r.rearms == v.rearms + 2 && FoodAfterShot(food, at, FoodStruck) == StrikeClassic(food, at)
  {
  }

  /**
   * The step as the newer `Snake.fire` orders it, with the body test's
   * `else`: a bullet stopped by the body never reaches the handler.
   */
  function ShotAfterIntended(v: SnakeView, id: nat, blocked: bool, h: Handled): SnakeView {
    if blocked then v.(flying := v.flying - {id}, rearms := v.rearms + 1)
    else ShotAfterAsWritten(v, id, false, h)
  }

  /**
   * With the `else`, a step schedules a re-arm exactly when it retires a
   * bullet that the lost game did not stop, and never more than one.
   */
  lemma IntendedShotRearmsOnce(v: SnakeView, id: nat, blocked: bool, h: Handled)
    requires id in v.flying
    ensures var r := ShotAfterIntended(v, id, blocked, h);
      && r.rearms <= v.rearms + 1
      && (r.rearms == v.rearms + 1 <==> blocked || Finished(h))
      && (id in r.flying <==> !blocked && h == Flies)
  {
  }

  // ---------------------------------------------------------------------------
  // The snake

  class Snake {
    var parts: seq<Cell>
    /** The start cell: the head's `locationFrame`, which `move` never rewrites. */
    const anchor: Cell
    var direction: Direction
    var moveSpeed: real
    const initialSpeed: real
    var moving: bool
    var allowFire: bool
    var shots: map<nat, Shot>
    var flying: set<nat>
    var nextShot: nat
    var rearms: nat

    ghost function View(): SnakeView
      reads this
    {
      SnakeView(parts, direction, moveSpeed, moving, allowFire, shots, flying, nextShot, rearms)
    }

    ghost predicate Valid()
      reads this
    {
      |parts| > 0 && MinSpeed <= initialSpeed && MinSpeed <= moveSpeed <= initialSpeed
      && GunValid(View())
    }

    /** `Snake.init`: one segment on `start`; the heading is the source's random draw. */
    constructor (start: Cell, speed: real, heading: Direction)
      requires MinSpeed <= speed
      ensures Valid() && anchor == start && initialSpeed == speed
      ensures View() == SnakeView([start], heading, speed, false, true, map[], {}, 0, 0)
    {
      parts := [start];
      anchor := start;
      direction := heading;
      moveSpeed := speed;
      initialSpeed := speed;
      moving := false;
      allowFire := true;
      shots := map[];
      flying := {};
      nextShot := 0;
      rearms := 0;
    }

    method StartMoving()
      requires Valid()
      modifies this
      ensures Valid() && View() == old(View()).(moving := true)
    {
      moving := true;
    }

    /** The movement timer is invalidated. */
    method Stop()
      requires Valid()
      modifies this
      ensures Valid() && View() == old(View()).(moving := false)
    {
      moving := false;
    }

    /** The egg branch of the movement timer: firing is blocked and the movement timer stops. */
    method EggTouched()
      requires Valid()
      modifies this
      ensures Valid() && View() == old(View()).(allowFire := false, moving := false)
    {
      allowFire := false;
      moving := false;
    }

    /** `move(to:)`: every segment follows the one in front of it, the head goes to `target`. */
    method Move(target: Cell)
      requires Valid()
      modifies this
      ensures Valid() && View() == old(View()).(parts := FollowLeader(old(parts), target))
    {
      parts := Shift(parts, target);
    }

    /** `eat()`: a new segment on the tail's location. */
    method Eat()
      requires Valid()
      modifies this
      ensures Valid() && View() == old(View()).(parts := Grown(old(parts), anchor))
    {
      parts := parts + [TailLocation(parts, anchor)];
    }

    /**
     * The older `eatFood`: the movement timer stops, regular and slow food add
     * a segment, the speed factor is applied and clamped and the timer
     * restarts; no kind is fatal.
     */
    method EatFood(kind: FoodKind)
      requires Valid()
      modifies this
      ensures Valid()
      ensures View() == old(View()).(parts := if Grows(kind) then Grown(old(parts), anchor) else old(parts),
                                     moveSpeed := ClampSpeed(old(moveSpeed) * SpeedFactor(kind), initialSpeed),
                                     moving := true)
    {
      moving := false;
      if Grows(kind) {
        Eat();
      }
      moveSpeed := ClampSpeed(moveSpeed * SpeedFactor(kind), initialSpeed);
      moving := true;
    }

    /** A tap or swipe asking for heading `req`, gated as `Turn` says. */
    method Steer(req: Direction)
      requires Valid()
      modifies this
      ensures Valid() && View() == old(View()).(direction := Turn(old(parts), old(direction), req))
    {
      direction := Turn(parts, direction, req);
    }

    /** `fire(bulletHandler:...)`. */
    method Fire()
      requires Valid()
      modifies this
      ensures Valid() && View() == FireView(old(View()))
    {
      FireKeepsGun(View());
      if !allowFire {
        return;
      }
      var id := nextShot;
      allowFire := false;
      shots := shots[id := Shot(parts[0], direction, Player)];
      flying := flying + {id};
      nextShot := id + 1;
      assert View() == FireView(old(View()));
    }

    /** One of the delayed `allowFire = true` closures runs. */
    method Rearm()
      requires Valid() && rearms > 0
      modifies this
      ensures Valid() && View() == old(View()).(allowFire := true, rearms := old(rearms) - 1)
    {
      allowFire := true;
      rearms := rearms - 1;
    }

    /** A bullet's timer fires: the bullet moves one cell along its heading (`AdvancedView`). */
    method Advance(id: nat)
      requires Valid() && id in flying
      modifies this
      ensures Valid() && View() == AdvancedView(old(View()), id)
    {
      var s := shots[id];
      shots := shots[id := s.(at := Step(s.at, s.heading))];
    }

    /** The body test of the bullet's timer: a bullet on a segment stops and a re-arm is scheduled. */
    method Block(id: nat)
      requires Valid()
      modifies this
      ensures Valid() && View() == old(View()).(flying := old(flying) - {id}, rearms := old(rearms) + 1)
    {
      flying := flying - {id};
      rearms := rearms + 1;
    }

    /** What the handler's verdict `h` does to the bullet: its timer stops unless it flies on, and a finish re-arms. */
    method Handle(id: nat, h: Handled)
      requires Valid()
      modifies this
      ensures Valid()
      ensures View() == old(View()).(flying := if h != Flies then old(flying) - {id} else old(flying),
                                     rearms := old(rearms) + (if Finished(h) then 1 else 0))
    {
      if h != Flies {
        flying := flying - {id};
      }
      if Finished(h) {
        rearms := rearms + 1;
      }
    }
  }

  // ---------------------------------------------------------------------------
  // The board

  /** The game variables of the older `Board`, apart from its snake. */
  datatype BoardState = BoardState(
    food: FoodMap, count: nat, time: nat, ticks: nat, lost: bool, spawnTime: real,
    spawning: bool, clockRunning: bool, popupScore: Option<int>)

  /** The older `didLose` closure with `showLostPopup`: both timers stop at once and the score has no bonus. */
  function AfterLoss(b: BoardState): (r: BoardState)
    ensures r.lost && !r.clockRunning && !r.spawning && r.popupScore == Some(Score(b.count, b.time, 0))
    ensures r.food == b.food && r.count == b.count && r.time == b.time
  {
    b.(lost := true, clockRunning := false, spawning := false, popupScore := Some(Score(b.count, b.time, 0)))
  }

  /** `didEatFood`: the eaten food goes, the spawn interval is scaled and clamped, the count rises, spawning restarts. */
  function AfterEating(b: BoardState, mul: real, key: Cell): (r: BoardState)
    ensures key !in r.food && r.food.Keys == b.food.Keys - {key}
    ensures r.count == b.count + 1 && r.spawning
    ensures MinSpawnTime <= r.spawnTime <= InitialSpawnTime
  {
    b.(food := b.food - {key}, spawnTime := ClampSpawnTime(b.spawnTime * mul),
       count := b.count + 1, spawning := true)
  }

  /** What a tick of the older movement timer leads to. */
  datatype TickOutcome = OffBoard | SelfHit | EggHit | Ate(kind: FoodKind) | Moved

  /** The older movement timer's tests: the bounds, the head against the body, then the food on the new cell. */
  function TickOf(parts: seq<Cell>, d: Direction, food: FoodMap, width: int, height: int): (t: TickOutcome)
    requires |parts| > 0
    ensures t == OffBoard <==> !InBoard(Step(parts[0], d), width, height)
    ensures t == SelfHit <==> InBoard(Step(parts[0], d), width, height) && parts[0] in parts[1..]
    ensures t == EggHit ==> Step(parts[0], d) in food && food[Step(parts[0], d)].hasEgg
    ensures t.Ate? ==> Step(parts[0], d) in food && food[Step(parts[0], d)] == FoodEntry(t.kind, false)
    ensures t == Moved ==> Step(parts[0], d) !in food
  {
    var next := Step(parts[0], d);
    if !InBoard(next, width, height) then OffBoard
    else if parts[0] in parts[1..] then SelfHit
    else if next !in food then Moved
    else if food[next].hasEgg then EggHit
    else Ate(food[next].kind)
  }

  predicate Fatality(t: TickOutcome) {
    t == OffBoard || t == SelfHit || t == EggHit
  }

  /** The snake once its head is on the new cell: an egg stops it and blocks firing, food is handled as `eatFood` does. */
  function Landed(m: SnakeView, anchor: Cell, initial: real, t: TickOutcome): SnakeView
    requires |m.parts| > 0 && MinSpeed <= initial
  {
    match t
    case EggHit => m.(allowFire := false, moving := false)
    case Ate(k) =>
      m.(parts := if Grows(k) then Grown(m.parts, anchor) else m.parts,
         moveSpeed := ClampSpeed(m.moveSpeed * SpeedFactor(k), initial), moving := true)
    case _ => m
  }

  /** The snake after a tick toward `next`: stopped where it is, or moved and then `Landed`. */
  function SnakeAfterTick(v: SnakeView, anchor: Cell, initial: real, next: Cell, t: TickOutcome): SnakeView
    requires |v.parts| > 0 && MinSpeed <= initial
  {
    if t == OffBoard || t == SelfHit then v.(moving := false)
    else Landed(v.(parts := FollowLeader(v.parts, next)), anchor, initial, t)
  }

  /** The board after a tick toward `next`. */
  function BoardAfterTick(b: BoardState, next: Cell, t: TickOutcome): BoardState {
    if Fatality(t) then AfterLoss(b)
    else if t.Ate? then AfterEating(b, SpawnMultiplier(t.kind), next)
    else b
  }

  /**
   * A tick keeps the snake moving exactly when it does not end the game, the
   * game counts food exactly when some is eaten, and a loss shows the score
   * of the food and time so far.
   */
  lemma TickEffects(v: SnakeView, anchor: Cell, initial: real, b: BoardState, next: Cell, t: TickOutcome)
    requires |v.parts| > 0 && MinSpeed <= initial && v.moving
    ensures var r := SnakeAfterTick(v, anchor, initial, next, t);
      && (r.moving <==> !Fatality(t))
      && |r.parts| == |v.parts| + (if t.Ate? && Grows(t.kind) then 1 else 0)
    ensures var r := BoardAfterTick(b, next, t);
      && (r.lost <==> b.lost || Fatality(t))
      && r.count == b.count + (if t.Ate? then 1 else 0)
      && (Fatality(t) ==> r.popupScore == Some(Score(b.count, b.time, 0)))
  {
    if t != OffBoard && t != SelfHit {
      var m := v.(parts := FollowLeader(v.parts, next));
      assert SnakeAfterTick(v, anchor, initial, next, t) == Landed(m, anchor, initial, t);
    }
  }

  /**
   * The older spawn timer: a kind drawn by `r1` and `r2`, tried on `cell`
   * under the older guards, with an egg on a roll `die`.
   */
  function SpawnAfter(b: BoardState, parts: seq<Cell>, r1: real, r2: real, cell: Cell, die: int): (r: BoardState)
    requires |parts| > 0 && 1 <= die <= 6
    ensures r.(food := b.food) == b
    ensures forall c :: c in r.food && c !in b.food ==> c == cell && ClassicKind(r.food[c].kind)
  {
    b.(food := PlaceClassic(b.food, parts, cell, FoodEntry(PickSpecial(r1, r2), EggLaid(b.spawnTime, die))))
  }

  /** The board's invariant: food on the board and of the older kinds, and the spawn interval in range. */
  predicate StateOK(b: BoardState, width: int, height: int) {
    (forall c :: c in b.food ==> InBoard(c, width, height) && ClassicKind(b.food[c].kind))
    && MinSpawnTime <= b.spawnTime <= InitialSpawnTime
  }

  /** Spawning keeps the older game's food on the board and of its three kinds. */
  lemma SpawnKeepsState(b: BoardState, parts: seq<Cell>, r1: real, r2: real, cell: Cell, die: int, width: int, height: int)
    requires |parts| > 0 && 1 <= die <= 6 && StateOK(b, width, height) && InBoard(cell, width, height)
    ensures StateOK(SpawnAfter(b, parts, r1, r2, cell, die), width, height)
  {
    var r := SpawnAfter(b, parts, r1, r2, cell, die);
    forall c | c in r.food
      ensures InBoard(c, width, height) && ClassicKind(r.food[c].kind)
    {
      if c !in b.food {
        assert c == cell;
      }
    }
  }

  class Board {
    const width: int
    const height: int
    /** The container's extent in cells, at which bullets are retired. */
    const reachX: int
    const reachY: int
    var snake: Snake
    /** The view controller's game variables, as one record each event replaces. */
    var state: BoardState

    ghost predicate Valid()
      reads this, snake
    {
      snake.Valid() && snake.initialSpeed == ClassicSpeed
      && 1 <= width && 2 <= height
      && InBoard(snake.anchor, width, height)
      && (forall c :: c in snake.parts ==> InBoard(c, width, height))
      && StateOK(state, width, height)
    }

    /** `Board.create`, which ends in `startGame`. */
    constructor (width: int, height: int, reachX: int, reachY: int, heading: Direction)
      requires 1 <= width && 2 <= height
      ensures Valid() && fresh(snake)
      ensures this.width == width && this.height == height && this.reachX == reachX && this.reachY == reachY
      ensures state == BoardState(map[], 0, 0, 0, false, InitialSpawnTime, true, true, None)
      ensures snake.View() == SnakeView([StartCell(width, height)], heading, ClassicSpeed, true, true, map[], {}, 0, 0)
    {
      var s := new Snake(StartCell(width, height), ClassicSpeed, heading);
      s.StartMoving();
      this.width := width;
      this.height := height;
      this.reachX := reachX;
      this.reachY := reachY;
      snake := s;
      state := BoardState(map[], 0, 0, 0, false, InitialSpawnTime, true, true, None);
    }

    /**
     * The older `startGame` with `addSnakeToBoard`: the food goes, the count
     * and the spawn interval reset, a new snake starts moving in the middle,
     * and a new clock counts from zero; the time shown carries over until its
     * first tick.
     */
    method StartGame(heading: Direction)
      requires Valid()
      modifies this
      ensures Valid() && fresh(snake)
      ensures snake.View() == SnakeView([StartCell(width, height)], heading, ClassicSpeed, true, true, map[], {}, 0, 0)
      ensures state == old(state).(lost := false, count := 0, spawnTime := InitialSpawnTime, food := map[],
                                   spawning := true, ticks := 0, clockRunning := true)
    {
      var s := new Snake(StartCell(width, height), ClassicSpeed, heading);
      s.StartMoving();
      snake := s;
      state := state.(lost := false, count := 0, spawnTime := InitialSpawnTime, food := map[],
                      spawning := true, ticks := 0, clockRunning := true);
    }

    /** The clock's tick: the played time. */
    method SecondTick()
      requires Valid() && state.clockRunning
      modifies this
      ensures Valid() && snake == old(snake)
      ensures state == old(state).(ticks := old(state.ticks) + 1, time := old(state.ticks) + 1)
    {
      var i := state.ticks + 1;
      state := state.(ticks := i, time := i);
    }

    /** `didLose`: the game is lost and the popup shows at once. */
    method Lose()
      requires Valid()
      modifies this
      ensures Valid() && snake == old(snake)
      ensures state == AfterLoss(old(state))
    {
      state := state.(lost := true, clockRunning := false, spawning := false,
                      popupScore := Some(Score(state.count, state.time, 0)));
    }

    /** `changeDirectionByTap`, given the head's offsets from the tap in pixels. */
    method ChangeDirectionByTap(dx: real, dy: real)
      requires Valid()
      modifies snake
      ensures Valid()
      ensures snake.View() == old(snake.View()).(direction := Turn(old(snake.parts), old(snake.direction), TapRequest(dx, dy)))
    {
      snake.Steer(TapRequest(dx, dy));
    }

    /** `changeDirectionBySwipe`. */
    method ChangeDirectionBySwipe(req: Direction)
      requires Valid()
      modifies snake
      ensures Valid()
      ensures snake.View() == old(snake.View()).(direction := Turn(old(snake.parts), old(snake.direction), req))
    {
      snake.Steer(req);
    }

    /** `fire(gestureRecognizer:)`. */
    method Fire()
      requires Valid()
      modifies snake
      ensures Valid() && snake.View() == FireView(old(snake.View()))
    {
      snake.Fire();
    }

    /** A delayed `allowFire = true` runs. */
    method Rearm()
      requires Valid() && snake.rearms > 0
      modifies snake
      ensures Valid()
      ensures snake.View() == old(snake.View()).(allowFire := true, rearms := old(snake.rearms) - 1)
    {
      snake.Rearm();
    }

    /** The player's collision handler on the bullet's cell `at`: the lost game, the bounds, then the food. */
    method Handler(at: Cell) returns (h: Handled)
      requires Valid()
      modifies this
      ensures Valid() && snake == old(snake)
      ensures h == HandlerOf(at, old(state.lost), old(state.food), reachX, reachY)
      ensures state == old(state).(food := FoodAfterShot(old(state.food), at, h))
    {
      if state.lost {
        return Stopped;
      } else if OutOfField(at, reachX, reachY) {
        return OffField;
      } else if at in state.food {
        state := state.(food := StrikeClassic(state.food, at));
        return FoodStruck;
      }
      return Flies;
    }

    /**
     * One step of bullet `id`'s timer as written: the move, the body test,
     * and then the handler whether or not the body stopped the bullet.
     */
    method BulletStep(id: nat) returns (blocked: bool, h: Handled)
      requires Valid() && id in snake.flying
      modifies this, snake
      ensures Valid() && snake == old(snake)
      ensures var v := AdvancedView(old(snake.View()), id);
        && blocked == (v.shots[id].at in v.parts[1..])
        && h == HandlerOf(v.shots[id].at, old(state.lost), old(state.food), reachX, reachY)
        && snake.View() == ShotAfterAsWritten(v, id, blocked, h)
        && state == old(state).(food := FoodAfterShot(old(state.food), v.shots[id].at, h))
    {
      snake.Advance(id);
      var at := snake.shots[id].at;
      blocked := TouchBody(snake.parts, at);
      if blocked {
        snake.Block(id);
      }
      h := Handler(at);
      snake.Handle(id, h);
    }

    /** The older movement timer's tests on the cell ahead, `next`. */
    method LookAhead(next: Cell) returns (t: TickOutcome)
      requires Valid() && next == Step(snake.parts[0], snake.direction)
      ensures t == TickOf(snake.parts, snake.direction, state.food, width, height)
    {
      if !InBoard(next, width, height) {
        return OffBoard;
      }
      var hit := TouchBody(snake.parts, snake.parts[0]);
      if hit {
        return SelfHit;
      } else if next !in state.food {
        return Moved;
      } else if state.food[next].hasEgg {
        return EggHit;
      }
      return Ate(state.food[next].kind);
    }

    /** The snake's side of a tick with outcome `t`. */
    method TickSnake(next: Cell, t: TickOutcome)
      requires Valid() && next == Step(snake.parts[0], snake.direction)
      requires t == TickOf(snake.parts, snake.direction, state.food, width, height)
      modifies snake
      ensures Valid()
      ensures snake.View() == SnakeAfterTick(old(snake.View()), snake.anchor, ClassicSpeed, next, t)
    {
      if t == OffBoard || t == SelfHit {
        snake.Stop();
        return;
      }
      snake.Move(next);
      assert forall c :: c in snake.parts ==> c == next || c in old(snake.parts);
      Land(t);
    }

    /** The snake's side of a tick with outcome `t`, from its new cell on. */
    method Land(t: TickOutcome)
      requires Valid() && t != OffBoard && t != SelfHit
      modifies snake
      ensures Valid()
      ensures snake.View() == Landed(old(snake.View()), snake.anchor, ClassicSpeed, t)
    {
      if t == EggHit {
        snake.EggTouched();
      } else if t.Ate? {
        snake.EatFood(t.kind);
      }
    }

    /** The board's side of a tick with outcome `t`: `didLose` or `didEatFood`. */
    method TickBoard(next: Cell, t: TickOutcome)
      requires Valid()
      modifies this
      ensures Valid() && snake == old(snake)
      ensures state == BoardAfterTick(old(state), next, t)
    {
      if Fatality(t) {
        Lose();
      } else if t.Ate? {
        DidEatFood(SpawnMultiplier(t.kind), next);
      }
    }

    /** One tick of the older movement timer. */
    method MovementTick() returns (t: TickOutcome)
      requires Valid() && snake.moving
      modifies this, snake
      ensures Valid() && snake == old(snake)
      ensures var next := Step(old(snake.parts)[0], old(snake.direction));
        && t == TickOf(old(snake.parts), old(snake.direction), old(state.food), width, height)
        && snake.View() == SnakeAfterTick(old(snake.View()), snake.anchor, ClassicSpeed, next, t)
        && state == BoardAfterTick(old(state), next, t)
    {
      var next := Step(snake.parts[0], snake.direction);
      t := LookAhead(next);
      TickSnake(next, t);
      TickBoard(next, t);
    }

    /** `didEatFood`. */
    method DidEatFood(mul: real, key: Cell)
      requires Valid()
      modifies this
      ensures Valid() && snake == old(snake)
      ensures state == AfterEating(old(state), mul, key)
    {
      var t := Min(Max(state.spawnTime * mul, MinSpawnTime), InitialSpawnTime);
      assert t == ClampSpawnTime(state.spawnTime * mul);
      state := state.(food := state.food - {key}, spawnTime := t, count := state.count + 1, spawning := true);
    }

    /** The older spawn closure's guards on cell `c`: key free, not the head's, no segment on it, not `restrictedSpawn`. */
    method SpotFree(c: Cell) returns (free: bool)
      requires Valid()
      ensures free <==> !ClassicSpotTaken(state.food, snake.parts, c)
    {
      if c in state.food || c == snake.parts[0] {
        return false;
      }
      var covered := TouchBody(snake.parts, c);
      return !covered && !RestrictedSpawn(c, snake.parts[0]);
    }

    /** One tick of the older spawn timer, which has no guard for the lost game. */
    method SpawnTick(r1: real, r2: real, cell: Cell, die: int)
      requires Valid() && state.spawning && InBoard(cell, width, height) && 1 <= die <= 6
      modifies this
      ensures Valid() && snake == old(snake)
      ensures state == SpawnAfter(old(state), snake.parts, r1, r2, cell, die)
    {
      SpawnKeepsState(state, snake.parts, r1, r2, cell, die, width, height);
      var kind := PickSpecial(r1, r2);
      var free := SpotFree(cell);
      if free {
        var egg := EggLaid(state.spawnTime, die);
        state := state.(food := state.food[cell := FoodEntry(kind, egg)]);
      }
    }
  }
}
