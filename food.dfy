/**
 * The food on the board: kinds, the dictionary keyed by cell
 * (`spawnedFoodDictionary`), what a bullet does to the food it hits, the
 * placement guards of both game versions, the threshold tests that choose a
 * kind, the egg roll and the boss's sweep over the food under it.
 */
module Food {
  import opened Grid
  import opened Tuning

  /**
   * `FoodType`. Its `boss` case only names the boss's image and never labels a
   * dictionary entry, so it has no counterpart here; the older game uses only
   * `Regular`, `Slow` and `DoNothing`.
   */
  datatype FoodKind = Regular | Slow | Enemy | EnemyDamaged | DoNothing

  /** One dictionary entry: the kind and whether an egg sits on it. */
  datatype FoodEntry = FoodEntry(kind: FoodKind, hasEgg: bool)

  type FoodMap = map<Cell, FoodEntry>

  /** Food the snake grows from (`eatFood`'s `.regular, .slow` case). */
  predicate Grows(k: FoodKind) {
    k == Regular || k == Slow
  }

  /** Food that kills the snake when eaten (`.enamy, .enamyDamaged`). */
  predicate Fatal(k: FoodKind) {
    k == Enemy || k == EnemyDamaged
  }

  /** `eatFood`'s speed factor: regular food speeds the snake up, slow food slows it down. */
  function SpeedFactor(k: FoodKind): (f: real)
    ensures k == Regular ==> f < 1.0
    ensures k == Slow ==> f > 1.0
    ensures !Grows(k) ==> f == 1.0
  {
    match k
    case Regular => 0.96
    case Slow => 1.05
    case _ => 1.0
  }

  /** The spawn-interval multiplier `eatFood` hands to `didEatFood`. */
  function SpawnMultiplier(k: FoodKind): (f: real)
    ensures k == Regular ==> f < 1.0
    ensures k == Slow ==> f > 1.0
    ensures !Grows(k) ==> f == 1.0
  {
    match k
    case Regular => 0.98
    case Slow => 1.02
    case _ => 1.0
  }

  // ---------------------------------------------------------------------------
  // Bullet hits

  /** Hits a piece of food takes before it leaves the board: one for the egg, one more for an enemy. */
  function Toughness(e: FoodEntry): nat {
    1 + (if e.hasEgg then 1 else 0) + (if e.kind == Enemy then 1 else 0)
  }

  /**
   * A bullet reaching the food on `c` in the newer game (the same in the
   * player's, an enemy's and the boss's collision handler): the egg goes
   * first, an egg-less enemy turns into a damaged one, anything else egg-less
   * is removed.
   */
  function Strike(m: FoodMap, c: Cell): (r: FoodMap)
    requires c in m
    ensures forall k :: k != c ==> (k in r <==> k in m) && (k in r ==> r[k] == m[k])
    ensures c in r <==> Toughness(m[c]) > 1
    ensures c in r ==> !r[c].hasEgg && Toughness(r[c]) == Toughness(m[c]) - 1
    ensures m[c].hasEgg ==> c in r && r[c].kind == m[c].kind
    ensures !m[c].hasEgg && m[c].kind == Enemy ==> c in r && r[c].kind == EnemyDamaged
  {
    var e := m[c];
    if e.hasEgg then m[c := e.(hasEgg := false)]
    else if e.kind == Enemy then m[c := FoodEntry(EnemyDamaged, false)]
    else m - {c}
  }

  /** The food map after `n` hits on cell `c` (hits on an empty cell change nothing). */
  function StrikeTimes(m: FoodMap, c: Cell, n: nat): FoodMap {
    if n == 0 || c !in m then m else StrikeTimes(Strike(m, c), c, n - 1)
  }

  /** Food on `c` survives fewer hits than its toughness and is gone after exactly that many. */
  lemma {:induction false} StrikesToClear(m: FoodMap, c: Cell, n: nat)
    requires c in m
    ensures c in StrikeTimes(m, c, n) <==> n < Toughness(m[c])
    decreases n
  {
    if n > 0 {
      var m' := Strike(m, c);
      if c in m' {
        var k: nat := n - 1;
        StrikesToClear(m', c, k);
      }
    }
  }

  /** An egg-less enemy is damaged by the first hit and removed by the second. */
  lemma EnemyFallsAfterTwoHits(m: FoodMap, c: Cell)
    requires c in m && m[c] == FoodEntry(Enemy, false)
    ensures c in Strike(m, c) && Strike(m, c)[c] == FoodEntry(EnemyDamaged, false)
    ensures c !in Strike(Strike(m, c), c)
  {
  }

  /** The older game's hit: the egg goes first, otherwise the food is removed. */
  function StrikeClassic(m: FoodMap, c: Cell): (r: FoodMap)
    requires c in m
    ensures forall k :: k != c ==> (k in r <==> k in m) && (k in r ==> r[k] == m[k])
    ensures c in r <==> m[c].hasEgg
    ensures c in r ==> r[c] == m[c].(hasEgg := false)
  {
    var e := m[c];
    if e.hasEgg then m[c := e.(hasEgg := false)] else m - {c}
  }

  /** On everything but an enemy, the two versions' hits have the same effect. */
  lemma StrikeVersionsAgree(m: FoodMap, c: Cell)
    requires c in m && m[c].kind != Enemy
    ensures StrikeClassic(m, c) == Strike(m, c)
  {
  }

  // ---------------------------------------------------------------------------
  // Placement

  /**
   * `addFoodToBoard`'s guards: the key is taken, the cell is the head's, a
   * body segment covers it, or it lies within distance 2 of the head.
   * (`isInfront` never holds, so it adds nothing; see `AheadIsNear`.)
   */
  predicate ArenaSpotTaken(m: FoodMap, parts: seq<Cell>, c: Cell)
    requires |parts| > 0
  {
    c in m || c == parts[0] || c in parts[1..] || Near(c, parts[0])
  }

  /** `addFoodToBoard`: place food `e` on cell `c` unless a guard rejects it. */
  function PlaceArena(m: FoodMap, parts: seq<Cell>, c: Cell, e: FoodEntry): (r: FoodMap)
    requires |parts| > 0
    ensures forall k :: k in m ==> k in r && r[k] == m[k]
    ensures r.Keys <= m.Keys + {c}
    ensures r != m <==> !ArenaSpotTaken(m, parts, c)
    ensures r != m ==> c !in m && r == m[c := e] && c !in parts && DistanceSquared(c, parts[0]) > 4
  {
    if ArenaSpotTaken(m, parts, c) then m else m[c := e]
  }

  /**
   * The older spawn closure's `restrictedSpawn`, grouped as Swift's
   * precedence groups it (`&&` binds tighter than `||`).
   */
  predicate RestrictedSpawn(c: Cell, h: Cell) {
    ((c.y == h.y - 1 || c.y == h.y - 2) && c.x == h.x)
    || (((c.y == h.y + 1 || c.y == h.y + 2) || c.x == h.x)
        && ((c.x == h.x + 1 || c.x == h.x + 2) || c.y == h.y)
        && ((c.x == h.x - 1 || c.x == h.x - 2) || c.y == h.y))
  }

  /** What `restrictedSpawn` rules out: the head's cell and the two cells above the head. */
  lemma RestrictedSpawnCells(c: Cell, h: Cell)
    ensures RestrictedSpawn(c, h) <==> c == h || (c.x == h.x && (c.y == h.y - 1 || c.y == h.y - 2))
  {
  }

  /** The older spawn closure's guards: key taken, head's cell, a body segment, or `restrictedSpawn`. */
  predicate ClassicSpotTaken(m: FoodMap, parts: seq<Cell>, c: Cell)
    requires |parts| > 0
  {
    c in m || c == parts[0] || c in parts[1..] || RestrictedSpawn(c, parts[0])
  }

  function PlaceClassic(m: FoodMap, parts: seq<Cell>, c: Cell, e: FoodEntry): (r: FoodMap)
    requires |parts| > 0
    ensures forall k :: k in m ==> k in r && r[k] == m[k]
    ensures r.Keys <= m.Keys + {c}
    ensures r != m <==> !ClassicSpotTaken(m, parts, c)
    ensures r != m ==> c !in m && r == m[c := e] && c !in parts
  {
    if ClassicSpotTaken(m, parts, c) then m else m[c := e]
  }

  /** The newer rule rejects every cell the older one does. */
  lemma ArenaRejectsMore(m: FoodMap, parts: seq<Cell>, c: Cell)
    requires |parts| > 0
    ensures ClassicSpotTaken(m, parts, c) ==> ArenaSpotTaken(m, parts, c)
  {
    RestrictedSpawnCells(c, parts[0]);
  }

  // ---------------------------------------------------------------------------
  // Choosing a kind and laying an egg

  /** The first draw's "special" bands: at most 0.04, in [0.44, 0.5), or at least 0.95. */
  predicate SpecialDraw(r: real) {
    r <= 0.04 || (r >= 0.44 && r < 0.5) || r >= 0.95
  }

  /** The kind of a non-enemy spawn from the two draws (the same in both versions). */
  function PickSpecial(r1: real, r2: real): (k: FoodKind)
    ensures k == Regular || k == Slow || k == DoNothing
    ensures k != Regular <==> SpecialDraw(r1)
    ensures k == Slow <==> SpecialDraw(r1) && r2 > 0.25
  {
    if SpecialDraw(r1) then (if r2 > 0.25 then Slow else DoNothing) else Regular
  }

  datatype Pick = Pick(kind: FoodKind, ratio: real)

  /**
   * The newer spawn tick's choice: an enemy when the enemy draw falls below
   * the ratio (which is then damped), otherwise the special-food test.
   */
  function PickArena(enemyDraw: real, ratio: real, r1: real, r2: real): (p: Pick)
    ensures p.kind == Enemy <==> enemyDraw < ratio
    ensures p.kind == Enemy ==> p.ratio == EnemyPickedRatio(ratio)
    ensures p.kind != Enemy ==> p.ratio == ratio && p.kind == PickSpecial(r1, r2)
    ensures 0.0 <= ratio <= MaxEnemyRatio ==> 0.0 <= p.ratio <= MaxEnemyRatio
  {
    if enemyDraw < ratio then Pick(Enemy, EnemyPickedRatio(ratio))
    else Pick(PickSpecial(r1, r2), ratio)
  }

  /** The egg roll: `spawnTime / die <= 0.32` for a die in 1...6. */
  function EggLaid(spawnTime: real, die: int): (b: bool)
    requires 1 <= die <= 6
    ensures b <==> spawnTime <= 0.32 * die as real
  {
    spawnTime / (die as real) <= 0.32
  }

  /**
   * Eggs get likelier as food comes faster: at the slowest interval only a 5
   * or a 6 lays one, at the fastest every roll does.
   */
  lemma EggOdds(spawnTime: real, die: int)
    requires 1 <= die <= 6
    ensures spawnTime == InitialSpawnTime ==> (EggLaid(spawnTime, die) <==> die >= 5)
    ensures spawnTime == MinSpawnTime ==> EggLaid(spawnTime, die)
  {
  }

  /** A shorter interval never withdraws an egg a longer one would lay. */
  lemma EggMonotone(s1: real, s2: real, die: int)
    requires 1 <= die <= 6 && s1 <= s2
    ensures EggLaid(s2, die) ==> EggLaid(s1, die)
  {
  }

  // ---------------------------------------------------------------------------
  // The boss over the food

  /** The boss image is three cells square, origin at `at`. */
  predicate InBossFrame(c: Cell, at: Cell) {
    at.x <= c.x < at.x + 3 && at.y <= c.y < at.y + 3
  }

  /**
   * The part of the boss that kills the snake (`bossCheck`): a frame inset by
   * one cell at the top left, 1.8 cells wide, which holds the centres of the
   * 2 by 2 cells at the boss's lower right.
   */
  predicate InBossCore(c: Cell, at: Cell) {
    at.x + 1 <= c.x < at.x + 3 && at.y + 1 <= c.y < at.y + 3
  }

  /** `Swept`: the food map once the boss has moved to `at`. */
  function Swept(m: FoodMap, at: Cell): (r: FoodMap)
    ensures forall k :: k in r <==> k in m && !InBossFrame(k, at)
    ensures forall k :: k in r ==> r[k] == m[k]
  {
    map k | k in m && !InBossFrame(k, at) :: m[k]
  }

  /** The boss tick's loop over the dictionary, removing every entry whose food lies under the boss. */
  method Sweep(m: FoodMap, at: Cell) returns (r: FoodMap)
    ensures r == Swept(m, at)
  {
    r := m;
    var todo := m.Keys;
    while todo != {}
      invariant todo <= m.Keys
      invariant forall k :: k in r <==> k in m && (k in todo || !InBossFrame(k, at))
      invariant forall k :: k in r ==> r[k] == m[k]
      decreases |todo|
    {
      var k :| k in todo;
      if InBossFrame(k, at) {
        r := r - {k};
      }
      todo := todo - {k};
    }
    assert r.Keys == Swept(m, at).Keys;
  }
}
