# Snake: a verified model of the game logic

This project models the game logic of an iOS snake game, on an integer grid. The game exists in two versions.

- The newer `Board` and `Snake` (Snake/ViewControllers/BoardContainerViewController.swift) add enemies, damaged enemies that shoot, a boss with its own timer, and a bonus score.
- The older `Board` and `Snake` (Snake/BoardContainerViewController.swift) have three food kinds, a single player's bullet and no enemies.

Both versions share the same pieces:

- a body chain that moves follow-the-leader and grows at the tail;
- a movement tick that tests the edge, then the body, then the food ahead;
- a food dictionary keyed by cell, with placement guards and hit effects;
- counters and clamped quantities;
- fire gating through `allowFire`.

Every timer of the game becomes an event method that the environment calls, and so does every delayed closure. Each such method runs only while the timer or closure is live: the movement timer (`moving`), the clock (`clockRunning`), the spawn timer (`spawning`), each bullet's timer (its id in `flying`), the boss timer (`bossTimerLive`), and a pending-closure count for the delayed `allowFire = true`, the boss's resume, the lost popup and the boss's arrival. Random draws, the dictionary's iteration order and the boss's bounce target are parameters.

Modules:

- `Wrappers`: `Option`.
- `Grid`: cells, headings, one step, the board test, truncation to a cell, and the dictionary's text key "(x, y)" with a parser that inverts it.
- `Body`: the body chain as a `seq<Cell>`, head first. It holds the `move` and `touchBody` loops, growth at the tail, and the turn gate.
- `Tuning`: the constants, the clamps, the enemy-chance ratio, the boss counters and the score.
- `Food`: food kinds and entries, hit effects, both versions' placement guards, the kind choice and the egg roll.
- `Shots`: bullets, the `bullets` list, the scan for a bullet met on the way, and annihilation.
- `Arena`: the newer `Snake` and `Board` as classes.
- `Classic`: the older ones.

In each class a ghost `View()` collects the fields. Every method states its new state as a function of the old one. Lemmas then prove what the game promises about those functions.

The newer `Board` keeps its game variables in one `BoardState` record field that each event replaces. That record maps one-to-one onto the controller's variables (`spawnedFoodDictionary`, `count`, `time`, `didLose`, `bonusScore`, `spawnTime`, `enamyChanceRatio`, `bossData`, `numToKillBoss`, `bossMoveTime`, `skipMove`, `timeForBoss`), plus the timer and pending-closure flags.

Where the code and its evident intent differ, the model follows the code, with one exception: when two bullets meet, the newer board runs the corrected annihilation of the Findings row, and the code as written is modelled beside it (`Arena.CollidedViewAsWritten`, `Arena.CollideAsWrittenBreaksGun`). The quirks the model keeps:

- **Late self-collision.** The movement tick tests the head against the body *before* the move. A move onto the body is therefore only seen on the next tick (`Body.CollisionSeenNextTick`).
- **Growth from the start cell.** `move` never rewrites the head's `locationFrame`. So a one-segment snake that eats gets its new segment on its start cell (`Body.TailLocation`, `Body.AnchorGrowthCollides`).
- **The older blocked bullet.** In the older `Snake.fire`, a bullet stopped by the body still reaches the collision handler. The newer file adds the missing `else` (`Classic.BlockedShotStillHandled`, `Classic.IntendedShotRearmsOnce`).
- **`isInfront`.** It compares a cell index with a pixel coordinate, so it never holds. The radius check rejects the cell ahead anyway (`Grid.AheadIsNear`).

## Model

| member | source | states |
|---|---|---|
| Grid.DistanceSquared | Snake/ViewControllers/BoardContainerViewController.swift:1221-1223 | the squared distance is non-negative and zero exactly on the same cell |
| Grid.Step | Snake/ViewControllers/BoardContainerViewController.swift:1389-1406 | a step moves exactly one cell, along the heading's axis only |
| Grid.StepBack | Snake/ViewControllers/BoardContainerViewController.swift:1389-1406 | stepping back along the opposite heading returns to the start cell |
| Grid.StartCell | Snake/ViewControllers/BoardContainerViewController.swift:176-177 | the start cell `(rows / 2, cols / 2 - 1)` lies on the board |
| Grid.AheadIsNear | Snake/ViewControllers/BoardContainerViewController.swift:1180-1182 | the cell ahead of the head is within the radius-2 rejection, so `isInfront` adds nothing |
| Grid.Truncate | Snake/ViewControllers/BoardContainerViewController.swift:1742-1743 | Swift's `Int(Double)` truncates toward zero, on both signs |
| Grid.KeyPoint | Snake/ViewControllers/BoardContainerViewController.swift:1438-1443 | for non-negative coordinates the key point is the floor of each coordinate |
| Grid.KeyPointOfCell | Snake/ViewControllers/BoardContainerViewController.swift:1438-1443 | any point inside a board cell yields that cell's key |
| Grid.NatTextDigits | Snake/ViewControllers/BoardContainerViewController.swift:1745 | a number prints as a non-empty string of decimal digits |
| Grid.NatTextValue | Snake/ViewControllers/BoardContainerViewController.swift:1745 | the printed digits have the printed number's value |
| Grid.NatTextRoundTrip | Snake/ViewControllers/BoardContainerViewController.swift:1745 | a printed natural number parses back to itself and holds no sign or comma |
| Grid.IntTextRoundTrip | Snake/ViewControllers/BoardContainerViewController.swift:1745 | a printed integer, negative ones included, parses back to itself and holds no comma |
| Grid.IndexOfAfter | Snake/ViewControllers/BoardContainerViewController.swift:1745 | the first comma of "a, b" is the one after `a` when `a` holds none |
| Grid.ParsePair | Snake/ViewControllers/BoardContainerViewController.swift:1745 | "(a, b)" parses to the cell whose coordinates `a` and `b` spell |
| Grid.KeyTextRoundTrip | Snake/ViewControllers/BoardContainerViewController.swift:1741-1748 | parsing the key `generateKeyPoint` makes gives the cell back |
| Grid.KeyTextInjective | Snake/ViewControllers/BoardContainerViewController.swift:1741-1748 | distinct cells never share a key, so keying the dictionary by cell loses nothing |
| Body.FollowLeader | Snake/ViewControllers/BoardContainerViewController.swift:1325-1371 | the move keeps the number of segments |
| Body.Shift | Snake/ViewControllers/BoardContainerViewController.swift:1340-1365 | the cursor walk returns the head on the target with every other segment on the previous place of the one ahead of it |
| Body.TouchBody | Snake/ViewControllers/BoardContainerViewController.swift:1623-1635 | the scan reports a hit exactly when a non-head segment covers the cell |
| Body.Grown | Snake/ViewControllers/BoardContainerViewController.swift:1607-1621 | eating adds exactly one segment behind the old tail and keeps the old body in front of it |
| Body.GrowThenMove | Snake/ViewControllers/BoardContainerViewController.swift:1607-1621 | the move after growing leaves the whole old body behind the new head |
| Body.MovePreservesConnected | Snake/ViewControllers/BoardContainerViewController.swift:1325-1371 | a move to the adjacent cell keeps neighbouring segments adjacent |
| Body.GrowPreservesConnected | Snake/ViewControllers/BoardContainerViewController.swift:1607-1621 | growth keeps a body of two or more segments connected |
| Body.CollisionSeenNextTick | Snake/ViewControllers/BoardContainerViewController.swift:1414-1418 | a move onto the body is reported on the next tick exactly when the target is a segment other than the vacated tail |
| Body.AnchorGrowthCollides | Snake/ViewControllers/BoardContainerViewController.swift:1607-1621 | a one-segment snake that eats while its head is on its start cell gets its new segment under its head, and collides on the next tick |
| Body.GrowOffAnchorDisconnects | Snake/ViewControllers/BoardContainerViewController.swift:1607-1621 | a one-segment snake that eats away from its start cell gets its new segment on that far cell, so its body is not connected |
| Body.Turn | Snake/ViewControllers/BoardContainerViewController.swift:494-528 | a request is taken unless the head and the next segment block its axis; a one-segment snake takes any request |
| Body.TurnPerpendicular | Snake/ViewControllers/BoardContainerViewController.swift:494-528 | after a step, a perpendicular request is always honoured |
| Body.TurnSameAxis | Snake/ViewControllers/BoardContainerViewController.swift:494-528 | after a step, a request on the same axis (reversal included) is ignored |
| Body.TapRequest | Snake/ViewControllers/BoardContainerViewController.swift:459-492 | the tap gives the dominant axis's heading toward the tap |
| Tuning.ClampSpawnTime | Snake/ViewControllers/BoardContainerViewController.swift:736-739 | the spawn interval always lies in [0.3, 1.6] and in-range values are unchanged |
| Tuning.ClampSpeed | Snake/ViewControllers/BoardContainerViewController.swift:1597-1598 | the move interval always lies in [0.2, initialSpeed] and in-range values are unchanged |
| Tuning.SpeedDecayBounds | Snake/ViewControllers/BoardContainerViewController.swift:1582 | repeated `* 0.96` stays between 0 and the start value |
| Tuning.SpawnDecayBounds | Snake/ViewControllers/BoardContainerViewController.swift:1583 | repeated `* 0.98` stays between 0 and the start value |
| Tuning.SpeedAfterRegularIsGeometric | Snake/ViewControllers/BoardContainerViewController.swift:1580-1598 | n regular foods give the interval `v * 0.96^n`, floored at 0.2 |
| Tuning.SpawnTimeAfterRegularIsGeometric | Snake/ViewControllers/BoardContainerViewController.swift:736-739 | n regular foods give the spawn interval `s * 0.98^n`, floored at 0.3 |
| Tuning.PerSecondRatio | Snake/ViewControllers/BoardContainerViewController.swift:351-352 | the per-second growth never exceeds 0.44 and never lowers an in-range ratio |
| Tuning.QueryRatio | Snake/ViewControllers/BoardContainerViewController.swift:720-721 | a query raises the ratio only when food is found, and never above 0.44 |
| Tuning.EnemyPickedRatio | Snake/ViewControllers/BoardContainerViewController.swift:1126-1128 | choosing an enemy strictly lowers a positive ratio |
| Tuning.RatioStaysBounded | Snake/ViewControllers/BoardContainerViewController.swift:343-352 | any sequence of seconds, queries and enemy picks keeps the ratio in [0, 0.44] |
| Tuning.RatioZeroUntilFood | Snake/ViewControllers/BoardContainerViewController.swift:699 | the ratio stays 0, so no enemy can be chosen, until a query finds food |
| Tuning.NextTimeForBoss | Snake/ViewControllers/BoardContainerViewController.swift:343-348 | `timeForBoss` counts up each second without a boss and is 0 while one exists |
| Tuning.NextKillTarget | Snake/ViewControllers/BoardContainerViewController.swift:389-390 | the kill target grows by two and never exceeds 28 |
| Tuning.KillTargetSchedule | Snake/ViewControllers/BoardContainerViewController.swift:361-390 | the k-th boss needs `12 + 2k` hits, capped at 28 |
| Tuning.NextBossMoveTime | Snake/ViewControllers/BoardContainerViewController.swift:397-398 | the boss interval drops by 0.05 but not below the snake's interval less 0.08 |
| Tuning.BossMoveTimeBounded | Snake/ViewControllers/BoardContainerViewController.swift:397-398 | with the snake's interval in range, the boss interval stays in [0.12, 0.64] |
| Tuning.Score | Snake/ViewControllers/BoardContainerViewController.swift:686 | the score is at least the bonus, and equals it when no time was played |
| Tuning.ScoreMonotone | Snake/ViewControllers/BoardContainerViewController.swift:686 | more food, time or bonus never lowers the score |
| Food.SpeedFactor | Snake/ViewControllers/BoardContainerViewController.swift:1580-1595 | regular food speeds up (0.96), slow food slows down (1.05), others keep the interval |
| Food.SpawnMultiplier | Snake/ViewControllers/BoardContainerViewController.swift:1580-1595 | regular food shortens the spawn interval (0.98), slow food lengthens it (1.02), others keep it |
| Food.Strike | Snake/ViewControllers/BoardContainerViewController.swift:419-449 | a hit strips only an egg; an egg-less enemy becomes damaged; any other egg-less food is removed; other keys are untouched |
| Food.StrikesToClear | Snake/ViewControllers/BoardContainerViewController.swift:419-449 | an egg-less food is gone after as many hits as its toughness |
| Food.EnemyFallsAfterTwoHits | Snake/ViewControllers/BoardContainerViewController.swift:421-433 | an egg-less enemy is damaged by one hit and gone after two |
| Food.StrikeClassic | Snake/BoardContainerViewController.swift:320-336 | the older hit strips only an egg, otherwise removes the food, and leaves other keys alone |
| Food.StrikeVersionsAgree | Snake/BoardContainerViewController.swift:320-336 | on anything but an enemy the two versions' hits agree |
| Food.PlaceArena | Snake/ViewControllers/BoardContainerViewController.swift:1148-1219 | placement adds exactly one entry, never overwrites, and adds it only on a free cell off the body and more than 2 from the head |
| Food.RestrictedSpawnCells | Snake/BoardContainerViewController.swift:637-640 | under operator precedence `restrictedSpawn` holds exactly on the head's cell and the two cells above it |
| Food.PlaceClassic | Snake/BoardContainerViewController.swift:617-657 | the older spawn adds exactly one entry, never overwrites, and only when no guard rejects the cell |
| Food.ArenaRejectsMore | Snake/ViewControllers/BoardContainerViewController.swift:1163-1184 | every cell the older guards reject, the newer ones reject too |
| Food.PickSpecial | Snake/BoardContainerViewController.swift:588-596 | the food is special exactly on the first draw's bands, and slow exactly when the second draw exceeds 0.25 |
| Food.PickArena | Snake/ViewControllers/BoardContainerViewController.swift:1122-1140 | an enemy is chosen exactly when its draw is below the ratio, which is then damped and stays in range |
| Food.EggLaid | Snake/ViewControllers/BoardContainerViewController.swift:1200-1201 | an egg is laid exactly when `spawnTime <= 0.32 * die` |
| Food.EggOdds | Snake/ViewControllers/BoardContainerViewController.swift:1200-1201 | at the slowest interval only a 5 or 6 lays an egg, at the fastest every roll does |
| Food.EggMonotone | Snake/ViewControllers/BoardContainerViewController.swift:1200-1201 | a shorter interval never withdraws an egg |
| Food.Swept | Snake/ViewControllers/BoardContainerViewController.swift:1108-1114 | after the boss moves, no food lies under it and the rest is kept |
| Food.Sweep | Snake/ViewControllers/BoardContainerViewController.swift:1108-1114 | the loop over the dictionary computes `Swept` |
| Shots.Without | Snake/ViewControllers/BoardContainerViewController.swift:1510-1515 | `remove(at: firstIndex(of:))` shortens the list by one when the bullet is listed, keeps every other bullet, and adds none |
| Shots.DistinctCons | Snake/ViewControllers/BoardContainerViewController.swift:1466 | a new bullet in front of a repeat-free list keeps it repeat-free |
| Shots.WithoutDistinct | Snake/ViewControllers/BoardContainerViewController.swift:1510-1515 | removal keeps the list repeat-free and takes the bullet out completely |
| Shots.FirstCollider | Snake/ViewControllers/BoardContainerViewController.swift:1506-1507 | the scan finds another listed bullet on the same cell, and finds none exactly when there is none |
| Shots.FindCollider | Snake/ViewControllers/BoardContainerViewController.swift:1506-1522 | the `for fire in bullets` loop computes `FirstCollider` |
| Shots.Annihilated | Snake/ViewControllers/BoardContainerViewController.swift:1508-1520 | both bullets stop and no other starts |
| Shots.AnnihilatedKeepsTracked | Snake/ViewControllers/BoardContainerViewController.swift:1508-1520 | with both timers stopped, every flying bullet is still listed |
| Shots.AnnihilationAsWrittenLeavesGhost | Snake/ViewControllers/BoardContainerViewController.swift:1508 | as written, for any two distinct bullets in a repeat-free list, the one run into keeps flying after leaving the list, so a flying bullet is unlisted |
| Arena.FireKeepsGun | Snake/ViewControllers/BoardContainerViewController.swift:1461-1476 | a shot needs `allowFire`, adds one fresh flying bullet at `from`, keeps firing open only for lethal shooters, and keeps the bookkeeping |
| Arena.VolleyKeeps | Snake/ViewControllers/BoardContainerViewController.swift:821-827 | the enemies' volley changes only the bullets, one per damaged enemy, and nothing when firing is blocked |
| Arena.VolleyStep | Snake/ViewControllers/BoardContainerViewController.swift:821-827 | each enemy's shot gets the next id, its cell and its draw |
| Arena.VolleyEffect | Snake/ViewControllers/BoardContainerViewController.swift:821-827 | the volley's bullets fly from the enemies' cells in visiting order, one id each |
| Arena.AdvancedView | Snake/ViewControllers/BoardContainerViewController.swift:1477-1491 | a bullet step moves only that bullet, along its fixed heading; the model's step is one cell, the source's `bodySize` is ten pixels short of one |
| Arena.CollideKeepsGun | Snake/ViewControllers/BoardContainerViewController.swift:1506-1522 | in the corrected annihilation, after two bullets meet neither flies nor is listed, and the bookkeeping holds |
| Arena.CollideAsWrittenBreaksGun | Snake/ViewControllers/BoardContainerViewController.swift:1506-1522 | as written, the bullet run into keeps flying while no longer listed, so the bookkeeping breaks |
| Arena.RetireKeepsGun | Snake/ViewControllers/BoardContainerViewController.swift:1529-1547 | a finished bullet leaves the list and stops, and every other flying bullet stays listed |
| Arena.FateOf | Snake/ViewControllers/BoardContainerViewController.swift:1499-1549 | the step's tests in order: a lethal bullet on the head, another bullet, the body, then the handler's lost, bounds, boss and food tests |
| Arena.FateFacts | Snake/ViewControllers/BoardContainerViewController.swift:1499-1549 | player bullets never kill the snake, boss bullets never hit the boss, a bullet keeps flying exactly when it killed the snake or met nothing, and after the loss nothing is struck |
| Arena.Snake.constructor | Snake/ViewControllers/BoardContainerViewController.swift:1275-1302 | a one-segment snake on the start cell with firing allowed and no bullets |
| Arena.Snake.StartMoving | Snake/ViewControllers/BoardContainerViewController.swift:1317-1323 | the movement timer runs and nothing else changes |
| Arena.Snake.Move | Snake/ViewControllers/BoardContainerViewController.swift:1325-1371 | the body becomes `FollowLeader` of the old body and nothing else changes |
| Arena.Snake.Eat | Snake/ViewControllers/BoardContainerViewController.swift:1607-1621 | the body grows by one at the tail and nothing else changes |
| Arena.Snake.EatFood | Snake/ViewControllers/BoardContainerViewController.swift:1561-1605 | enemies are fatal and stop the timer; regular and slow food grow the body; the interval is scaled and clamped |
| Arena.Snake.Steer | Snake/ViewControllers/BoardContainerViewController.swift:494-528 | the heading becomes `Turn` of the request |
| Arena.Snake.Fire | Snake/ViewControllers/BoardContainerViewController.swift:1461-1476 | the snake after a shot is `FireView` of the old one |
| Arena.Snake.Rearm | Snake/ViewControllers/BoardContainerViewController.swift:1532-1534 | a pending re-arm runs and opens firing |
| Arena.Snake.Advance | Snake/ViewControllers/BoardContainerViewController.swift:1477-1491 | the bullet takes one step, of one cell in the model |
| Arena.Snake.Struck | Snake/ViewControllers/BoardContainerViewController.swift:1499-1504 | a lethal hit on the head opens firing and stops the movement timer |
| Arena.Snake.Stop | Snake/ViewControllers/BoardContainerViewController.swift:1408-1412 | the movement timer stops |
| Arena.Snake.EggTouched | Snake/ViewControllers/BoardContainerViewController.swift:1445-1451 | an egg blocks firing and stops the movement timer |
| Arena.Snake.Collide | Snake/ViewControllers/BoardContainerViewController.swift:1506-1522 | in the corrected annihilation, both bullets leave the list and both timers stop, and one re-arm is scheduled; the source stops only the stepping bullet's timer |
| Arena.Snake.Retire | Snake/ViewControllers/BoardContainerViewController.swift:1529-1547 | the bullet leaves the list and stops, and one re-arm is scheduled |
| Arena.Snake.Halt | Snake/ViewControllers/BoardContainerViewController.swift:365-369 | after the loss a stepping bullet only stops |
| Arena.AfterLoss | Snake/ViewControllers/BoardContainerViewController.swift:755-765 | the loss sets `didLose`, stops the boss timer and schedules the popup |
| Arena.AfterBossHit | Snake/ViewControllers/BoardContainerViewController.swift:380-412 | a hit freezes the boss's next move; the killing hit clears the boss and the food, adds 500 and restarts spawning; any other hit only counts |
| Arena.BossHitsCount | Snake/ViewControllers/BoardContainerViewController.swift:383-390 | n hits below the target leave the boss with n more hits; reaching the target kills it and pays the bonus |
| Arena.AfterEating | Snake/ViewControllers/BoardContainerViewController.swift:725-749 | `didEatFood` removes exactly the eaten key, counts one, clamps the interval and restarts spawning |
| Arena.TickOf | Snake/ViewControllers/BoardContainerViewController.swift:1375-1456 | the tick ends at the edge exactly when the cell ahead is off the board, on the body exactly when the old head is covered, eats only egg-less non-enemy food, and moves freely only onto empty cells |
| Arena.Probed | Snake/ViewControllers/BoardContainerViewController.swift:703-723 | the probes change only the boss, its timer and the ratio |
| Arena.TickSnakeEffects | Snake/ViewControllers/BoardContainerViewController.swift:1375-1456 | the snake keeps moving exactly when the tick is not fatal, grows by one exactly on regular or slow food, and its head lands ahead unless stopped at the edge or the body |
| Arena.TickBoardEffects | Snake/ViewControllers/BoardContainerViewController.swift:1375-1456 | the game is lost exactly on a fatal tick, the count rises exactly on eating, the eaten key goes, and a free move leaves the food alone |
| Arena.TickKeepsConnected | Snake/ViewControllers/BoardContainerViewController.swift:1375-1456 | a tick keeps a body of two or more segments connected |
| Arena.BossClearsItsCells | Snake/ViewControllers/BoardContainerViewController.swift:1068-1114 | after a boss tick that moves, the boss is at its target with its hits and no food lies under it |
| Arena.BossFired | Snake/ViewControllers/BoardContainerViewController.swift:999-1002 | after the loss the boss timer only stops itself |
| Arena.Resumed | Snake/ViewControllers/BoardContainerViewController.swift:1072-1078 | the delayed resume fires the boss timer and then always clears `skipMove` |
| Arena.Board.constructor | Snake/ViewControllers/BoardContainerViewController.swift:223-283 | a fresh board: no food, counters at their start values, clock and spawning running, the snake moving on the start cell |
| Arena.Board.StartGame | Snake/ViewControllers/BoardContainerViewController.swift:314-358 | a restart clears the food, count, bonus, boss and ratio, resets the spawn interval, and starts a new snake and clock; the kill target and the boss's interval carry over |
| Arena.Board.SecondTick | Snake/ViewControllers/BoardContainerViewController.swift:342-354 | each second counts the played time and `timeForBoss`, and grows the ratio |
| Arena.Board.ShowLostPopup | Snake/ViewControllers/BoardContainerViewController.swift:668-690 | the popup stops the clock and spawning and shows `Score(count, time, bonus)` |
| Arena.Board.Lose | Snake/ViewControllers/BoardContainerViewController.swift:755-765 | the board becomes `AfterLoss` of the old one |
| Arena.Board.ChangeDirectionByTap | Snake/ViewControllers/BoardContainerViewController.swift:459-492 | the heading becomes `Turn` of the tap's request |
| Arena.Board.ChangeDirectionBySwipe | Snake/ViewControllers/BoardContainerViewController.swift:494-528 | the heading becomes `Turn` of the swipe's request |
| Arena.Board.Fire | Snake/ViewControllers/BoardContainerViewController.swift:363-364 | the player fires from the head along the heading |
| Arena.Board.Rearm | Snake/ViewControllers/BoardContainerViewController.swift:1532-1534 | a pending re-arm opens firing |
| Arena.Board.DamageBoss | Snake/ViewControllers/BoardContainerViewController.swift:380-412 | the board becomes `AfterBossHit` of the old one |
| Arena.Board.Classify | Snake/ViewControllers/BoardContainerViewController.swift:1499-1549 | the tests return the bullet's `FateOf` |
| Arena.Board.SettleShot | Snake/ViewControllers/BoardContainerViewController.swift:1499-1549 | the snake's side of the fate |
| Arena.Board.Settle | Snake/ViewControllers/BoardContainerViewController.swift:363-455 | the snake's and the board's sides of the fate: the loss, the boss hit or the food hit |
| Arena.Board.BulletStep | Snake/ViewControllers/BoardContainerViewController.swift:1477-1549 | one step of a bullet's timer: the move, the fate, and its effects on the snake and the board |
| Arena.Board.LookAhead | Snake/ViewControllers/BoardContainerViewController.swift:1389-1444 | the tick's tests return `TickOf` |
| Arena.Board.Land | Snake/ViewControllers/BoardContainerViewController.swift:1430-1452 | the snake's side of the tick once its head is on the new cell |
| Arena.Board.TickSnake | Snake/ViewControllers/BoardContainerViewController.swift:1408-1452 | the snake after the tick is `SnakeAfterTick` of the old one |
| Arena.Board.Probe | Snake/ViewControllers/BoardContainerViewController.swift:703-723 | the board after `bossCheck` and `isFoodThere` |
| Arena.Board.TickBoard | Snake/ViewControllers/BoardContainerViewController.swift:725-765 | the board after the probes and `didLose` or `didEatFood` |
| Arena.Board.MovementTick | Snake/ViewControllers/BoardContainerViewController.swift:1375-1456 | one tick of the movement timer, on the snake and on the board |
| Arena.Board.DidEatFood | Snake/ViewControllers/BoardContainerViewController.swift:725-749 | the board becomes `AfterEating` of the old one |
| Arena.Board.AddFoodToBoard | Snake/ViewControllers/BoardContainerViewController.swift:1148-1219 | the food becomes `PlaceArena` of the drawn cell, with an egg only when allowed and rolled |
| Arena.Board.SpotFree | Snake/ViewControllers/BoardContainerViewController.swift:1163-1184 | the guards pass exactly when the cell is not taken |
| Arena.Board.EnemyShot | Snake/ViewControllers/BoardContainerViewController.swift:821-916 | the snake after every damaged enemy fires |
| Arena.Board.SpawnTick | Snake/ViewControllers/BoardContainerViewController.swift:920-1146 | nothing after the loss; otherwise the volley, then the boss trigger or a new food |
| Arena.Board.BossArrive | Snake/ViewControllers/BoardContainerViewController.swift:996-1117 | the boss appears at the top left with no hits and its timer runs |
| Arena.Board.BossShots | Snake/ViewControllers/BoardContainerViewController.swift:1006-1067 | the boss tick's volley and the boss's own shot |
| Arena.Board.BossStep | Snake/ViewControllers/BoardContainerViewController.swift:1072-1114 | a frozen boss only schedules its resume; otherwise it moves and sweeps the food |
| Arena.Board.BossMoves | Snake/ViewControllers/BoardContainerViewController.swift:1068-1114 | the enemy placement on a high action, then the boss's step |
| Arena.Board.BossTick | Snake/ViewControllers/BoardContainerViewController.swift:997-1114 | one boss tick: stops after the loss, otherwise shots, placement and move |
| Arena.Board.BossResume | Snake/ViewControllers/BoardContainerViewController.swift:1072-1078 | the delayed resume: the board becomes `Resumed` of the old one, and a live boss timer fires the boss tick's shots at the snake |
| Classic.FireKeepsGun | Snake/BoardContainerViewController.swift:880-891 | a shot keeps every flying bullet positioned and the next id fresh, and the new bullet's id was never used |
| Classic.FireView | Snake/BoardContainerViewController.swift:880-891 | a blocked shot changes nothing; an allowed one closes firing and adds one flying bullet at the head along the heading |
| Classic.AdvancedView | Snake/BoardContainerViewController.swift:893-903 | the bullet step moves only that bullet, along its heading; the model's step is one cell, the source's `bodySize` is ten pixels short of one |
| Classic.HandlerOf | Snake/BoardContainerViewController.swift:307-340 | the handler stops exactly after the loss and strikes food only where there is some |
| Classic.BlockedShotStillHandled | Snake/BoardContainerViewController.swift:914-927 | as written, a bullet stopped by the body still strikes food there and schedules two re-arms |
| Classic.IntendedShotRearmsOnce | Snake/ViewControllers/BoardContainerViewController.swift:1529-1549 | with the newer file's `else`, a step schedules at most one re-arm, exactly when it retires a bullet |
| Classic.Snake.constructor | Snake/BoardContainerViewController.swift:713-733 | a one-segment snake on the start cell with firing allowed |
| Classic.Snake.StartMoving | Snake/BoardContainerViewController.swift:749-755 | the movement timer runs |
| Classic.Snake.Stop | Snake/BoardContainerViewController.swift:835-853 | the movement timer stops at the edge or on the body |
| Classic.Snake.EggTouched | Snake/BoardContainerViewController.swift:866-871 | an egg blocks firing and stops the movement timer |
| Classic.Snake.Move | Snake/BoardContainerViewController.swift:757-799 | the body becomes `FollowLeader` of the old body |
| Classic.Snake.Eat | Snake/BoardContainerViewController.swift:983-995 | the body grows by one at the tail |
| Classic.Snake.EatFood | Snake/BoardContainerViewController.swift:941-981 | no kind is fatal; regular and slow food grow the body; the interval is scaled and clamped and the timer restarts |
| Classic.Snake.Steer | Snake/BoardContainerViewController.swift:380-414 | the heading becomes `Turn` of the request |
| Classic.Snake.Fire | Snake/BoardContainerViewController.swift:880-891 | the snake after a shot is `FireView` of the old one |
| Classic.Snake.Rearm | Snake/BoardContainerViewController.swift:916-918 | a pending re-arm opens firing |
| Classic.Snake.Advance | Snake/BoardContainerViewController.swift:893-903 | the bullet takes one step, of one cell in the model |
| Classic.Snake.Block | Snake/BoardContainerViewController.swift:913-919 | a bullet on the body stops and schedules a re-arm |
| Classic.Snake.Handle | Snake/BoardContainerViewController.swift:921-927 | the handler's verdict stops the bullet unless it flies on, and a finish schedules a re-arm |
| Classic.AfterLoss | Snake/BoardContainerViewController.swift:570-573 | the loss stops the clock and spawning at once and shows `Score(count, time, 0)` |
| Classic.AfterEating | Snake/BoardContainerViewController.swift:547-560 | `didEatFood` removes exactly the eaten key, counts one, clamps the interval and restarts spawning |
| Classic.TickOf | Snake/BoardContainerViewController.swift:801-876 | the older tick's tests: the edge, the old head on the body, an egg, then food, which is always eaten |
| Classic.TickEffects | Snake/BoardContainerViewController.swift:801-876 | the snake keeps moving and the game goes on exactly when the tick is not fatal; the count and the body grow on eating; a loss shows the score so far |
| Classic.SpawnAfter | Snake/BoardContainerViewController.swift:584-663 | a spawn only touches the food and adds at most one entry, on the drawn cell, of an older kind |
| Classic.SpawnKeepsState | Snake/BoardContainerViewController.swift:597-657 | spawning on a board cell keeps all food on the board and of the three older kinds |
| Classic.Board.constructor | Snake/BoardContainerViewController.swift:203-241 | a fresh older board with no food and the snake moving on the start cell |
| Classic.Board.StartGame | Snake/BoardContainerViewController.swift:274-303 | a restart clears the food and count, resets the interval, starts a new snake and clock, and keeps the last time shown |
| Classic.Board.SecondTick | Snake/BoardContainerViewController.swift:294-298 | each second counts the played time |
| Classic.Board.Lose | Snake/BoardContainerViewController.swift:570-573 | the board becomes `AfterLoss` of the old one |
| Classic.Board.ChangeDirectionByTap | Snake/BoardContainerViewController.swift:345-378 | the heading becomes `Turn` of the tap's request |
| Classic.Board.ChangeDirectionBySwipe | Snake/BoardContainerViewController.swift:380-414 | the heading becomes `Turn` of the swipe's request |
| Classic.Board.Fire | Snake/BoardContainerViewController.swift:305-306 | the player fires from the head |
| Classic.Board.Rearm | Snake/BoardContainerViewController.swift:916-918 | a pending re-arm opens firing |
| Classic.Board.Handler | Snake/BoardContainerViewController.swift:307-340 | the older handler's verdict, with the food struck on a hit |
| Classic.Board.BulletStep | Snake/BoardContainerViewController.swift:893-927 | one step as written: the move, the body test, then the handler regardless |
| Classic.Board.LookAhead | Snake/BoardContainerViewController.swift:815-870 | the older tick's tests return `TickOf` |
| Classic.Board.TickSnake | Snake/BoardContainerViewController.swift:835-875 | the snake after the tick is `SnakeAfterTick` of the old one |
| Classic.Board.Land | Snake/BoardContainerViewController.swift:866-874 | the snake's side of the tick once its head is on the new cell |
| Classic.Board.TickBoard | Snake/BoardContainerViewController.swift:547-573 | the board after `didLose` or `didEatFood` |
| Classic.Board.MovementTick | Snake/BoardContainerViewController.swift:801-876 | one tick of the older movement timer, on the snake and on the board |
| Classic.Board.DidEatFood | Snake/BoardContainerViewController.swift:547-560 | the board becomes `AfterEating` of the old one |
| Classic.Board.SpotFree | Snake/BoardContainerViewController.swift:617-645 | the older guards pass exactly when the cell is not taken |
| Classic.Board.SpawnTick | Snake/BoardContainerViewController.swift:586-660 | one tick of the older spawn timer, which has no guard for a lost game |

## Left out

- Presentation: views, constraints, gesture recognizers, animations, shadows, particles, sounds, labels and the popup's persistence of the high score. None of it decides the game.
- `stopGame`/`resumeGame` of both versions. They pause and restart the timers for the app's lifecycle, and the model treats every timer as an explicit event anyway.
- Pixel geometry. Frames, `contains` tests and the `+5`/`-10`/`-40`/`-160` offsets are abstracted to cells. The movement tick's bounds test becomes `Grid.InBoard`. The bullets' bounds become the container's extent in cells (`reachX`, `reachY`).
- Food keys in the newer game. `addFoodToBoard` places food at `superView.frame.origin.x - 5 + idx * squareSize` and keys it by truncating that point divided by `squareSize`. The model keys it by the drawn column `idx`. The two agree only when the container's origin `x` lies in `[5, squareSize + 5)`. For an origin further right, every key shifts by the same amount. For an origin just below 5, columns 0 and 1 share a key, because truncation rounds toward zero.
- Arena.AdvancedView, Arena.Snake.Advance, Classic.AdvancedView, Classic.Snake.Advance: a bullet moves one cell per step. The source moves it by `bodySize`, which is `squareSize - 10` pixels, while the snake moves `squareSize`. So a real bullet can take two steps in one cell. The model therefore does not capture on which step a bullet meets another bullet, the moving head or the boss.
- Arena.Snake.Collide, Arena.CollideKeepsGun: the newer board runs the corrected annihilation of the Findings row, stopping both timers. `Arena.CollidedViewAsWritten` and `Arena.CollideAsWrittenBreaksGun` state the source's version, in which the bullet run into keeps flying, but `BulletStep` does not use it.
- The boss's bounce in pixels. The cell the boss moves to is a parameter of `BossStep`, `BossMoves`, `BossTick` and `BossResume`. The boss is a 3-by-3 block whose damage zone is the 2-by-2 block inside it.
- Randomness. Every draw is a parameter: headings, food kinds, enemy and boss draws, cells, dice and the boss's aim.
- Dictionary iteration order. `EnemyShot` takes the damaged enemies' visiting order as a parameter.
- The food-hit scan's choice among several overlapping entries. A bullet's cell holds at most one entry in the model.
- Arena.Board.BossArrive: the boss's 1.1-second arrival delay is one pending flag, not a count of pending arrivals. This is enough, because spawning stops when the boss is triggered.
- Arena.Board.StartGame: the old bullets' timers, pending re-arms and closures are dropped with the old snake. In the source they may still fire into the new game.
- Double rounding. Clamps and multipliers are over exact `real`s. The score's `Int(Double(...) * 1.2)` is the floor of an exact product.
- Concurrency. Timers and closures run one at a time on the main run loop, which the event methods reflect. Interleavings inside one closure are not modelled.

## Findings

| source | as written | input that shows it | evidently intended | confidence | as-written member | corrected member |
|---|---|---|---|---|---|---|
| Snake/ViewControllers/BoardContainerViewController.swift:1508-1520 | when bullet `b` runs into bullet `fire`, both leave the `bullets` list and the view, but only `b`'s timer is invalidated | two bullets 0 and 1 flying, 0 steps onto 1: bullet 1 keeps flying while no longer listed, so it can still strike food or the boss and re-arm firing | both timers stop, so every flying bullet stays listed | not executed; high | Shots.AnnihilationAsWrittenLeavesGhost | Shots.AnnihilatedKeepsTracked |
