# merge-run-td domain core in Dafny

This project models the domain layer of *merge-run-td*, a single-lane merge
tower-defense game, and proves properties of that model. The domain layer is
deterministic and driven by ticks. Every operation takes an immutable run
state and returns a new one, and a seeded random number generator is threaded
through the whole run.

- **Random numbers and constants** (`core.dfy`, module `Core`): the 64-bit
  linear congruential generator with two's-complement wrap-around, its
  `[0, 1)` roll, the index a roll selects among `n` candidates, and the game
  constants.
- **Board** (`board.dfy`, module `Boards`): the 4x4 board stored as 16
  optional cells in row-major order, `allUnits` and `withUpdatedUnits`.
  `withUpdatedUnits` is a loop that writes units back into the occupied cells
  in order.
- **Lane and configuration** (`lane.dfy`, `config.dfy`): enemies, scheduled
  spawns and the immutable configuration tables.
- **Shop** (`shop.dfy`, module `Shop`): the refill timer, which fills at most
  one empty slot per threshold, and three stub operations that always fail.
- **Upgrades** (`upgrade.dfy`, module `Upgrades`): `applyUpgrade`, covering
  multipliers, deltas, the once-per-run transform flag and role retagging.
- **Player intents** (`reducer.dfy`, module `Reducer`): buy, reroll, sell and
  merge. Each has validation failures checked in a fixed order, and every
  failure leaves the state untouched.
- **Combat** (`combat.dfy`, module `Combat`): enemy movement with remainder
  carry, base damage, unit targeting, damage and cooldowns.
- **Waves and offers** (`waves.dfy`, module `Waves`): the spawn schedule of a
  wave, and the upgrade offer, which is drawn without replacement from the
  eligible pool.
- **Engine** (`engine.dfy`, module `Engine`): `newRun` and `tick`. The tick
  runs the phase machine PREP, COMBAT, POST_WAVE, ENDED, with offer timeout,
  wave start, combat, shop refill, wave end, victory and defeat.

Methods that loop in the source are Dafny methods with loop invariants:
`withUpdatedUnits`, the movement pass of `tickCombat`, `applyUnitAttacks`,
`rerollShop`, `buildWaveSpawns` and `sampleUpgrades`. Each is proved equal to
a specification function, and the lemmas about that function carry the
properties. `tick` is a method split into its stages (`BeginTick`, then
`Proceed`, which runs `TickCombat`, the shop refill and `CloseTick`). Each
stage is proved equal to a function of its input state (`Opened`, `Fought`,
`Closed`, `Proceeded`, `Continued`), and lemmas about those functions carry
the properties of a tick.

The run invariant `Engine.WellFormed` states:

- the phase is ENDED exactly when an outcome is recorded;
- an offer exists only after a wave, and has options whenever the upgrade table has any;
- the stage index is valid and the wave number lies in `[0, 5)` while the run is open;
- coins are non-negative and the board has 16 cells;
- every enemy stands on the lane with a progress carry in `[0, speed)`.

A new run on an existing stage satisfies it, and every tick that meets `TickSafe` with a non-negative step keeps it.

The type declarations in `CoreModels.kt` and `Board.kt` do not list every
field that the rest of the code reads and writes:

- `RunState` at `CoreModels.kt:14-26` lacks the multipliers, deltas, offer,
  transform flag, outcome and per-upgrade counts used at `GameEngine.kt:58-67`
  and `UpgradeLogic.kt:19-27`;
- `UnitInstance` at `Board.kt:5-9` lacks the `level` used at
  `RunReducer.kt:50,123,130`;
- `UpgradeDef` and `GameConfig` in `GameModels.kt` lack the effect fields
  and upgrade rules read by `UpgradeLogic.kt` and `GameEngine.kt`.

The model declares these fields as the code uses them. The Kotlin field
`type` of an upgrade is called `kind` here.

## Model

| member | source | states |
|---|---|---|
| Core.WrapLong | app/src/main/java/com/example/mergeruntd/domain/core/CoreModels.kt:32 | The result is the signed 64-bit value congruent to the exact result modulo 2^64 (Kotlin `Long` overflow) |
| Core.Unsigned | app/src/main/java/com/example/mergeruntd/domain/run/RunReducer.kt:142 | `toULong()` gives the value in `[0, 2^64)` with the same bit pattern |
| Core.Ushr11 | app/src/main/java/com/example/mergeruntd/domain/core/CoreModels.kt:39 | `value ushr 11` is below 2^53 |
| Core.NextLong | app/src/main/java/com/example/mergeruntd/domain/core/CoreModels.kt:31-34 | The drawn value is `seed*6364136223846793005 + 1442695040888963407` modulo 2^64, and the new state's seed is that value |
| Core.NextDouble | app/src/main/java/com/example/mergeruntd/domain/core/CoreModels.kt:36-41 | The roll lies in `[0, 1)`, and the state advances exactly as one `nextLong` draw |
| Core.PickIndex | app/src/main/java/com/example/mergeruntd/domain/shop/ShopState.kt:46 | `(roll*n).toInt().coerceIn(0, n-1)` is a valid index below `n` |
| Core.Truncate | app/src/main/java/com/example/mergeruntd/domain/shop/ShopState.kt:46 | `toInt()` truncates toward zero: for `x >= 0` the result is the largest integer not above `x`, for `x < 0` the smallest not below it |
| Core.PickIndexIsBucket | app/src/main/java/com/example/mergeruntd/domain/engine/GameEngine.kt:195 | For a roll in `[0, 1)` the clamp never applies: the index `i` satisfies `i <= roll*n < i+1` |
| Boards.EmptyBoard | app/src/main/java/com/example/mergeruntd/domain/board/Board.kt:11-15 | The default board is 4x4 with 16 cells, all empty |
| Boards.AllUnits | app/src/main/java/com/example/mergeruntd/domain/board/Board.kt:17 | `allUnits` has one unit per occupied cell |
| Boards.OccupantsLength | app/src/main/java/com/example/mergeruntd/domain/board/Board.kt:17 | The number of listed units equals the occupied-cell count |
| Boards.AllUnitsAt | app/src/main/java/com/example/mergeruntd/domain/board/Board.kt:17 | The occupant of the k-th occupied cell in row-major order is the k-th listed unit |
| Boards.RankMonotone | app/src/main/java/com/example/mergeruntd/domain/board/Board.kt:21-28 | The running count of occupied cells never decreases along the board |
| Boards.RankStep | app/src/main/java/com/example/mergeruntd/domain/board/Board.kt:23-26 | The running count steps by one exactly across an occupied cell, as `unitIdx++` does |
| Boards.WithUpdatedUnits | app/src/main/java/com/example/mergeruntd/domain/board/Board.kt:19-30 | Keeps rows, cols and cell count. The occupied cell of rank k receives `units[k]` when k < \|units\|, otherwise it keeps its unit. Empty cells stay empty and occupancy is unchanged. Writing back `allUnits()` returns the same board. The result is the board `UpdatedBoard` describes, cell by cell |
| Boards.UpdatedCellWithOwnUnits | app/src/main/java/com/example/mergeruntd/domain/board/Board.kt:17-30 | Writing a board's own units back leaves every cell as it was |
| Boards.SameOccupancySameCount | app/src/main/java/com/example/mergeruntd/domain/board/Board.kt:22-28 | Boards with the same empty cells have the same occupied count |
| Boards.OccupiedCountUpdate | app/src/main/java/com/example/mergeruntd/domain/run/RunReducer.kt:99-100 | Overwriting one cell changes the occupied count by the change in that cell's occupancy |
| Collections.FirstIndex | app/src/main/java/com/example/mergeruntd/domain/run/RunReducer.kt:45 | `indexOfFirst` returns the lowest index satisfying the predicate, and none exactly when no element satisfies it |
| Collections.FirstOrNull | app/src/main/java/com/example/mergeruntd/domain/engine/GameEngine.kt:47 | `firstOrNull` finds an element exactly when one satisfies the predicate; the element found satisfies it and is the first such element of the list |
| Collections.Partition | app/src/main/java/com/example/mergeruntd/domain/engine/GameEngine.kt:210 | `partition` splits the list into the elements that satisfy the predicate and those that do not, with the two lengths summing to the input's |
| Collections.PartitionConcat | app/src/main/java/com/example/mergeruntd/domain/engine/GameEngine.kt:210 | Partitioning a concatenation gives the partitions of the two halves concatenated: both parts keep the input's order |
| Collections.PartitionPermutes | app/src/main/java/com/example/mergeruntd/domain/engine/GameEngine.kt:210 | The two parts together are a permutation of the input: nothing is lost or duplicated |
| Collections.PartitionMembership | app/src/main/java/com/example/mergeruntd/domain/engine/GameEngine.kt:167-172 | Each element of either part is in the input, and each input element is in the part its predicate selects |
| Config.FindUnitDef | app/src/main/java/com/example/mergeruntd/domain/run/RunReducer.kt:43 | The lookup finds the first definition in the table with that id, and finds none exactly when no definition has that id |
| Config.FindEnemyDef | app/src/main/java/com/example/mergeruntd/domain/engine/GameEngine.kt:214-229 | The same first-match lookup on the enemy table |
| Lane.EmptyLane | app/src/main/java/com/example/mergeruntd/domain/lane/LaneState.kt:17-22 | A default lane of the given length has no enemies, nothing scheduled and its clock at 0 |
| Shop.EmptyShop | app/src/main/java/com/example/mergeruntd/domain/shop/ShopState.kt:12-15 | The default shop has `SHOP_SLOTS` empty slots and timer 0 |
| Shop.DrawUnitId | app/src/main/java/com/example/mergeruntd/domain/shop/ShopState.kt:46-48 | A drawn id belongs to a definition in `unitDefs` |
| Shop.TickShop | app/src/main/java/com/example/mergeruntd/domain/shop/ShopState.kt:25-50 | A full shop only resets the timer to 0 and keeps the RNG. Below the threshold only the timer moves, to `timer+delta`. At the threshold the timer drops by `REFILL_MS` and the slot count is kept. With no definitions nothing is filled and the RNG is kept. Otherwise the RNG advances one draw, only the first empty slot is filled, with a drawn id, and the rest are unchanged. The timer stays non-negative |
| Shop.BuyUnit | app/src/main/java/com/example/mergeruntd/domain/shop/ShopState.kt:52-54 | Always fails |
| Shop.RerollShop | app/src/main/java/com/example/mergeruntd/domain/shop/ShopState.kt:56-58 | Always fails |
| Shop.SellUnit | app/src/main/java/com/example/mergeruntd/domain/shop/ShopState.kt:60-62 | Always fails |
| Upgrades.TransformedRole | app/src/main/java/com/example/mergeruntd/domain/run/UpgradeLogic.kt:32-37 | Only WALL and SLOW have a transformed role, and it differs from the target |
| Upgrades.Retag | app/src/main/java/com/example/mergeruntd/domain/run/UpgradeLogic.kt:39-42 | Retagging keeps the number of cells |
| Upgrades.ApplyUpgrade | app/src/main/java/com/example/mergeruntd/domain/run/UpgradeLogic.kt:7-48 | A TRANSFORM with the flag already set only clears the offer. Otherwise: the offer is cleared; the multipliers are multiplied by the upgrade's factors (default 1.0); the deltas grow by its deltas (default 0); the flag becomes `old or TRANSFORM`; the upgrade's count becomes old (absent = 0) + 1 with the other keys unchanged; the board is the transformed board. The flag is never cleared, and no other field changes |
| Upgrades.TransformBoardEffect | app/src/main/java/com/example/mergeruntd/domain/run/UpgradeLogic.kt:30-45 | The transform keeps rows, cols, occupancy and the occupied count. A non-TRANSFORM upgrade, or a target with no mapping, leaves the board unchanged. Otherwise each unit keeps id, level and cooldown, target-role units get the mapped role, and no unit keeps the target role |
| Upgrades.TransformAtMostOnce | app/src/main/java/com/example/mergeruntd/domain/run/UpgradeLogic.kt:13-23 | After one TRANSFORM is applied, a second TRANSFORM changes nothing |
| Reducer.NextUnitId | app/src/main/java/com/example/mergeruntd/domain/run/RunReducer.kt:140-143 | A new unit id consumes exactly one `nextLong` draw |
| Reducer.Buy | app/src/main/java/com/example/mergeruntd/domain/run/RunReducer.kt:34-63 | Fails, in this order and with these messages: invalid slot, not enough coins, empty slot, missing definition, full board, and succeeds exactly otherwise. On success: coins drop by `BUY_COST`; the RNG advances once; exactly the first empty cell changes, to a level-1 unit of the definition's role with cooldown 0 whose id comes from the generator's next draw; the occupied count rises by 1; exactly the bought slot changes, to empty; only the economy changes |
| Reducer.Purchase | app/src/main/java/com/example/mergeruntd/domain/run/RunReducer.kt:48-61 | The successful purchase into empty cell k: pays `BUY_COST`, puts a fresh level-1 unit in cell k only, adds one occupied cell, empties the slot |
| Reducer.DrawSlotsSpec | app/src/main/java/com/example/mergeruntd/domain/run/RunReducer.kt:74-80 | Redrawing n slots gives n filled slots, each with an id from `unitDefs`, and advances the RNG by exactly n draws |
| Reducer.Rerolled | app/src/main/java/com/example/mergeruntd/domain/run/RunReducer.kt:65-90 | Fails with no definitions, then with neither a free charge nor `REROLL_COST` coins, and succeeds exactly otherwise. A free charge is spent before coins, and the cost delta is ignored. Every slot is redrawn, the timer restarts and the board is kept |
| Reducer.RerollSlots | app/src/main/java/com/example/mergeruntd/domain/run/RunReducer.kt:74-80 | The `map` over the slots with a threaded RNG produces the slots and RNG of the specification above |
| Reducer.Reroll | app/src/main/java/com/example/mergeruntd/domain/run/RunReducer.kt:65-90 | `rerollShop` returns exactly the specified outcome |
| Reducer.Sell | app/src/main/java/com/example/mergeruntd/domain/run/RunReducer.kt:92-108 | Fails on an invalid cell, then on an empty cell, and succeeds exactly otherwise. Success adds `SELL_REFUND` coins, empties only that cell, lowers the occupied count by 1 and changes nothing else |
| Reducer.MergeCells | app/src/main/java/com/example/mergeruntd/domain/run/RunReducer.kt:110-138 | Fails, in this order and with these messages: same cell, invalid index, empty source, empty target, role or level mismatch. Succeeds exactly otherwise. On success the source is cleared; the target keeps role and cooldown, gains one level and gets the fresh id; other cells are unchanged; the occupied count drops by 1; coins are unchanged |
| Reducer.Reduced | app/src/main/java/com/example/mergeruntd/domain/run/RunReducer.kt:22-32 | Any successful intent changes only the economy, keeps the board and shop sizes, and keeps coins and free charges non-negative |
| Reducer.Reduce | app/src/main/java/com/example/mergeruntd/domain/run/RunReducer.kt:22-32 | The dispatch returns exactly the specified outcome for each intent |
| Combat.EnemySpeedMsPerTile | app/src/main/java/com/example/mergeruntd/domain/engine/GameEngine.kt:331-338 | Speeds are positive, and unknown ids move at normal speed |
| Combat.TruncRem | app/src/main/java/com/example/mergeruntd/domain/engine/GameEngine.kt:224-225 | Kotlin's truncating `/` and `%` satisfy `a == b*q + r`, with `0 <= r < b` for `a >= 0` |
| Combat.SurvivorsInLane | app/src/main/java/com/example/mergeruntd/domain/engine/GameEngine.kt:220-236 | After movement no enemy is added, and every survivor stands on a tile below the lane length with carry in `[0, speed)` |
| Combat.DamageTakenNonNegative | app/src/main/java/com/example/mergeruntd/domain/engine/GameEngine.kt:228-231 | Base damage taken is non-negative when no enemy definition has negative damage |
| Combat.MoveEnemies | app/src/main/java/com/example/mergeruntd/domain/engine/GameEngine.kt:219-236 | The movement loop returns exactly the survivors, the total damage of the enemies that reached the base (default 1), and one `BaseDamaged` event per arrival in lane order |
| Combat.ArrivalsAccounted | app/src/main/java/com/example/mergeruntd/domain/engine/GameEngine.kt:219-236 | Every walker either survives or reports exactly one arrival; every arrival event is `BaseDamaged`; the damage the events report is the damage the base takes |
| Combat.FirstMaxTileIndex | app/src/main/java/com/example/mergeruntd/domain/engine/GameEngine.kt:280 | `maxByOrNull` picks the first enemy with the maximal tile |
| Combat.UnitDamage | app/src/main/java/com/example/mergeruntd/domain/engine/GameEngine.kt:340-352 | Damage lies in `[1, Int.MAX_VALUE]`, and within range it is the truncation of `base*atkMul` raised to at least 1 |
| Combat.UnitCooldown | app/src/main/java/com/example/mergeruntd/domain/engine/GameEngine.kt:354-366 | Cooldown lies in `[1, Long.MAX_VALUE]`, and for a positive multiplier it is the truncation of `base/aspdMul` raised to at least 1 |
| Combat.PlacementsAfterHit | app/src/main/java/com/example/mergeruntd/domain/engine/GameEngine.kt:292 | Lowering an enemy's hp moves no enemy |
| Combat.AttackStep | app/src/main/java/com/example/mergeruntd/domain/engine/GameEngine.kt:272-298 | A unit changes only its cooldown, which stays non-negative. Walls and units not ready, or with no target, cool down to `max(0, cd-delta)` and leave enemies alone. A firing unit hits the first maximal-tile enemy: the enemy is removed if its hp falls to 0 or below, otherwise its hp drops by the damage; the unit's cooldown becomes the unit cooldown. The enemy list never grows and no enemy moves |
| Combat.KillEvents | app/src/main/java/com/example/mergeruntd/domain/engine/GameEngine.kt:289 | One `EnemyKilled` event per kill, the i-th naming the i-th killed enemy |
| Combat.AttacksSpec | app/src/main/java/com/example/mergeruntd/domain/engine/GameEngine.kt:272-299 | Over all units in order: one updated unit per unit, each differing only in a non-negative cooldown; no enemy added or moved |
| Combat.WallsNeverDamage | app/src/main/java/com/example/mergeruntd/domain/engine/GameEngine.kt:275-278 | Walls alone leave every enemy untouched and kill nothing |
| Combat.ApplyUnitAttacks | app/src/main/java/com/example/mergeruntd/domain/engine/GameEngine.kt:262-305 | The surviving enemies are those of the specified attack pass. The new board is `withUpdatedUnits` of the updated units: same rows, cols and occupancy, and each unit changes only in a non-negative cooldown. No enemy is added or moved. One `EnemyKilled` event per kill, in turn order |
| Combat.TakeTurns | app/src/main/java/com/example/mergeruntd/domain/engine/GameEngine.kt:269-299 | The loop over `allUnits()` produces exactly the specified updated units, enemies and kill events |
| Combat.UpdatedCellKeepsUnit | app/src/main/java/com/example/mergeruntd/domain/engine/GameEngine.kt:302 | Writing back per-unit cooldown updates leaves each occupied cell holding its own unit with a new cooldown |
| Waves.WaveSchedule | app/src/main/java/com/example/mergeruntd/domain/engine/GameEngine.kt:307-327 | The spawn queue of a wave: normal, fast, tank, then boss spawns (none for a negative count), the i-th due at 600*i |
| Waves.WaveScheduleUnique | app/src/main/java/com/example/mergeruntd/domain/engine/GameEngine.kt:307-327 | Any queue meeting that description is the wave's schedule |
| Waves.AddSpawns | app/src/main/java/com/example/mergeruntd/domain/engine/GameEngine.kt:311-319 | `add` appends `count` spawns (none for a non-positive count) of the given type, the i-th overall due at 600*i, and leaves the earlier spawns as they were |
| Waves.BuildWaveSpawns | app/src/main/java/com/example/mergeruntd/domain/engine/GameEngine.kt:307-327 | A wave yields normal+fast+tank+boss spawns, in that type order, with the i-th due at 600*i: exactly `WaveSchedule` |
| Waves.OfferPoolSpec | app/src/main/java/com/example/mergeruntd/domain/engine/GameEngine.kt:166-174 | The pool draws from the upgrade table. If any upgrade is under its cap (and not a spent TRANSFORM), the pool is exactly those upgrades; otherwise it falls back to the whole table. The pool is empty exactly when the table is |
| Waves.DrawsSpec | app/src/main/java/com/example/mergeruntd/domain/engine/GameEngine.kt:188-198 | k draws without replacement pick k upgrades, a sub-multiset of the pool, and advance the RNG by exactly k draws |
| Waves.RemoveAtMultiset | app/src/main/java/com/example/mergeruntd/domain/engine/GameEngine.kt:196 | `removeAt(i)` removes exactly one copy of element i |
| Waves.PickCount | app/src/main/java/com/example/mergeruntd/domain/engine/GameEngine.kt:191 | `count.coerceAtMost(size)` is the count when it fits and the size otherwise, and no pick at all for a non-positive count |
| Waves.SampleUpgrades | app/src/main/java/com/example/mergeruntd/domain/engine/GameEngine.kt:182-199 | The sampling loop returns exactly the specified draws, and the RNG they leave, for `min(count, size)` picks |
| Waves.OfferSpec | app/src/main/java/com/example/mergeruntd/domain/engine/GameEngine.kt:162-180 | An offer has `min(3, pool size)` options drawn without replacement from the pool, none exactly when the table is empty. It records the cleared wave number and the deadline `timeMs + timeoutSec*1000`, and advances the RNG once per option |
| Waves.BuildUpgradeOffer | app/src/main/java/com/example/mergeruntd/domain/engine/GameEngine.kt:162-180 | `buildUpgradeOffer` returns exactly the specified offer and RNG |
| Engine.GuardianHp | app/src/main/java/com/example/mergeruntd/domain/engine/GameEngine.kt:47 | The base starts with the first `guardian` definition's `baseHp`; it is 70 when there is no such definition or it has no `baseHp` |
| Engine.NewRun | app/src/main/java/com/example/mergeruntd/domain/engine/GameEngine.kt:43-69 | A new run: PREP, wave 0, guardian hp, no coins or free rerolls, empty board, shop and lane of `laneTiles`, neutral upgrades, no offer or outcome, time 0, RNG seeded with `seed`, stage index stored as given |
| Engine.NewRunWellFormed | app/src/main/java/com/example/mergeruntd/domain/engine/GameEngine.kt:43-69 | A new run on an existing stage satisfies the run invariant |
| Engine.AutoPick | app/src/main/java/com/example/mergeruntd/domain/engine/GameEngine.kt:154-156 | The auto-pick is the first option of the configured type, or the first option when none has it |
| Engine.HandleUpgradeTimeout | app/src/main/java/com/example/mergeruntd/domain/engine/GameEngine.kt:150-158 | Without an expired offer the state is returned as is; an expired one is resolved by applying the auto-pick. Phase, outcome, wave, hp, coins, lane, shop, RNG, time and occupancy are kept, the offer is cleared, and the run invariant is preserved |
| Engine.Spawned | app/src/main/java/com/example/mergeruntd/domain/engine/GameEngine.kt:212-216 | Each due spawn becomes a new enemy of its type at tile 0 with no carry and the definition's hp (default 1) |
| Engine.SplitDue | app/src/main/java/com/example/mergeruntd/domain/engine/GameEngine.kt:210 | The pending spawns split into those due by the new clock and the rest, together a permutation of the pending list |
| Engine.TickCombat | app/src/main/java/com/example/mergeruntd/domain/engine/GameEngine.kt:201-255 | `tickCombat` returns exactly the `Fought` result: outside COMBAT the state unchanged and no events; in COMBAT the board with the attack pass's units written back, the lane's enemies after walking and the attacks, the not-yet-due spawns, the clock advanced by delta, hp lowered by the arrivals' damage, and the spawn, arrival and kill events in that order |
| Engine.FoughtSpec | app/src/main/java/com/example/mergeruntd/domain/engine/GameEngine.kt:201-255 | Only board, lane and hp change. Board size, lane length and occupancy are kept, and each unit changes only in its cooldown, non-negative in COMBAT. The spawns left are all due after the new clock. With non-negative delta every enemy stays on the lane; with non-negative damages hp never rises |
| Engine.SpawnEvents | app/src/main/java/com/example/mergeruntd/domain/engine/GameEngine.kt:217 | One spawn event per due spawn |
| Engine.ArrivalsInLane | app/src/main/java/com/example/mergeruntd/domain/engine/GameEngine.kt:221-236 | Moving the lane's enemies together with fresh spawns keeps every survivor on the lane |
| Engine.WellFormedTickIsSafe | app/src/main/java/com/example/mergeruntd/domain/engine/GameEngine.kt:82-90 | Under the run invariant and a non-empty upgrade table, `tick` never reaches a crashing `first()` or index |
| Engine.OpenWave | app/src/main/java/com/example/mergeruntd/domain/engine/GameEngine.kt:84-107 | The wave-start branch returns exactly `Opened`: outside PREP, or POST_WAVE with an open offer, nothing happens; with the stage's waves exhausted the run ends in Victory; otherwise COMBAT with the wave's schedule, an empty lane and clock 0, free rerolls grown by 1 + bonus, and one `WaveStarted` event |
| Engine.OpenedSpec | app/src/main/java/com/example/mergeruntd/domain/engine/GameEngine.kt:84-107 | Opening a wave keeps stage, coins, occupancy, wave, hp, offer and time, and emits at most one event. A running run is ENDED exactly when it has an outcome, and the only outcome possible here is Victory on exhausted waves. The run invariant is kept |
| Engine.FinishWave | app/src/main/java/com/example/mergeruntd/domain/engine/GameEngine.kt:118-141 | The wave-end branch returns exactly `Finished`: the next wave number, and Victory at `STAGE_WAVES`, an offer built from the cleared number when it is listed, or POST_WAVE otherwise |
| Engine.FinishedSpec | app/src/main/java/com/example/mergeruntd/domain/engine/GameEngine.kt:118-141 | The wave number grows by 1, and stage, coins, free rerolls, occupancy, hp and time are kept. The run ends, in Victory, exactly at `STAGE_WAVES`. A new offer belongs to the cleared wave, which is listed in `offerAfterWaves`, and has options whenever the table has any. The run invariant is kept from COMBAT |
| Engine.RefillShop | app/src/main/java/com/example/mergeruntd/domain/engine/GameEngine.kt:115-116 | Only the shop and RNG change, exactly as `tickShop` specifies |
| Engine.BeginTick | app/src/main/java/com/example/mergeruntd/domain/engine/GameEngine.kt:75-107 | For a running run: the clock advanced by delta, an expired offer auto-resolved, then exactly `Opened` of that state |
| Engine.CloseTick | app/src/main/java/com/example/mergeruntd/domain/engine/GameEngine.kt:118-145 | The close of a tick returns exactly `Closed`: a cleared wave is finished with one `WaveEnded` event, then a base at 0 or below becomes ENDED with Defeat |
| Engine.ClosedSpec | app/src/main/java/com/example/mergeruntd/domain/engine/GameEngine.kt:118-145 | A base at 0 or below ends in Defeat, and a new Defeat means such a base. An uncleared wave with hp left is unchanged with no events. Stage, coins, free rerolls, occupancy, hp and time are kept; the wave advances only for a cleared wave; a new Victory means `STAGE_WAVES` waves cleared; a new offer follows a listed wave; the run invariant is kept |
| Engine.Proceed | app/src/main/java/com/example/mergeruntd/domain/engine/GameEngine.kt:109-145 | Combat, the shop refill and the close, in that order, return exactly `Proceeded`: the closed state and the combat events followed by the close events |
| Engine.ProceededSpec | app/src/main/java/com/example/mergeruntd/domain/engine/GameEngine.kt:109-145 | Time and free rerolls are kept, with stage, coins and occupancy. A running run is ENDED exactly when it has an outcome; hp at 0 or below means Defeat, and a new Defeat means such hp; a new Victory means `STAGE_WAVES` waves played. The wave grows by at most 1; hp never rises with non-negative damages; a new offer follows a listed wave; the invariant is kept for non-negative steps |
| Engine.Tick | app/src/main/java/com/example/mergeruntd/domain/engine/GameEngine.kt:71-148 | An ended run (or one with an outcome) only advances its clock, becomes ENDED and emits nothing. A running run gives exactly `Continued` of the wave-start result on the timed-out state: it stops there when the run was won, and otherwise continues with `Proceeded`, whose events follow the wave-start events |
| Engine.TickedSpec | app/src/main/java/com/example/mergeruntd/domain/engine/GameEngine.kt:71-148 | A running tick advances time by delta, grows the wave by at most 1, keeps stage, coins and occupancy, never raises hp with non-negative damages, and offers only after a listed wave |
| Engine.TickedOutcome | app/src/main/java/com/example/mergeruntd/domain/engine/GameEngine.kt:71-148 | After a running tick the run is ENDED exactly when it has an outcome, and a base at 0 or below has one. Defeat implies hp at 0 or below; Victory implies the stage's waves are played |
| Engine.TickedWellFormed | app/src/main/java/com/example/mergeruntd/domain/engine/GameEngine.kt:71-148 | A running tick that meets `TickSafe` with a non-negative step keeps the run invariant |
| Engine.ContinuedKeepsStart | app/src/main/java/com/example/mergeruntd/domain/engine/GameEngine.kt:104-116 | The rest of a tick keeps the free rerolls granted at wave start, and its events extend the wave-start events |
| Engine.WaveStartTick | app/src/main/java/com/example/mergeruntd/domain/engine/GameEngine.kt:84-113 | A tick that starts a wave grants free rerolls of 1 + the upgrade bonus, and its first event is `WaveStarted` for that wave |
| Engine.FirstTickGrantsFreeReroll | app/src/main/java/com/example/mergeruntd/domain/engine/GameEngine.kt:43-113 | The first tick of a new run on a stage with waves is safe, leaves the fresh run as it is at the timeout, and ends with exactly one free reroll and `WaveStarted(0)` as its first event |

## Left out

- User interface, the view model's coroutine tick loop, configuration loading and the data transfer objects are not part of this model. The configuration tables are parameters.
- IEEE-754 rounding is not modelled: rolls and the `atkMul`/`aspdMul` multipliers are exact reals. The source's `nextDouble` quotient is exact anyway. Products and quotients of doubles, and `Long.MAX_VALUE` read as a double for an unknown role's cooldown, are taken exactly.
- Combat.UnitCooldown: the contract relates the result to `base/aspdMul` only for a positive multiplier. A zero multiplier gives the saturated `Long.MAX_VALUE` (division by zero yields infinity), and a negative one gives 1, as in the source, but these cases are stated only through the bounds `[1, Long.MAX_VALUE]`.
- Integer widths other than the generator's 64-bit arithmetic are unbounded: overflow of coins, hp, timers, counters, and of `tileAdvance.toInt()` on huge steps, is not modelled.
- Engine.TickedSpec, Engine.TickedOutcome, Engine.TickedWellFormed: these state the properties of a running tick; for a run that is already ended, `Engine.Tick` itself states the exact result.
- Crashes are modelled as preconditions: an expired offer with no options (`first()` on an empty list), and an out-of-range stage or negative wave index at wave start. `Engine.TickSafe` states exactly these, and `HandleUpgradeTimeout` requires the first.
- Engine.TickedOutcome: the contract says a base at 0 or below ends the run with *some* outcome, not always Defeat. When the waves are exhausted at wave start, the source returns Victory before its defeat check.
- Unused configuration: `shopConfig`, `maxTransformPerRun`, the stage multipliers and the `config` argument of `applyUpgrade` are carried but never read, as in the source.
- Unit ids are the decimal digits of the unsigned draw, modelled by a digit function with no stated properties.
- Behaviour that only tests expect, with no code behind it, is not modelled: a select-upgrade intent, stage clamping, kill rewards, and alternative error texts.
