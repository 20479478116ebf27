/**
 * The game engine (GameEngine.kt): starting a run and advancing it by one
 * tick — upgrade timeout, wave start, combat, shop refill, wave end and the
 * defeat check, in that order.
 */
module Engine {
  import opened Wrappers
  import opened Collections
  import opened Core
  import opened Boards
  import opened Shop
  import opened Lane
  import opened Config
  import opened RunModel
  import opened Upgrades
  import opened Combat
  import opened Waves

  /** The state after a tick and what happened during it, in order. */
  datatype TickResult = TickResult(state: RunState, events: seq<DomainEvent>)

  /** The base's hit points when the unit table has no "guardian" entry with a `baseHp`. */
  const DEFAULT_BASE_HP := 70

  /** The base's starting hit points: the guardian's `baseHp`, else 70. */
  function GuardianHp(unitDefs: seq<UnitDef>): (hp: int)
    ensures FindUnitDef(unitDefs, "guardian").Some? && FindUnitDef(unitDefs, "guardian").value.baseHp.Some? ==>
      hp == FindUnitDef(unitDefs, "guardian").value.baseHp.value
    ensures FindUnitDef(unitDefs, "guardian").None? || FindUnitDef(unitDefs, "guardian").value.baseHp.None? ==>
      hp == DEFAULT_BASE_HP
  {
    match FindUnitDef(unitDefs, "guardian")
    case Some(d) => OrElse(d.baseHp, DEFAULT_BASE_HP)
    case None => DEFAULT_BASE_HP
  }

  /** `newRun`: a run in preparation of its first wave, with nothing bought, applied or scheduled. */
  function NewRun(config: GameConfig, stageIndex: int, seed: Long): (r: RunState)
    ensures r.stageIndex == stageIndex && r.waveIndex == 0 && r.phase == Prep
    ensures r.baseHp == GuardianHp(config.unitDefs)
    ensures r.coins == 0 && r.freeRerollLeft == 0
    ensures r.board == EmptyBoard() && r.shop == EmptyShop() && r.lane == EmptyLane(config.laneTiles)
    ensures r.atkMul == 1.0 && r.aspdMul == 1.0 && r.rerollCostDelta == 0 && r.waveStartFreeRerollBonus == 0
    ensures r.offeredUpgrade.None? && !r.transformUsed && r.end.None?
    ensures r.appliedUpgradeCount == map[] && r.timeMs == 0 && r.rng == RngState(seed)
  {
    RunState(
      stageIndex := stageIndex, waveIndex := 0, phase := Prep,
      baseHp := GuardianHp(config.unitDefs), coins := 0, freeRerollLeft := 0,
      board := EmptyBoard(), shop := EmptyShop(), lane := EmptyLane(config.laneTiles),
      atkMul := 1.0, aspdMul := 1.0, rerollCostDelta := 0, waveStartFreeRerollBonus := 0,
      offeredUpgrade := None, transformUsed := false, end := None,
      appliedUpgradeCount := map[], timeMs := 0, rng := RngState(seed))
  }

  /**
   * The invariant of a run between ticks: the run is over exactly when it
   * has an outcome; an offer is only pending after a wave (and is never
   * empty while the table has upgrades); the wave number is within the
   * stage; the stage exists; coins are not negative; the board keeps its
   * 16 cells; and every enemy is inside the lane with less than one tile's
   * worth of progress carried.
   */
  ghost predicate WellFormed(s: RunState, config: GameConfig)
  {
    && (s.phase == Ended <==> s.end.Some?)
    && (s.offeredUpgrade.Some? ==>
          && (s.phase == PostWave || s.phase == Ended)
          && (|config.upgrades| > 0 ==> |s.offeredUpgrade.value.options| > 0))
    && 0 <= s.waveIndex
    && (s.phase != Ended ==> s.waveIndex < STAGE_WAVES)
    && 0 <= s.stageIndex < |config.stages|
    && s.coins >= 0
    && |s.board.cells| == BOARD_ROWS * BOARD_COLS
    && InLane(Placements(s.lane.enemies), s.lane.length)
  }

  /** A new run on an existing stage is well formed. */
  lemma NewRunWellFormed(config: GameConfig, stageIndex: int, seed: Long)
    requires 0 <= stageIndex < |config.stages|
    ensures WellFormed(NewRun(config, stageIndex, seed), config)
  {
  }

  /**
   * The option taken when an offer times out: the first of the configured
   * type, or else the first option.
   */
  function AutoPick(options: seq<UpgradeDef>, kind: string): (u: UpgradeDef)
    requires |options| > 0
    ensures u in options
    ensures (exists i :: 0 <= i < |options| && options[i].kind == kind) ==>
      u.kind == kind &&
      (exists i :: 0 <= i < |options| && options[i] == u && forall j :: 0 <= j < i ==> options[j].kind != kind)
    ensures (forall i :: 0 <= i < |options| ==> options[i].kind != kind) ==> u == options[0]
  {
    match FirstIndex(options, (o: UpgradeDef) => o.kind == kind)
    case Some(i) => options[i]
    case None => options[0]
  }

  /** Whether the pending offer, if any, has passed its deadline. */
  predicate OfferExpired(state: RunState)
  {
    state.offeredUpgrade.Some? && state.timeMs > state.offeredUpgrade.value.deadlineTimeMs
  }

  /**
   * `handleUpgradeTimeout`: past the deadline, the auto-picked option is
   * applied (which clears the offer); otherwise nothing changes. The source
   * fails on an expired offer with no options.
   */
  function HandleUpgradeTimeout(state: RunState, config: GameConfig): (r: RunState)
    requires OfferExpired(state) ==> |state.offeredUpgrade.value.options| > 0
    ensures !OfferExpired(state) ==> r == state
    ensures OfferExpired(state) ==>
      r == ApplyUpgrade(state, AutoPick(state.offeredUpgrade.value.options, config.upgradeRules.autoPickTypeOnTimeout))
      && r.offeredUpgrade.None?
    ensures r.phase == state.phase && r.end == state.end && r.waveIndex == state.waveIndex
    ensures r.stageIndex == state.stageIndex && r.baseHp == state.baseHp && r.coins == state.coins
    ensures r.lane == state.lane && r.shop == state.shop && r.rng == state.rng && r.timeMs == state.timeMs
    ensures r.freeRerollLeft == state.freeRerollLeft
    ensures |r.board.cells| == |state.board.cells|
    ensures forall i :: 0 <= i < |state.board.cells| ==> (r.board.cells[i].None? <==> state.board.cells[i].None?)
    ensures r.offeredUpgrade.None? || r == state
    ensures Conserved(state, r)
    ensures WellFormed(state, config) ==> WellFormed(r, config)
  {
    if !OfferExpired(state) then state
    else
      var selected := AutoPick(state.offeredUpgrade.value.options, config.upgradeRules.autoPickTypeOnTimeout);
      TransformBoardEffect(state.board, selected);
      ApplyUpgrade(state, selected)
  }

  /** The enemy a due spawn becomes: its definition's hit points (1 when unknown), at the lane's start. */
  function Spawned(due: seq<PendingSpawn>, enemyDefs: seq<EnemyDef>): (r: seq<EnemyInstance>)
    ensures |r| == |due|
    ensures forall i :: 0 <= i < |due| ==>
      r[i].id == due[i].enemyType && r[i].tile == 0 && r[i].progressMs == 0
      && r[i].hp == (match FindEnemyDef(enemyDefs, due[i].enemyType) case Some(d) => d.hp case None => 1)
  {
    seq(|due|, i requires 0 <= i < |due| =>
      EnemyInstance(due[i].enemyType,
        match FindEnemyDef(enemyDefs, due[i].enemyType) case Some(d) => d.hp case None => 1,
        0, 0))
  }

  /** Whether a spawn is due once the wave clock reads `elapsed`. */
  predicate IsDue(p: PendingSpawn, elapsed: int)
  {
    p.dueMs <= elapsed
  }

  /**
   * The `partition` of the spawn queue at wave time `elapsed`: the spawns
   * due now, then those still waiting, each part in queue order.
   */
  function SplitDue(pending: seq<PendingSpawn>, elapsed: int): (r: (seq<PendingSpawn>, seq<PendingSpawn>))
    ensures multiset(r.0) + multiset(r.1) == multiset(pending)
    ensures forall i :: 0 <= i < |r.0| ==> r.0[i].dueMs <= elapsed
    ensures forall i :: 0 <= i < |r.1| ==> r.1[i].dueMs > elapsed
  {
    PartitionPermutes(pending, p => IsDue(p, elapsed));
    Partition(pending, p => IsDue(p, elapsed))
  }

  /** The spawn queue split at the wave time this tick reaches. */
  function SpawnSplit(state: RunState, deltaMs: int): (seq<PendingSpawn>, seq<PendingSpawn>)
  {
    SplitDue(state.lane.pendingSpawns, state.lane.combatElapsedMs + deltaMs)
  }

  /** The enemies walking this tick: those in the lane, then the spawns now due, in queue order. */
  function Arriving(state: RunState, deltaMs: int, enemyDefs: seq<EnemyDef>): seq<EnemyInstance>
  {
    state.lane.enemies + Spawned(SpawnSplit(state, deltaMs).0, enemyDefs)
  }

  /** The attack pass of this tick, against the enemies left after walking. */
  function CombatOutcome(state: RunState, deltaMs: int, enemyDefs: seq<EnemyDef>): AttackOutcome
  {
    Attacks(AllUnits(state.board), Survivors(Arriving(state, deltaMs, enemyDefs), deltaMs, state.lane.length),
            deltaMs, state.atkMul, state.aspdMul)
  }

  /**
   * What `tickCombat` makes of a state: outside combat, nothing; in combat,
   * the units' new cooldowns, the lane after walking and the attacks, the
   * spawns still waiting, the advanced wave clock and the damaged base —
   * with the spawn, arrival and kill events, in that order.
   */
  function Fought(state: RunState, deltaMs: int, enemyDefs: seq<EnemyDef>): TickResult
  {
    if state.phase != Combat then TickResult(state, [])
    else
      var outcome := CombatOutcome(state, deltaMs, enemyDefs);
      var arriving := Arriving(state, deltaMs, enemyDefs);
      TickResult(
        state.(
          board := UpdatedBoard(state.board, outcome.units),
          lane := state.lane.(
            enemies := outcome.enemies,
            pendingSpawns := SpawnSplit(state, deltaMs).1,
            combatElapsedMs := state.lane.combatElapsedMs + deltaMs),
          baseHp := state.baseHp - DamageTaken(arriving, deltaMs, state.lane.length, enemyDefs)),
        SpawnEvents(SpawnSplit(state, deltaMs).0)
          + ArrivalEvents(arriving, deltaMs, state.lane.length, enemyDefs)
          + KillEvents(outcome.kills))
  }

  /**
   * `tickCombat`: the wave clock advances; due spawns enter the lane behind
   * the enemies already there; everyone walks, arrivals hurt the base; then
   * the units attack. Outside combat nothing changes.
   */
  method TickCombat(state: RunState, deltaMs: int, enemyDefs: seq<EnemyDef>) returns (r: TickResult)
    ensures r == Fought(state, deltaMs, enemyDefs)
  {
    if state.phase != Combat {
      return TickResult(state, []);
    }
    var elapsed := state.lane.combatElapsedMs + deltaMs;
    var split := SpawnSplit(state, deltaMs);
    var spawnedEnemies := Spawned(split.0, enemyDefs);
    var events := SpawnEvents(split.0);
    var arriving := state.lane.enemies + spawnedEnemies;
    assert arriving == Arriving(state, deltaMs, enemyDefs);
    var moved, baseDamageTaken, arrivals := MoveEnemies(arriving, deltaMs, state.lane.length, enemyDefs);
    var board, enemies, kills := ApplyUnitAttacks(state.board, moved, deltaMs, state.atkMul, state.aspdMul);
    r := TickResult(
      state.(
        board := board,
        lane := state.lane.(enemies := enemies, pendingSpawns := split.1, combatElapsedMs := elapsed),
        baseHp := state.baseHp - baseDamageTaken),
      events + arrivals + kills);
  }

  /**
   * The combat step changes only the board's cooldowns, the lane and the
   * base: every unit stays in its cell with a non-negative cooldown; the
   * spawns left waiting are all later than the new wave clock; enemies stay
   * inside the lane over a non-negative step; and the base never heals when
   * no enemy definition has negative damage.
   */
  lemma FoughtSpec(state: RunState, deltaMs: int, enemyDefs: seq<EnemyDef>)
    ensures var r := Fought(state, deltaMs, enemyDefs).state;
      && r.(board := state.board, lane := state.lane, baseHp := state.baseHp) == state
      && r.board.rows == state.board.rows && r.board.cols == state.board.cols
      && |r.board.cells| == |state.board.cells|
      && r.lane.length == state.lane.length
      && (forall i :: 0 <= i < |state.board.cells| ==> (r.board.cells[i].None? <==> state.board.cells[i].None?))
      && (forall i :: 0 <= i < |state.board.cells| && state.board.cells[i].Some? ==>
            r.board.cells[i].value == state.board.cells[i].value.(cooldownMs := r.board.cells[i].value.cooldownMs))
      && (state.phase == Combat ==> forall i :: 0 <= i < |state.board.cells| && state.board.cells[i].Some? ==>
            r.board.cells[i].value.cooldownMs >= 0)
      && (state.phase == Combat ==> forall i :: 0 <= i < |r.lane.pendingSpawns| ==>
            r.lane.pendingSpawns[i].dueMs > r.lane.combatElapsedMs)
      && (deltaMs >= 0 && InLane(Placements(state.lane.enemies), state.lane.length) ==>
            InLane(Placements(r.lane.enemies), r.lane.length))
      && ((forall d :: d in enemyDefs ==> d.baseDamage >= 0) ==> r.baseHp <= state.baseHp)
  {
    if state.phase == Combat {
      var arriving := Arriving(state, deltaMs, enemyDefs);
      var moved := Survivors(arriving, deltaMs, state.lane.length);
      var units := AllUnits(state.board);
      AttacksSpec(units, moved, deltaMs, state.atkMul, state.aspdMul);
      var outcome := CombatOutcome(state, deltaMs, enemyDefs);
      forall i | 0 <= i < |state.board.cells| && state.board.cells[i].Some?
        ensures UpdatedCell(state.board.cells, outcome.units, i).Some?
        ensures UpdatedCell(state.board.cells, outcome.units, i).value
          == state.board.cells[i].value.(cooldownMs := UpdatedCell(state.board.cells, outcome.units, i).value.cooldownMs)
        ensures UpdatedCell(state.board.cells, outcome.units, i).value.cooldownMs >= 0
      {
        UpdatedCellKeepsUnit(state.board, outcome.units, i);
      }
      if deltaMs >= 0 && InLane(Placements(state.lane.enemies), state.lane.length) {
        ArrivalsInLane(state.lane.enemies, Spawned(SpawnSplit(state, deltaMs).0, enemyDefs), deltaMs, state.lane.length);
      }
      if forall d :: d in enemyDefs ==> d.baseDamage >= 0 {
        DamageTakenNonNegative(arriving, deltaMs, state.lane.length, enemyDefs);
      }
    }
  }

  /** One `EnemySpawned` event per due spawn, in order. */
  function SpawnEvents(due: seq<PendingSpawn>): (r: seq<DomainEvent>)
    ensures |r| == |due|
  {
    if due == [] then [] else [EnemySpawned(due[0].enemyType)] + SpawnEvents(due[1..])
  }

  /** Enemies in the lane and fresh spawns, after walking a non-negative time, are all in the lane. */
  lemma ArrivalsInLane(enemies: seq<EnemyInstance>, spawned: seq<EnemyInstance>, deltaMs: int, length: int)
    requires deltaMs >= 0 && InLane(Placements(enemies), length)
    requires forall i :: 0 <= i < |spawned| ==> spawned[i].progressMs == 0
    ensures InLane(Placements(Survivors(enemies + spawned, deltaMs, length)), length)
  {
    forall e | e in enemies + spawned ensures e.progressMs + deltaMs >= 0 {
      if e in enemies {
        assert Placement(e) in Placements(enemies);
      }
    }
    SurvivorsInLane(enemies + spawned, deltaMs, length);
  }

  /** Whether the tick starts the next wave: in preparation, or after a wave with no offer pending. */
  predicate StartsWave(s: RunState)
  {
    s.phase == Prep || (s.phase == PostWave && s.offeredUpgrade.None?)
  }

  /** Whether a run is still going. */
  predicate Running(s: RunState)
  {
    s.phase != Ended && s.end.None?
  }

  /**
   * The inputs on which `tick` completes: an offer that expires must have an
   * option to pick, and a wave start needs an existing stage and a
   * non-negative wave number.
   */
  predicate TickSafe(state: RunState, deltaMs: int, config: GameConfig)
  {
    var s := state.(timeMs := state.timeMs + deltaMs);
    Running(s) ==>
      && (OfferExpired(s) ==> |s.offeredUpgrade.value.options| > 0)
      && (StartsWave(HandleUpgradeTimeout(s, config)) ==>
            0 <= s.stageIndex < |config.stages| && s.waveIndex >= 0)
  }

  /** A well-formed run never makes `tick` fail while the upgrade table is not empty. */
  lemma WellFormedTickIsSafe(state: RunState, deltaMs: int, config: GameConfig)
    requires WellFormed(state, config) && |config.upgrades| > 0
    ensures TickSafe(state, deltaMs, config)
  {
  }

  /** Whether the last wave of the stage has been played. */
  predicate WavesExhausted(s: RunState, config: GameConfig)
    requires 0 <= s.stageIndex < |config.stages|
  {
    s.waveIndex >= |config.stages[s.stageIndex].waves| || s.waveIndex >= STAGE_WAVES
  }

  /** What no step of a tick changes: the stage, the coins, the lane's length and which cells hold units. */
  ghost predicate Conserved(before: RunState, after: RunState)
  {
    && after.stageIndex == before.stageIndex
    && after.coins == before.coins
    && after.lane.length == before.lane.length
    && |after.board.cells| == |before.board.cells|
    && forall i :: 0 <= i < |before.board.cells| ==> (after.board.cells[i].None? <==> before.board.cells[i].None?)
  }

  /**
   * What the wave-start branch of `tick` makes of a state: nothing unless a
   * wave is due; Victory when the stage has no waves left; otherwise combat
   * on the wave's spawn queue with an empty lane, the wave clock at 0 and a
   * free reroll (plus the upgrades' bonus), announced by one `WaveStarted`.
   */
  function Opened(s: RunState, config: GameConfig): TickResult
    requires StartsWave(s) ==> 0 <= s.stageIndex < |config.stages| && s.waveIndex >= 0
  {
    if !StartsWave(s) then TickResult(s, [])
    else if WavesExhausted(s, config) then TickResult(s.(phase := Ended, end := Some(Victory)), [])
    else
      TickResult(
        s.(
          phase := Combat,
          freeRerollLeft := s.freeRerollLeft + WAVE_START_FREE_REROLL_BONUS + s.waveStartFreeRerollBonus,
          lane := s.lane.(
            pendingSpawns := WaveSchedule(config.stages[s.stageIndex].waves[s.waveIndex]),
            combatElapsedMs := 0,
            enemies := [])),
        [WaveStarted(s.waveIndex)])
  }

  /** The wave-start branch of `tick`. */
  method OpenWave(s: RunState, config: GameConfig) returns (next: RunState, events: seq<DomainEvent>)
    requires StartsWave(s) ==> 0 <= s.stageIndex < |config.stages| && s.waveIndex >= 0
    ensures TickResult(next, events) == Opened(s, config)
  {
    next, events := s, [];
    if StartsWave(s) {
      var stage := config.stages[s.stageIndex];
      if WavesExhausted(s, config) {
        next := s.(phase := Ended, end := Some(Victory));
      } else {
        var spawns := BuildWaveSpawns(stage.waves[s.waveIndex]);
        next := s.(
          phase := Combat,
          freeRerollLeft := s.freeRerollLeft + WAVE_START_FREE_REROLL_BONUS + s.waveStartFreeRerollBonus,
          lane := s.lane.(pendingSpawns := spawns, combatElapsedMs := 0, enemies := []));
        events := [WaveStarted(next.waveIndex)];
      }
    }
  }

  /**
   * Opening a wave keeps the stage, the coins, the board's occupancy, the
   * wave number, the base, the offer and the clock; a running run ends only
   * in Victory, and only when the stage's waves are exhausted; the run
   * invariant is kept; at most one event is emitted.
   */
  lemma OpenedSpec(s: RunState, config: GameConfig)
    requires StartsWave(s) ==> 0 <= s.stageIndex < |config.stages| && s.waveIndex >= 0
    ensures var r := Opened(s, config);
      && Conserved(s, r.state)
      && r.state.waveIndex == s.waveIndex && r.state.baseHp == s.baseHp
      && r.state.offeredUpgrade == s.offeredUpgrade && r.state.timeMs == s.timeMs
      && |r.events| <= 1
      && (Running(s) ==> (r.state.phase == Ended <==> r.state.end.Some?))
      && (Running(s) && r.state.end.Some? ==> r.state.end == Some(Victory) && WavesExhausted(s, config))
      && (WellFormed(s, config) ==> WellFormed(r.state, config))
  {
  }

  /**
   * What the wave-end branch of `tick` makes of a state: the next wave
   * number, and Victory past the fifth wave, an offer after a listed wave,
   * or else a wait for the next wave.
   */
  function Finished(s: RunState, config: GameConfig): RunState
  {
    var cleared := s.waveIndex + 1;
    if cleared >= STAGE_WAVES then s.(phase := Ended, waveIndex := cleared, end := Some(Victory))
    else if cleared in config.upgradeRules.offerAfterWaves then
      s.(phase := PostWave, waveIndex := cleared,
         offeredUpgrade := Some(Offer(s, config.upgrades, config.upgradeRules, cleared).0),
         rng := Offer(s, config.upgrades, config.upgradeRules, cleared).1)
    else s.(phase := PostWave, waveIndex := cleared)
  }

  /** The wave-end branch of `tick`. */
  method FinishWave(s: RunState, config: GameConfig) returns (next: RunState)
    ensures next == Finished(s, config)
  {
    var cleared := s.waveIndex + 1;
    if cleared >= STAGE_WAVES {
      next := s.(phase := Ended, waveIndex := cleared, end := Some(Victory));
    } else if cleared in config.upgradeRules.offerAfterWaves {
      var offer, rng := BuildUpgradeOffer(s, config.upgrades, config.upgradeRules, cleared);
      next := s.(phase := PostWave, waveIndex := cleared, offeredUpgrade := Some(offer), rng := rng);
    } else {
      next := s.(phase := PostWave, waveIndex := cleared);
    }
  }

  /**
   * Finishing a wave advances the wave number by one and keeps the stage,
   * the coins, the free rerolls, the occupancy, the base and the clock; the run ends, in
   * Victory, exactly when the wave number reaches five; a new offer belongs
   * to the wave just cleared, is listed in `offerAfterWaves` and is not
   * empty while the table has upgrades; and a well-formed run in combat
   * stays well formed.
   */
  lemma FinishedSpec(s: RunState, config: GameConfig)
    ensures var next := Finished(s, config);
      && Conserved(s, next)
      && next.waveIndex == s.waveIndex + 1 && next.baseHp == s.baseHp && next.timeMs == s.timeMs
      && next.freeRerollLeft == s.freeRerollLeft
      && (next.phase == Ended <==> next.waveIndex >= STAGE_WAVES)
      && next.end == (if next.phase == Ended then Some(Victory) else s.end)
      && (next.offeredUpgrade.Some? && next.offeredUpgrade != s.offeredUpgrade ==>
            && next.phase == PostWave
            && next.offeredUpgrade.value.waveIndex == next.waveIndex
            && next.waveIndex in config.upgradeRules.offerAfterWaves
            && (|config.upgrades| > 0 ==> |next.offeredUpgrade.value.options| > 0))
      && (next.offeredUpgrade.None? ==> s.offeredUpgrade.None?)
      && (WellFormed(s, config) && s.phase == Combat ==> WellFormed(next, config))
  {
    var cleared := s.waveIndex + 1;
    if cleared < STAGE_WAVES && cleared in config.upgradeRules.offerAfterWaves {
      OfferSpec(s, config.upgrades, config.upgradeRules, cleared);
    }
  }

  /** Whether the tick ends the wave in progress: combat with nothing left to spawn or fight. */
  predicate WaveCleared(s: RunState)
  {
    s.phase == Combat && |s.lane.pendingSpawns| == 0 && |s.lane.enemies| == 0
  }

  /** The shop step of `tick`: the shop refills from the run's generator. */
  function RefillShop(s: RunState, deltaMs: int, config: GameConfig): (r: RunState)
    ensures r == s.(shop := r.shop, rng := r.rng)
    ensures (r.shop, r.rng) == TickShop(s.shop, deltaMs, s.rng, config.unitDefs)
  {
    var (shop, nextRng) := TickShop(s.shop, deltaMs, s.rng, config.unitDefs);
    s.(shop := shop, rng := nextRng)
  }

  /**
   * What the end of `tick` makes of a state: a cleared wave is finished
   * with one `WaveEnded` event; then a base at 0 hit points or below means
   * Defeat, even over a Victory just won.
   */
  function Closed(s: RunState, config: GameConfig): TickResult
  {
    var ended := if WaveCleared(s) then TickResult(Finished(s, config), [WaveEnded(s.waveIndex)]) else TickResult(s, []);
    if ended.state.baseHp <= 0 then TickResult(ended.state.(phase := Ended, end := Some(Defeat)), ended.events)
    else ended
  }

  /**
   * Closing a tick: a fallen base means Defeat, and Defeat means a fallen
   * base; a new Victory means five waves played; the stage, the coins, the
   * free rerolls, the occupancy, the base and the clock are kept; the wave number advances
   * only for a cleared wave; a new offer follows a listed wave; the run
   * invariant is kept.
   */
  lemma ClosedSpec(s: RunState, config: GameConfig)
    ensures var r := Closed(s, config);
      && (s.baseHp <= 0 ==> r.state.phase == Ended && r.state.end == Some(Defeat))
      && (!WaveCleared(s) && s.baseHp > 0 ==> r == TickResult(s, []))
      && Conserved(s, r.state)
      && r.state.baseHp == s.baseHp && r.state.timeMs == s.timeMs && r.state.freeRerollLeft == s.freeRerollLeft
      && (r.state.waveIndex == s.waveIndex || (WaveCleared(s) && r.state.waveIndex == s.waveIndex + 1))
      && (s.end.None? && r.state.end == Some(Defeat) ==> r.state.baseHp <= 0)
      && (s.end.None? && r.state.end == Some(Victory) ==> r.state.waveIndex >= STAGE_WAVES)
      && (Running(s) ==> (r.state.phase == Ended <==> r.state.end.Some?))
      && (r.state.offeredUpgrade.Some? && r.state.offeredUpgrade != s.offeredUpgrade ==>
            r.state.offeredUpgrade.value.waveIndex == r.state.waveIndex
            && r.state.waveIndex in config.upgradeRules.offerAfterWaves)
      && (WellFormed(s, config) ==> WellFormed(r.state, config))
  {
    FinishedSpec(s, config);
  }

  /**
   * The start of `tick` for a running run: the clock advances, an expired
   * offer is auto-resolved, then a due wave opens (or the run is won when
   * the stage has no waves left).
   */
  method BeginTick(state: RunState, deltaMs: int, config: GameConfig) returns (next: RunState, events: seq<DomainEvent>)
    requires Running(state) && TickSafe(state, deltaMs, config)
    ensures TickResult(next, events) == Opened(HandleUpgradeTimeout(state.(timeMs := state.timeMs + deltaMs), config), config)
  {
    next := HandleUpgradeTimeout(state.(timeMs := state.timeMs + deltaMs), config);
    next, events := OpenWave(next, config);
  }

  /** The end of `tick` after combat and the shop. */
  method CloseTick(s: RunState, config: GameConfig) returns (next: RunState, events: seq<DomainEvent>)
    ensures TickResult(next, events) == Closed(s, config)
  {
    next, events := s, [];
    if WaveCleared(s) {
      events := [WaveEnded(s.waveIndex)];
      next := FinishWave(s, config);
    }
    if next.baseHp <= 0 {
      next := next.(phase := Ended, end := Some(Defeat));
    }
  }

  /** The rest of a running tick once the wave start is done: combat, the shop refill, then the close. */
  function Proceeded(s: RunState, deltaMs: int, config: GameConfig): TickResult
  {
    var fought := Fought(s, deltaMs, config.enemyDefs);
    var closed := Closed(RefillShop(fought.state, deltaMs, config), config);
    TickResult(closed.state, fought.events + closed.events)
  }

  /** The rest of `tick` after the wave start: combat (when in combat), the shop refill, then the close. */
  method Proceed(s: RunState, deltaMs: int, config: GameConfig) returns (next: RunState, events: seq<DomainEvent>)
    ensures TickResult(next, events) == Proceeded(s, deltaMs, config)
  {
    var combat := TickCombat(s, deltaMs, config.enemyDefs);
    var refilled := RefillShop(combat.state, deltaMs, config);
    var closing;
    next, closing := CloseTick(refilled, config);
    events := combat.events + closing;
  }

  /**
   * Combat, refill and close keep the clock, the free rerolls, the stage,
   * the coins and the occupancy; the run ends exactly when it gets an outcome, and a base at
   * 0 or below ends it in Defeat; a new Victory means five waves played;
   * the wave number advances by at most one; the base never heals when no
   * enemy definition has negative damage; a new offer follows a listed
   * wave; and the run invariant is kept for non-negative steps.
   */
  lemma ProceededSpec(s: RunState, deltaMs: int, config: GameConfig)
    ensures var r := Proceeded(s, deltaMs, config).state;
      && r.timeMs == s.timeMs && r.freeRerollLeft == s.freeRerollLeft
      && Conserved(s, r)
      && (Running(s) ==> (r.phase == Ended <==> r.end.Some?))
      && (r.baseHp <= 0 ==> r.end == Some(Defeat))
      && (s.end.None? && r.end == Some(Defeat) ==> r.baseHp <= 0)
      && (s.end.None? && r.end == Some(Victory) ==> r.waveIndex >= STAGE_WAVES)
      && (r.waveIndex == s.waveIndex || r.waveIndex == s.waveIndex + 1)
      && ((forall d :: d in config.enemyDefs ==> d.baseDamage >= 0) ==> r.baseHp <= s.baseHp)
      && (r.offeredUpgrade.Some? && r.offeredUpgrade != s.offeredUpgrade ==>
            r.offeredUpgrade.value.waveIndex == r.waveIndex && r.waveIndex in config.upgradeRules.offerAfterWaves)
      && (WellFormed(s, config) && deltaMs >= 0 ==> WellFormed(r, config))
  {
    FoughtSpec(s, deltaMs, config.enemyDefs);
    var fought := Fought(s, deltaMs, config.enemyDefs);
    ClosedSpec(RefillShop(fought.state, deltaMs, config), config);
  }

  /**
   * What a running `tick` makes of the result of its wave-start step: a run
   * won there stops, otherwise combat, the shop refill and the close follow,
   * and their events come after the wave-start event.
   */
  function Continued(started: TickResult, deltaMs: int, config: GameConfig): TickResult
  {
    if started.state.phase == Ended then started
    else TickResult(Proceeded(started.state, deltaMs, config).state, started.events + Proceeded(started.state, deltaMs, config).events)
  }

  /**
   * `tick`: advances the run clock by `deltaMs`. An ended run only keeps
   * its clock. Otherwise an expired offer is auto-resolved, a wave starts
   * if one is due (or the run is won when the stage has no waves left),
   * combat runs, the shop refills, a cleared wave ends, and a base at 0 hit
   * points or below loses the run.
   */
  method Tick(state: RunState, deltaMs: int, config: GameConfig) returns (r: TickResult)
    requires TickSafe(state, deltaMs, config)
    ensures !Running(state) ==> r == TickResult(state.(timeMs := state.timeMs + deltaMs, phase := Ended), [])
    ensures Running(state) ==>
      r == Continued(Opened(HandleUpgradeTimeout(state.(timeMs := state.timeMs + deltaMs), config), config), deltaMs, config)
  {
    var next := state.(timeMs := state.timeMs + deltaMs);
    if next.phase == Ended || next.end.Some? {
      return TickResult(next.(phase := Ended), []);
    }
    var events;
    next, events := BeginTick(state, deltaMs, config);
    if next.phase == Ended {
      return TickResult(next, events);
    }
    var more;
    next, more := Proceed(next, deltaMs, config);
    r := TickResult(next, events + more);
  }

  /**
   * One running tick keeps what it must: the clock advances by `deltaMs`;
   * the wave number advances by at most one; the stage, the coins and the
   * occupied cells never change; the base never heals when no enemy
   * definition has negative damage; and a new offer follows a listed wave
   * number.
   */
  lemma TickedSpec(state: RunState, deltaMs: int, config: GameConfig)
    requires TickSafe(state, deltaMs, config) && Running(state)
    ensures var r := Continued(Opened(HandleUpgradeTimeout(state.(timeMs := state.timeMs + deltaMs), config), config), deltaMs, config);
      && r.state.timeMs == state.timeMs + deltaMs
      && (r.state.waveIndex == state.waveIndex || r.state.waveIndex == state.waveIndex + 1)
      && Conserved(state, r.state)
      && ((forall d :: d in config.enemyDefs ==> d.baseDamage >= 0) ==> r.state.baseHp <= state.baseHp)
      && (r.state.offeredUpgrade.Some? && r.state.offeredUpgrade != state.offeredUpgrade ==>
            r.state.offeredUpgrade.value.waveIndex == r.state.waveIndex
            && r.state.waveIndex in config.upgradeRules.offerAfterWaves)
  {
    var timedOut := HandleUpgradeTimeout(state.(timeMs := state.timeMs + deltaMs), config);
    OpenedSpec(timedOut, config);
    var started := Opened(timedOut, config);
    if started.state.phase != Ended {
      ProceededSpec(started.state, deltaMs, config);
    }
  }

  /**
   * How a tick ends a running run: it ends exactly when it gets an outcome;
   * a base at 0 or below ends it, and Defeat means the base fell; Victory
   * only once the stage's waves are played.
   */
  lemma TickedOutcome(state: RunState, deltaMs: int, config: GameConfig)
    requires TickSafe(state, deltaMs, config) && Running(state)
    ensures var r := Continued(Opened(HandleUpgradeTimeout(state.(timeMs := state.timeMs + deltaMs), config), config), deltaMs, config);
      && (r.state.phase == Ended <==> r.state.end.Some?)
      && (r.state.baseHp <= 0 ==> r.state.end.Some?)
      && (r.state.end == Some(Defeat) ==> r.state.baseHp <= 0)
      && (r.state.end == Some(Victory) ==>
            r.state.waveIndex >= STAGE_WAVES ||
            (0 <= r.state.stageIndex < |config.stages| && r.state.waveIndex >= |config.stages[r.state.stageIndex].waves|))
  {
    var timedOut := HandleUpgradeTimeout(state.(timeMs := state.timeMs + deltaMs), config);
    OpenedSpec(timedOut, config);
    var started := Opened(timedOut, config);
    if started.state.phase != Ended {
      ProceededSpec(started.state, deltaMs, config);
    }
  }

  /** A running tick of a non-negative step keeps the run invariant. */
  lemma TickedWellFormed(state: RunState, deltaMs: int, config: GameConfig)
    requires TickSafe(state, deltaMs, config) && Running(state)
    requires WellFormed(state, config) && deltaMs >= 0
    ensures WellFormed(Continued(Opened(HandleUpgradeTimeout(state.(timeMs := state.timeMs + deltaMs), config), config), deltaMs, config).state, config)
  {
    var timedOut := HandleUpgradeTimeout(state.(timeMs := state.timeMs + deltaMs), config);
    OpenedSpec(timedOut, config);
    var started := Opened(timedOut, config);
    if started.state.phase != Ended {
      ProceededSpec(started.state, deltaMs, config);
    }
  }

  /**
   * A tick that starts a wave grants the wave-start free reroll and the
   * upgrade bonus, and reports the wave start first.
   */
  lemma WaveStartTick(s: RunState, deltaMs: int, config: GameConfig)
    requires StartsWave(s) && 0 <= s.stageIndex < |config.stages| && s.waveIndex >= 0 && !WavesExhausted(s, config)
    ensures Continued(Opened(s, config), deltaMs, config).state.freeRerollLeft
      == s.freeRerollLeft + WAVE_START_FREE_REROLL_BONUS + s.waveStartFreeRerollBonus
    ensures Continued(Opened(s, config), deltaMs, config).events[0] == WaveStarted(s.waveIndex)
  {
    var started := Opened(s, config);
    assert started.events == [WaveStarted(s.waveIndex)];
    ContinuedKeepsStart(started, deltaMs, config);
  }

  /**
   * The first tick of a new run on a stage with at least one wave opens
   * wave 0 and grants exactly the wave-start free reroll.
   */
  lemma FirstTickGrantsFreeReroll(config: GameConfig, stageIndex: int, seed: Long, deltaMs: int)
    requires 0 <= stageIndex < |config.stages| && |config.stages[stageIndex].waves| > 0
    ensures TickSafe(NewRun(config, stageIndex, seed), deltaMs, config) && Running(NewRun(config, stageIndex, seed))
    ensures HandleUpgradeTimeout(NewRun(config, stageIndex, seed).(timeMs := deltaMs), config)
      == NewRun(config, stageIndex, seed).(timeMs := deltaMs)
    ensures Continued(Opened(NewRun(config, stageIndex, seed).(timeMs := deltaMs), config), deltaMs, config).state.freeRerollLeft
      == WAVE_START_FREE_REROLL_BONUS
    ensures Continued(Opened(NewRun(config, stageIndex, seed).(timeMs := deltaMs), config), deltaMs, config).events[0]
      == WaveStarted(0)
  {
    var s := NewRun(config, stageIndex, seed).(timeMs := deltaMs);
    WaveStartTick(s, deltaMs, config);
  }

  /** The rest of a tick keeps the free rerolls and follows the wave-start events. */
  lemma ContinuedKeepsStart(started: TickResult, deltaMs: int, config: GameConfig)
    requires started.state.phase != Ended
    ensures Continued(started, deltaMs, config).state.freeRerollLeft == started.state.freeRerollLeft
    ensures |Continued(started, deltaMs, config).events| >= |started.events|
    ensures Continued(started, deltaMs, config).events[..|started.events|] == started.events
  {
    ProceededSpec(started.state, deltaMs, config);
    var rest := Proceeded(started.state, deltaMs, config);
    assert (started.events + rest.events)[..|started.events|] == started.events;
  }
}
