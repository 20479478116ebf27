/**
 * Combat resolution of the game engine (GameEngine.kt): enemy movement with
 * the sub-tile remainder carried over, and unit attacks in board order.
 */
module Combat {
  import opened Wrappers
  import opened Core
  import opened Boards
  import opened Lane
  import opened Config

  /** Informational events reported by a tick. */
  datatype DomainEvent =
    | WaveStarted(waveIndex: int)
    | WaveEnded(waveIndex: int)
    | BaseDamaged(amount: int)
    | EnemySpawned(enemyId: string)
    | EnemyKilled(enemyId: string)

  /** `enemySpeedMsPerTile`: milliseconds per tile by enemy type; unknown types move like "normal". */
  function EnemySpeedMsPerTile(enemyId: string): (r: int)
    ensures r > 0
    ensures enemyId !in {"fast", "tank", "boss"} ==> r == NORMAL_SPEED_MS_PER_TILE
  {
    match enemyId
    case "normal" => NORMAL_SPEED_MS_PER_TILE
    case "fast" => FAST_SPEED_MS_PER_TILE
    case "tank" => TANK_SPEED_MS_PER_TILE
    case "boss" => BOSS_SPEED_MS_PER_TILE
    case _ => NORMAL_SPEED_MS_PER_TILE
  }

  /** Kotlin's `/` on `Long`: the quotient truncated toward zero. */
  function TruncDiv(a: int, b: int): int
    requires b > 0
  {
    if a >= 0 then a / b else -((-a) / b)
  }

  /** Kotlin's `%` on `Long`: the remainder takes the sign of the dividend. */
  function TruncRem(a: int, b: int): (r: int)
    requires b > 0
    ensures a == b * TruncDiv(a, b) + r
    ensures a >= 0 ==> 0 <= r < b
  {
    if a >= 0 then a % b else -((-a) % b)
  }

  /** The enemy after `deltaMs` more milliseconds of walking: whole tiles advanced, remainder carried. */
  function Walked(e: EnemyInstance, deltaMs: int): EnemyInstance
  {
    var speed := EnemySpeedMsPerTile(e.id);
    var totalProgress := e.progressMs + deltaMs;
    e.(tile := e.tile + TruncDiv(totalProgress, speed), progressMs := TruncRem(totalProgress, speed))
  }

  /** Whether the enemy reaches the base (the end of a lane of `length` tiles) this tick. */
  predicate ReachesBase(e: EnemyInstance, deltaMs: int, length: int)
  {
    Walked(e, deltaMs).tile >= length
  }

  /** The damage an enemy reaching the base deals: its definition's `baseDamage`, or 1 when unknown. */
  function ArrivalDamage(enemyDefs: seq<EnemyDef>, id: string): int
  {
    match FindEnemyDef(enemyDefs, id)
    case Some(d) => d.baseDamage
    case None => 1
  }

  /** The enemies still on the lane after walking, moved, in their original order. */
  function Survivors(enemies: seq<EnemyInstance>, deltaMs: int, length: int): seq<EnemyInstance>
  {
    if enemies == [] then []
    else
      var last := enemies[|enemies| - 1];
      Survivors(enemies[..|enemies| - 1], deltaMs, length) +
        (if ReachesBase(last, deltaMs, length) then [] else [Walked(last, deltaMs)])
  }

  /** The total damage dealt to the base by the enemies that reach it. */
  function DamageTaken(enemies: seq<EnemyInstance>, deltaMs: int, length: int, enemyDefs: seq<EnemyDef>): int
  {
    if enemies == [] then 0
    else
      var last := enemies[|enemies| - 1];
      DamageTaken(enemies[..|enemies| - 1], deltaMs, length, enemyDefs) +
        (if ReachesBase(last, deltaMs, length) then ArrivalDamage(enemyDefs, last.id) else 0)
  }

  /** One `BaseDamaged` event per enemy reaching the base, carrying its damage, in lane order. */
  function ArrivalEvents(enemies: seq<EnemyInstance>, deltaMs: int, length: int, enemyDefs: seq<EnemyDef>): seq<DomainEvent>
  {
    if enemies == [] then []
    else
      var last := enemies[|enemies| - 1];
      ArrivalEvents(enemies[..|enemies| - 1], deltaMs, length, enemyDefs) +
        (if ReachesBase(last, deltaMs, length) then [BaseDamaged(ArrivalDamage(enemyDefs, last.id))] else [])
  }

  /** The damage a run of events reports to the base. */
  function Reported(events: seq<DomainEvent>): int
  {
    if events == [] then 0
    else
      Reported(events[..|events| - 1]) +
        (match events[|events| - 1] case BaseDamaged(amount) => amount case _ => 0)
  }

  /**
   * Every walker either survives or reports exactly one arrival, and the
   * reported damage is the damage the base takes.
   */
  lemma {:induction false} ArrivalsAccounted(enemies: seq<EnemyInstance>, deltaMs: int, length: int, enemyDefs: seq<EnemyDef>)
    ensures |Survivors(enemies, deltaMs, length)| + |ArrivalEvents(enemies, deltaMs, length, enemyDefs)| == |enemies|
    ensures forall e :: e in ArrivalEvents(enemies, deltaMs, length, enemyDefs) ==> e.BaseDamaged?
    ensures Reported(ArrivalEvents(enemies, deltaMs, length, enemyDefs)) == DamageTaken(enemies, deltaMs, length, enemyDefs)
  {
    if enemies != [] {
      var front := enemies[..|enemies| - 1];
      ArrivalsAccounted(front, deltaMs, length, enemyDefs);
      var last := enemies[|enemies| - 1];
      var events := ArrivalEvents(enemies, deltaMs, length, enemyDefs);
      if ReachesBase(last, deltaMs, length) {
        assert events[..|events| - 1] == ArrivalEvents(front, deltaMs, length, enemyDefs);
        assert events[|events| - 1] == BaseDamaged(ArrivalDamage(enemyDefs, last.id));
      } else {
        assert events == ArrivalEvents(front, deltaMs, length, enemyDefs);
      }
    }
  }

  /** Where an enemy stands, whatever its hit points. */
  function Placement(e: EnemyInstance): (string, int, int)
  {
    (e.id, e.tile, e.progressMs)
  }

  function Placements(enemies: seq<EnemyInstance>): set<(string, int, int)>
  {
    set e | e in enemies :: Placement(e)
  }

  /**
   * Every enemy is inside the lane, and its carried progress is less than
   * one tile's worth of time.
   */
  ghost predicate InLane(places: set<(string, int, int)>, length: int)
  {
    forall p :: p in places ==> p.1 < length && 0 <= p.2 < EnemySpeedMsPerTile(p.0)
  }

  /**
   * Survivors are inside the lane, and when no progress is negative their
   * carried progress is below one tile's time; there are never more
   * survivors than walkers.
   */
  lemma {:induction false} SurvivorsInLane(enemies: seq<EnemyInstance>, deltaMs: int, length: int)
    requires forall e :: e in enemies ==> e.progressMs + deltaMs >= 0
    ensures |Survivors(enemies, deltaMs, length)| <= |enemies|
    ensures InLane(Placements(Survivors(enemies, deltaMs, length)), length)
  {
    if enemies != [] {
      var front := enemies[..|enemies| - 1];
      assert forall e :: e in front ==> e in enemies;
      SurvivorsInLane(front, deltaMs, length);
    }
  }

  /** With no negative base damage in the table, the base never gains hit points from arrivals. */
  lemma {:induction false} DamageTakenNonNegative(enemies: seq<EnemyInstance>, deltaMs: int, length: int, enemyDefs: seq<EnemyDef>)
    requires forall d :: d in enemyDefs ==> d.baseDamage >= 0
    ensures DamageTaken(enemies, deltaMs, length, enemyDefs) >= 0
  {
    if enemies != [] {
      DamageTakenNonNegative(enemies[..|enemies| - 1], deltaMs, length, enemyDefs);
    }
  }

  /**
   * The `flatMap` over the lane in `tickCombat`: each enemy walks; those
   * reaching the base are removed and their damage summed.
   */
  method MoveEnemies(enemies: seq<EnemyInstance>, deltaMs: int, length: int, enemyDefs: seq<EnemyDef>)
    returns (moved: seq<EnemyInstance>, baseDamageTaken: int, events: seq<DomainEvent>)
    ensures moved == Survivors(enemies, deltaMs, length)
    ensures baseDamageTaken == DamageTaken(enemies, deltaMs, length, enemyDefs)
    ensures events == ArrivalEvents(enemies, deltaMs, length, enemyDefs)
  {
    moved, baseDamageTaken, events := [], 0, [];
    for i := 0 to |enemies|
      invariant moved == Survivors(enemies[..i], deltaMs, length)
      invariant baseDamageTaken == DamageTaken(enemies[..i], deltaMs, length, enemyDefs)
      invariant events == ArrivalEvents(enemies[..i], deltaMs, length, enemyDefs)
    {
      var enemy := enemies[i];
      var speed := EnemySpeedMsPerTile(enemy.id);
      var totalProgress := enemy.progressMs + deltaMs;
      var tileAdvance := TruncDiv(totalProgress, speed);
      var remainder := TruncRem(totalProgress, speed);
      var nextTile := enemy.tile + tileAdvance;
      assert Walked(enemy, deltaMs) == enemy.(tile := nextTile, progressMs := remainder);
      ghost var prefix := enemies[..i + 1];
      assert prefix[..|prefix| - 1] == enemies[..i] && prefix[|prefix| - 1] == enemy;
      if nextTile >= length {
        var dmg := ArrivalDamage(enemyDefs, enemy.id);
        baseDamageTaken := baseDamageTaken + dmg;
        events := events + [BaseDamaged(dmg)];
      } else {
        moved := moved + [enemy.(tile := nextTile, progressMs := remainder)];
      }
    }
    assert enemies[..|enemies|] == enemies;
  }

  /**
   * `indices.maxByOrNull { enemies[it].tile }`: the index of the enemy
   * furthest along the lane, the first one on a tie.
   */
  function FirstMaxTileIndex(enemies: seq<EnemyInstance>): (r: nat)
    requires |enemies| > 0
    ensures r < |enemies|
    ensures forall j :: 0 <= j < |enemies| ==> enemies[j].tile <= enemies[r].tile
    ensures forall j :: 0 <= j < r ==> enemies[j].tile < enemies[r].tile
  {
    if |enemies| == 1 then 0
    else
      var k := FirstMaxTileIndex(enemies[..|enemies| - 1]);
      if enemies[|enemies| - 1].tile > enemies[k].tile then |enemies| - 1 else k
  }

  function BaseDamage(role: string): int
  {
    match role
    case "SHOOTER" => SHOOTER_DMG
    case "SPLASH" => SPLASH_DMG
    case "SLOW" => SLOW_DMG
    case _ => 0
  }

  /**
   * `unitDamage`: the role's base damage scaled by the attack multiplier,
   * truncated to an `Int` (saturating) and at least 1 — so even a role with
   * no base damage deals 1.
   */
  function UnitDamage(role: string, atkMul: real): (r: int)
    ensures 1 <= r <= INT_MAX
    ensures var x := BaseDamage(role) as real * atkMul;
      (1.0 <= x < (INT_MAX + 1) as real ==> r as real <= x < r as real + 1.0)
      && (x < 1.0 ==> r == 1)
  {
    var t := Truncate(BaseDamage(role) as real * atkMul);
    var saturated := if t > INT_MAX then INT_MAX else t;
    if saturated < 1 then 1 else saturated
  }

  function BaseCooldown(role: string): int
  {
    match role
    case "SHOOTER" => SHOOTER_CD_MS
    case "SPLASH" => SPLASH_CD_MS
    case "SLOW" => SLOW_CD_MS
    case _ => LONG_MAX
  }

  /**
   * `unitCooldown`: the role's base cooldown divided by the attack-speed
   * multiplier, truncated to a `Long` (saturating) and at least 1 ms. A zero
   * multiplier divides to infinity, which saturates.
   */
  function UnitCooldown(role: string, aspdMul: real): (r: int)
    ensures 1 <= r <= LONG_MAX
    ensures aspdMul > 0.0 ==> var x := BaseCooldown(role) as real / aspdMul;
      (1.0 <= x < TWO_63 as real ==> r as real <= x < r as real + 1.0)
      && (x < 1.0 ==> r == 1)
  {
    if aspdMul == 0.0 then LONG_MAX
    else
      var t := Truncate(BaseCooldown(role) as real / aspdMul);
      var saturated := if t > LONG_MAX then LONG_MAX else t;
      if saturated < 1 then 1 else saturated
  }

  /** A hit changes hit points only: the enemies stand where they stood. */
  lemma PlacementsAfterHit(enemies: seq<EnemyInstance>, t: nat, hp: int)
    requires t < |enemies|
    ensures Placements(enemies[t := enemies[t].(hp := hp)]) == Placements(enemies)
  {
    var hit := enemies[t := enemies[t].(hp := hp)];
    forall p | p in Placements(hit) ensures p in Placements(enemies) {
      var k :| 0 <= k < |hit| && p == Placement(hit[k]);
      assert Placement(enemies[k]) == p;
    }
    forall p | p in Placements(enemies) ensures p in Placements(hit) {
      var k :| 0 <= k < |enemies| && p == Placement(enemies[k]);
      assert Placement(hit[k]) == p;
    }
  }

  /** What one unit's turn produces: the unit with its new cooldown, the enemies, and the kill if any. */
  datatype StepOutcome = StepOutcome(unit: UnitInstance, enemies: seq<EnemyInstance>, killed: Option<string>)

  /** Whether a unit fires this turn: not a wall, cooldown elapsed, and an enemy in the lane. */
  predicate Fires(unit: UnitInstance, enemies: seq<EnemyInstance>, deltaMs: int)
  {
    unit.role != "WALL" && unit.cooldownMs - deltaMs <= 0 && |enemies| > 0
  }

  /**
   * One iteration of `applyUnitAttacks`. A wall only cools down. Another unit
   * whose cooldown has run out hits the first enemy furthest along the lane
   * for at least 1 damage, removing it if its hit points drop to 0 or below,
   * and restarts its cooldown; otherwise it just cools down (not below 0).
   */
  function AttackStep(unit: UnitInstance, enemies: seq<EnemyInstance>, deltaMs: int, atkMul: real, aspdMul: real)
    : (r: StepOutcome)
    ensures r.unit == unit.(cooldownMs := r.unit.cooldownMs) && r.unit.cooldownMs >= 0
    ensures !Fires(unit, enemies, deltaMs) ==>
      r.enemies == enemies && r.killed.None? &&
      r.unit.cooldownMs == (if unit.cooldownMs - deltaMs < 0 then 0 else unit.cooldownMs - deltaMs)
    ensures Fires(unit, enemies, deltaMs) ==>
      var t := FirstMaxTileIndex(enemies);
      var hp := enemies[t].hp - UnitDamage(unit.role, atkMul);
      && r.unit.cooldownMs == UnitCooldown(unit.role, aspdMul)
      && (hp <= 0 ==> r.enemies == enemies[..t] + enemies[t + 1..] && r.killed == Some(enemies[t].id))
      && (hp > 0 ==> r.enemies == enemies[t := enemies[t].(hp := hp)] && r.killed.None?)
    ensures |r.enemies| <= |enemies|
    ensures Placements(r.enemies) <= Placements(enemies)
  {
    var reducedCd := unit.cooldownMs - deltaMs;
    var cooled := unit.(cooldownMs := if reducedCd < 0 then 0 else reducedCd);
    if unit.role == "WALL" then StepOutcome(cooled, enemies, None)
    else if reducedCd <= 0 && |enemies| > 0 then
      var targetIndex := FirstMaxTileIndex(enemies);
      var target := enemies[targetIndex];
      var nextHp := target.hp - UnitDamage(unit.role, atkMul);
      var fired := unit.(cooldownMs := UnitCooldown(unit.role, aspdMul));
      if nextHp <= 0 then
        var rest := enemies[..targetIndex] + enemies[targetIndex + 1..];
        assert forall e :: e in rest ==> e in enemies;
        StepOutcome(fired, rest, Some(target.id))
      else
        PlacementsAfterHit(enemies, targetIndex, nextHp);
        StepOutcome(fired, enemies[targetIndex := target.(hp := nextHp)], None)
    else StepOutcome(cooled, enemies, None)
  }

  /** One `EnemyKilled` event per kill, in order. */
  function KillEvents(kills: seq<string>): (r: seq<DomainEvent>)
    ensures |r| == |kills|
    ensures forall i :: 0 <= i < |kills| ==> r[i] == EnemyKilled(kills[i])
  {
    if kills == [] then [] else KillEvents(kills[..|kills| - 1]) + [EnemyKilled(kills[|kills| - 1])]
  }

  /** What the whole attack pass produces. */
  datatype AttackOutcome = AttackOutcome(units: seq<UnitInstance>, enemies: seq<EnemyInstance>, kills: seq<string>)

  /** The units take their turns in order, each against the enemies the previous ones left. */
  function Attacks(units: seq<UnitInstance>, enemies: seq<EnemyInstance>, deltaMs: int, atkMul: real, aspdMul: real)
    : AttackOutcome
  {
    if units == [] then AttackOutcome([], enemies, [])
    else
      var before := Attacks(units[..|units| - 1], enemies, deltaMs, atkMul, aspdMul);
      var step := AttackStep(units[|units| - 1], before.enemies, deltaMs, atkMul, aspdMul);
      AttackOutcome(
        before.units + [step.unit],
        step.enemies,
        before.kills + (if step.killed.Some? then [step.killed.value] else []))
  }

  /**
   * The attack pass keeps every unit (only its cooldown changes, never below
   * 0), never adds an enemy, and moves none: every remaining enemy stands
   * where some enemy stood before.
   */
  lemma {:induction false} AttacksSpec(units: seq<UnitInstance>, enemies: seq<EnemyInstance>, deltaMs: int, atkMul: real, aspdMul: real)
    ensures var out := Attacks(units, enemies, deltaMs, atkMul, aspdMul);
      && |out.units| == |units|
      && (forall i :: 0 <= i < |units| ==>
            out.units[i] == units[i].(cooldownMs := out.units[i].cooldownMs) && out.units[i].cooldownMs >= 0)
      && |out.enemies| <= |enemies|
      && Placements(out.enemies) <= Placements(enemies)
  {
    if units != [] {
      AttacksSpec(units[..|units| - 1], enemies, deltaMs, atkMul, aspdMul);
    }
  }

  /** A wall-only board leaves every enemy untouched. */
  lemma {:induction false} WallsNeverDamage(units: seq<UnitInstance>, enemies: seq<EnemyInstance>, deltaMs: int, atkMul: real, aspdMul: real)
    requires forall u :: u in units ==> u.role == "WALL"
    ensures Attacks(units, enemies, deltaMs, atkMul, aspdMul).enemies == enemies
    ensures Attacks(units, enemies, deltaMs, atkMul, aspdMul).kills == []
  {
    if units != [] {
      assert forall u :: u in units[..|units| - 1] ==> u in units;
      WallsNeverDamage(units[..|units| - 1], enemies, deltaMs, atkMul, aspdMul);
    }
  }

  /**
   * `applyUnitAttacks`: every unit on the board, in row-major order, takes
   * its turn; the units are written back into their cells.
   */
  method ApplyUnitAttacks(board: Board, enemies: seq<EnemyInstance>, deltaMs: int, atkMul: real, aspdMul: real)
    returns (newBoard: Board, newEnemies: seq<EnemyInstance>, events: seq<DomainEvent>)
    ensures var out := Attacks(AllUnits(board), enemies, deltaMs, atkMul, aspdMul);
      && newEnemies == out.enemies
      && |newBoard.cells| == |board.cells|
      && (forall i :: 0 <= i < |board.cells| ==> newBoard.cells[i] == UpdatedCell(board.cells, out.units, i))
      && newBoard == UpdatedBoard(board, out.units)
      && events == KillEvents(out.kills)
    ensures newBoard.rows == board.rows && newBoard.cols == board.cols
    ensures forall i :: 0 <= i < |board.cells| ==> (newBoard.cells[i].None? <==> board.cells[i].None?)
    ensures forall i :: 0 <= i < |board.cells| && board.cells[i].Some? ==>
      newBoard.cells[i].value == board.cells[i].value.(cooldownMs := newBoard.cells[i].value.cooldownMs)
      && newBoard.cells[i].value.cooldownMs >= 0
    ensures |newEnemies| <= |enemies|
    ensures Placements(newEnemies) <= Placements(enemies)
  {
    var updatedUnits;
    updatedUnits, newEnemies, events := TakeTurns(AllUnits(board), enemies, deltaMs, atkMul, aspdMul);
    AttacksSpec(AllUnits(board), enemies, deltaMs, atkMul, aspdMul);
    newBoard := WithUpdatedUnits(board, updatedUnits);
    forall i | 0 <= i < |board.cells| && board.cells[i].Some?
      ensures newBoard.cells[i].value == board.cells[i].value.(cooldownMs := newBoard.cells[i].value.cooldownMs)
      ensures newBoard.cells[i].value.cooldownMs >= 0
    {
      UpdatedCellKeepsUnit(board, updatedUnits, i);
    }
  }

  /** The loop of `applyUnitAttacks`: each unit in turn, against what the previous turns left. */
  method TakeTurns(units: seq<UnitInstance>, enemies: seq<EnemyInstance>, deltaMs: int, atkMul: real, aspdMul: real)
    returns (updatedUnits: seq<UnitInstance>, remaining: seq<EnemyInstance>, events: seq<DomainEvent>)
    ensures updatedUnits == Attacks(units, enemies, deltaMs, atkMul, aspdMul).units
    ensures remaining == Attacks(units, enemies, deltaMs, atkMul, aspdMul).enemies
    ensures events == KillEvents(Attacks(units, enemies, deltaMs, atkMul, aspdMul).kills)
  {
    remaining := enemies;
    updatedUnits := [];
    ghost var kills: seq<string> := [];
    events := [];
    for i := 0 to |units|
      invariant Attacks(units[..i], enemies, deltaMs, atkMul, aspdMul) == AttackOutcome(updatedUnits, remaining, kills)
      invariant events == KillEvents(kills)
    {
      assert units[..i + 1][..i] == units[..i];
      var step := AttackStep(units[i], remaining, deltaMs, atkMul, aspdMul);
      if step.killed.Some? {
        events := events + [EnemyKilled(step.killed.value)];
        kills := kills + [step.killed.value];
      }
      updatedUnits := updatedUnits + [step.unit];
      remaining := step.enemies;
    }
    assert units[..|units|] == units;
  }

  /** Writing back units that differ from the board's own only in cooldown keeps each cell's unit. */
  lemma UpdatedCellKeepsUnit(board: Board, updated: seq<UnitInstance>, i: nat)
    requires |updated| == |AllUnits(board)|
    requires forall k :: 0 <= k < |updated| ==>
      updated[k] == AllUnits(board)[k].(cooldownMs := updated[k].cooldownMs) && updated[k].cooldownMs >= 0
    requires i < |board.cells| && board.cells[i].Some?
    ensures UpdatedCell(board.cells, updated, i).Some?
    ensures var u := UpdatedCell(board.cells, updated, i).value;
      u == board.cells[i].value.(cooldownMs := u.cooldownMs) && u.cooldownMs >= 0
  {
    AllUnitsAt(board.cells, i);
  }
}
