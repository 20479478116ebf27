/**
 * The immutable configuration tables the engine is built with (GameModels.kt),
 * with the fields the core reads: the upgrade effect fields and the upgrade
 * rules come from the configuration loader's data transfer objects.
 */
module Config {
  import opened Wrappers
  import opened Collections

  datatype GameConfig = GameConfig(
    stages: seq<StageConfig>,
    unitDefs: seq<UnitDef>,
    enemyDefs: seq<EnemyDef>,
    upgrades: seq<UpgradeDef>,
    laneTiles: int,
    shopConfig: ShopConfig,
    upgradeRules: UpgradeRules)

  datatype StageConfig = StageConfig(stage: int, hpMul: real, spdMul: real, countAdd: int, waves: seq<WaveConfig>)

  /** Per-type enemy counts of one wave. */
  datatype WaveConfig = WaveConfig(normal: int, fast: int, tank: int, boss: int)

  datatype UnitDef = UnitDef(id: string, role: string, baseAtk: int, atkSpd: real, range: real, baseHp: Option<int>)

  datatype EnemyDef = EnemyDef(id: string, hp: int, speed: real, baseDamage: int, reward: int)

  /** An upgrade; absent effects are `None` and count as the neutral value. */
  datatype UpgradeDef = UpgradeDef(
    id: string,
    kind: string,
    name: string,
    atkMul: Option<real>,
    aspdMul: Option<real>,
    rerollCostDelta: Option<int>,
    waveStartFreeRerollBonus: Option<int>,
    maxApplications: Option<int>,
    targetRole: Option<string>)

  datatype ShopConfig = ShopConfig(
    slots: int,
    buyCost: int,
    rerollCost: int,
    sellRefund: int,
    refillMs: int,
    spawnWeights: map<string, real>)

  datatype UpgradeRules = UpgradeRules(
    offerAfterWaves: seq<int>,
    timeoutSec: int,
    maxTransformPerRun: int,
    autoPickTypeOnTimeout: string)

  const TRANSFORM: string := "TRANSFORM"

  /** The first unit definition with this id, if any (`firstOrNull { it.id == id }`). */
  function FindUnitDef(unitDefs: seq<UnitDef>, id: string): (r: Option<UnitDef>)
    ensures r.Some? ==> r.value in unitDefs && r.value.id == id
    ensures r.Some? ==> exists i :: 0 <= i < |unitDefs| && unitDefs[i] == r.value && forall j :: 0 <= j < i ==> unitDefs[j].id != id
    ensures r.None? <==> forall d :: d in unitDefs ==> d.id != id
  {
    FirstOrNull(unitDefs, (d: UnitDef) => d.id == id)
  }

  /** The first enemy definition with this id, if any. */
  function FindEnemyDef(enemyDefs: seq<EnemyDef>, id: string): (r: Option<EnemyDef>)
    ensures r.Some? ==> r.value in enemyDefs && r.value.id == id
    ensures r.Some? ==> exists i :: 0 <= i < |enemyDefs| && enemyDefs[i] == r.value && forall j :: 0 <= j < i ==> enemyDefs[j].id != id
    ensures r.None? <==> forall d :: d in enemyDefs ==> d.id != id
  {
    FirstOrNull(enemyDefs, (d: EnemyDef) => d.id == id)
  }
}
