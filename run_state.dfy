/**
 * The snapshot of one run (RunState in CoreModels.kt) with every field the
 * engine and the upgrade logic read and write, and the pending upgrade offer.
 */
module RunModel {
  import opened Wrappers
  import opened Core
  import opened Boards
  import opened Shop
  import opened Lane
  import opened Config

  /** A timed choice of upgrades offered after cleared wave number `waveIndex`. */
  datatype UpgradeOffer = UpgradeOffer(waveIndex: int, options: seq<UpgradeDef>, deadlineTimeMs: int)

  datatype RunState = RunState(
    stageIndex: int,
    waveIndex: int,
    phase: Phase,
    baseHp: int,
    coins: int,
    freeRerollLeft: int,
    board: Board,
    shop: ShopState,
    lane: LaneState,
    atkMul: real,
    aspdMul: real,
    rerollCostDelta: int,
    waveStartFreeRerollBonus: int,
    offeredUpgrade: Option<UpgradeOffer>,
    transformUsed: bool,
    end: Option<RunEnd>,
    appliedUpgradeCount: map<string, int>,
    timeMs: int,
    rng: RngState)
}
