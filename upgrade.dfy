/** Applying a chosen upgrade to a run (UpgradeLogic.kt). */
module Upgrades {
  import opened Wrappers
  import opened Core
  import opened Boards
  import opened Config
  import opened RunModel

  /** How many times upgrade `id` has been applied; an absent key counts as 0. */
  function AppliedCount(counts: map<string, int>, id: string): int
  {
    if id in counts then counts[id] else 0
  }

  /** The role a TRANSFORM targeting `target` turns units into, if the target is one it knows. */
  function TransformedRole(target: string): (r: Option<string>)
    ensures r.Some? <==> target == "WALL" || target == "SLOW"
    ensures r.Some? ==> r.value != target
  {
    if target == "WALL" then Some("SHOOTER")
    else if target == "SLOW" then Some("SPLASH")
    else None
  }

  /** Every unit of role `target` retagged to `role`; everything else as it was. */
  function Retag(cells: seq<Cell>, target: string, role: string): (r: seq<Cell>)
    ensures |r| == |cells|
  {
    seq(|cells|, i requires 0 <= i < |cells| =>
      if cells[i].Some? && cells[i].value.role == target then Some(cells[i].value.(role := role)) else cells[i])
  }

  /** The board after a TRANSFORM upgrade with this target, if any, has been applied. */
  function TransformBoard(board: Board, upgrade: UpgradeDef): Board
  {
    if upgrade.kind != TRANSFORM || upgrade.targetRole.None? then board
    else match TransformedRole(upgrade.targetRole.value)
      case None => board
      case Some(role) => board.(cells := Retag(board.cells, upgrade.targetRole.value, role))
  }

  /**
   * `applyUpgrade`: a TRANSFORM when the run's one transform is spent only
   * clears the offer. Otherwise the multipliers and deltas accumulate, the
   * per-upgrade counter rises, the offer is cleared, and a TRANSFORM retags
   * the units of its target role.
   */
  function ApplyUpgrade(state: RunState, upgrade: UpgradeDef): (r: RunState)
    // A spent transform: nothing but the offer changes.
    ensures upgrade.kind == TRANSFORM && state.transformUsed ==> r == state.(offeredUpgrade := None)
    // Otherwise the effects accumulate.
    ensures !(upgrade.kind == TRANSFORM && state.transformUsed) ==>
      && r.offeredUpgrade.None?
      && r.atkMul == state.atkMul * OrElse(upgrade.atkMul, 1.0)
      && r.aspdMul == state.aspdMul * OrElse(upgrade.aspdMul, 1.0)
      && r.rerollCostDelta == state.rerollCostDelta + OrElse(upgrade.rerollCostDelta, 0)
      && r.waveStartFreeRerollBonus == state.waveStartFreeRerollBonus + OrElse(upgrade.waveStartFreeRerollBonus, 0)
      && r.transformUsed == (state.transformUsed || upgrade.kind == TRANSFORM)
      && AppliedCount(r.appliedUpgradeCount, upgrade.id) == AppliedCount(state.appliedUpgradeCount, upgrade.id) + 1
      && r.appliedUpgradeCount.Keys == state.appliedUpgradeCount.Keys + {upgrade.id}
      && (forall id :: id in state.appliedUpgradeCount && id != upgrade.id ==>
            r.appliedUpgradeCount[id] == state.appliedUpgradeCount[id])
      && r.board == TransformBoard(state.board, upgrade)
    // The once-per-run flag is never cleared.
    ensures state.transformUsed ==> r.transformUsed
    // Everything outside the upgrade's reach is untouched.
    ensures r.(atkMul := state.atkMul, aspdMul := state.aspdMul, rerollCostDelta := state.rerollCostDelta,
               waveStartFreeRerollBonus := state.waveStartFreeRerollBonus, transformUsed := state.transformUsed,
               offeredUpgrade := state.offeredUpgrade, appliedUpgradeCount := state.appliedUpgradeCount,
               board := state.board) == state
  {
    if upgrade.kind == TRANSFORM && state.transformUsed then state.(offeredUpgrade := None)
    else
      var next := state.(
        atkMul := state.atkMul * OrElse(upgrade.atkMul, 1.0),
        aspdMul := state.aspdMul * OrElse(upgrade.aspdMul, 1.0),
        rerollCostDelta := state.rerollCostDelta + OrElse(upgrade.rerollCostDelta, 0),
        waveStartFreeRerollBonus := state.waveStartFreeRerollBonus + OrElse(upgrade.waveStartFreeRerollBonus, 0),
        transformUsed := state.transformUsed || upgrade.kind == TRANSFORM,
        offeredUpgrade := None,
        appliedUpgradeCount :=
          state.appliedUpgradeCount[upgrade.id := AppliedCount(state.appliedUpgradeCount, upgrade.id) + 1]);
      next.(board := TransformBoard(next.board, upgrade))
  }

  /**
   * What a TRANSFORM does to the board: units of the target role take the
   * mapped role and keep id, level and cooldown; no unit of the target role
   * is left; other cells and the occupancy are unchanged. Any other upgrade,
   * or a target without a mapping, leaves the board alone.
   */
  lemma TransformBoardEffect(board: Board, upgrade: UpgradeDef)
    ensures var b := TransformBoard(board, upgrade);
      && b.rows == board.rows && b.cols == board.cols && |b.cells| == |board.cells|
      && (forall i :: 0 <= i < |board.cells| ==> (b.cells[i].None? <==> board.cells[i].None?))
      && OccupiedCount(b.cells) == OccupiedCount(board.cells)
      && ((upgrade.kind != TRANSFORM || upgrade.targetRole.None? ||
           TransformedRole(upgrade.targetRole.value).None?) ==> b == board)
      && (upgrade.kind == TRANSFORM && upgrade.targetRole.Some? &&
          TransformedRole(upgrade.targetRole.value).Some? ==>
            forall i :: 0 <= i < |board.cells| && board.cells[i].Some? ==>
              var u := board.cells[i].value;
              var v := b.cells[i].value;
              && v.id == u.id && v.level == u.level && v.cooldownMs == u.cooldownMs
              && v.role != upgrade.targetRole.value
              && v.role == (if u.role == upgrade.targetRole.value
                            then TransformedRole(upgrade.targetRole.value).value else u.role))
  {
    var b := TransformBoard(board, upgrade);
    SameOccupancySameCount(b.cells, board.cells);
  }

  /** The transform is once per run: after one has been applied, any further TRANSFORM changes nothing. */
  lemma TransformAtMostOnce(state: RunState, first: UpgradeDef, second: UpgradeDef)
    requires first.kind == TRANSFORM && second.kind == TRANSFORM
    ensures var once := ApplyUpgrade(state, first);
      once.transformUsed && ApplyUpgrade(once, second) == once
  {
  }
}
