/**
 * The player's intents — buy, reroll, sell, merge — validated against a run
 * and applied to it (RunReducer.kt). A failed intent yields only a message.
 */
module Reducer {
  import opened Wrappers
  import opened Collections
  import opened Core
  import opened Boards
  import opened Shop
  import opened Config
  import opened RunModel

  datatype RunIntent =
    | BuyFromShop(slotIndex: int)
    | RerollShop
    | SellAt(cellIndex: int)
    | Merge(fromCellIndex: int, toCellIndex: int)

  /** `nextUnitId`: a fresh unit id from one draw, and the advanced generator. */
  function NextUnitId(state: RunState): (r: (string, RngState))
    ensures r.1 == NextLong(state.rng).1
  {
    var (value, rng) := NextLong(state.rng);
    (NewUnitId(value), rng)
  }

  /** `true` when every intent only ever touches the shop, board, coins, free rerolls and generator. */
  ghost predicate OnlyEconomyChanged(before: RunState, after: RunState)
  {
    after.(coins := before.coins, freeRerollLeft := before.freeRerollLeft, board := before.board,
           shop := before.shop, rng := before.rng) == before
  }

  /**
   * `buyFromShop`: checks, in this order, the slot index, the coins, that the
   * slot holds a unit, that its definition exists and that the board has room;
   * then pays, places a level-1 unit of the definition's role in the first
   * empty cell and empties the slot.
   */
  function Buy(state: RunState, slotIndex: int, unitDefs: seq<UnitDef>): (r: Result<RunState>)
    ensures !(0 <= slotIndex < |state.shop.slots|) ==> r == Failure("Invalid shop slot")
    ensures 0 <= slotIndex < |state.shop.slots| && state.coins < BUY_COST ==> r == Failure("Not enough coins")
    ensures (0 <= slotIndex < |state.shop.slots| && state.coins >= BUY_COST &&
             state.shop.slots[slotIndex].unitId.None?) ==> r == Failure("Selected slot is empty")
    ensures (0 <= slotIndex < |state.shop.slots| && state.coins >= BUY_COST &&
             state.shop.slots[slotIndex].unitId.Some? &&
             FindUnitDef(unitDefs, state.shop.slots[slotIndex].unitId.value).None?) ==>
              r == Failure("Unit definition missing")
    ensures (0 <= slotIndex < |state.shop.slots| && state.coins >= BUY_COST &&
             state.shop.slots[slotIndex].unitId.Some? &&
             FindUnitDef(unitDefs, state.shop.slots[slotIndex].unitId.value).Some? &&
             (forall i :: 0 <= i < |state.board.cells| ==> state.board.cells[i].Some?)) ==>
              r == Failure("Board is full")
    // It succeeds exactly when every check passes.
    ensures r.Success? <==>
      && 0 <= slotIndex < |state.shop.slots| && state.coins >= BUY_COST
      && state.shop.slots[slotIndex].unitId.Some?
      && FindUnitDef(unitDefs, state.shop.slots[slotIndex].unitId.value).Some?
      && (exists i :: 0 <= i < |state.board.cells| && state.board.cells[i].None?)
    ensures r.Success? ==>
      var next := r.value;
      var def := FindUnitDef(unitDefs, state.shop.slots[slotIndex].unitId.value).value;
      && next.coins == state.coins - BUY_COST
      && next.freeRerollLeft == state.freeRerollLeft
      && next.rng == NextLong(state.rng).1
      // Exactly the first empty cell changes: it now holds a new level-1 unit of the bought role,
      // ready to fire, whose id comes from the generator's next draw.
      && |next.board.cells| == |state.board.cells|
      && (exists k :: 0 <= k < |state.board.cells|
            && state.board.cells[k].None?
            && (forall j :: 0 <= j < k ==> state.board.cells[j].Some?)
            && next.board.cells[k] == Some(UnitInstance(NewUnitId(NextLong(state.rng).0), def.role, 0, 1))
            && (forall j :: 0 <= j < |state.board.cells| && j != k ==> next.board.cells[j] == state.board.cells[j]))
      && OccupiedCount(next.board.cells) == OccupiedCount(state.board.cells) + 1
      && next.board.rows == state.board.rows && next.board.cols == state.board.cols
      // Exactly the bought slot changes: it is now empty.
      && next.shop == state.shop.(slots := state.shop.slots[slotIndex := ShopSlot(None)])
      && OnlyEconomyChanged(state, next)
  {
    if !(0 <= slotIndex < |state.shop.slots|) then Failure("Invalid shop slot")
    else if state.coins < BUY_COST then Failure("Not enough coins")
    else match state.shop.slots[slotIndex].unitId
      case None => Failure("Selected slot is empty")
      case Some(unitId) =>
        match FindUnitDef(unitDefs, unitId)
        case None => Failure("Unit definition missing")
        case Some(unitDef) =>
          match FirstIndex(state.board.cells, IsEmptyCell)
          case None => Failure("Board is full")
          case Some(emptyCellIndex) => Success(Purchase(state, slotIndex, unitDef.role, emptyCellIndex))
  }

  /**
   * The successful end of `buyFromShop`: pay, put a new level-1 unit of
   * `role` with a fresh id into empty cell `k`, and empty the slot.
   */
  function Purchase(state: RunState, slotIndex: nat, role: string, k: nat): (next: RunState)
    requires slotIndex < |state.shop.slots| && k < |state.board.cells| && state.board.cells[k].None?
    ensures next.coins == state.coins - BUY_COST
    ensures next.rng == NextLong(state.rng).1
    ensures |next.board.cells| == |state.board.cells|
    ensures next.board.cells[k] == Some(UnitInstance(NextUnitId(state).0, role, 0, 1))
    ensures forall j :: 0 <= j < |state.board.cells| && j != k ==> next.board.cells[j] == state.board.cells[j]
    ensures OccupiedCount(next.board.cells) == OccupiedCount(state.board.cells) + 1
    ensures next.board.rows == state.board.rows && next.board.cols == state.board.cols
    ensures next.shop == state.shop.(slots := state.shop.slots[slotIndex := ShopSlot(None)])
    ensures OnlyEconomyChanged(state, next) && next.freeRerollLeft == state.freeRerollLeft
  {
    var instanceId := NextUnitId(state).0;
    var nextRng := NextUnitId(state).1;
    var placed := UnitInstance(instanceId, role, 0, 1);
    OccupiedCountUpdate(state.board.cells, k, Some(placed));
    state.(
      coins := state.coins - BUY_COST,
      board := state.board.(cells := state.board.cells[k := Some(placed)]),
      shop := state.shop.(slots := state.shop.slots[slotIndex := ShopSlot(None)]),
      rng := nextRng)
  }

  /** The slot a roll restocks with. */
  function DrawnSlot(roll: real, unitDefs: seq<UnitDef>): ShopSlot
    requires |unitDefs| > 0
  {
    ShopSlot(Some(DrawUnitId(roll, unitDefs)))
  }

  /** `n` slots drawn one after another from `rng`, and the generator after the last draw. */
  function DrawSlots(n: nat, rng: RngState, unitDefs: seq<UnitDef>): (seq<ShopSlot>, RngState)
    requires |unitDefs| > 0
  {
    if n == 0 then ([], rng)
    else
      var (roll, next) := NextDouble(rng);
      var (rest, last) := DrawSlots(n - 1, next, unitDefs);
      ([DrawnSlot(roll, unitDefs)] + rest, last)
  }

  /** A reroll draws `n` full slots, each from the unit table, using exactly `n` draws. */
  lemma {:induction false} DrawSlotsSpec(n: nat, rng: RngState, unitDefs: seq<UnitDef>)
    requires |unitDefs| > 0
    ensures var (slots, next) := DrawSlots(n, rng, unitDefs);
      && |slots| == n
      && (forall i :: 0 <= i < n ==>
            slots[i].unitId.Some? && exists d :: d in unitDefs && d.id == slots[i].unitId.value)
      && next == Advance(rng, n)
  {
    if n > 0 {
      DrawSlotsSpec(n - 1, NextDouble(rng).1, unitDefs);
    }
  }

  /**
   * The outcome of `rerollShop`: it fails with no unit definitions, or with
   * neither a free charge nor `REROLL_COST` coins; otherwise a free charge is
   * used before coins, every slot is redrawn and the refill timer restarts.
   */
  function Rerolled(state: RunState, unitDefs: seq<UnitDef>): (r: Result<RunState>)
    ensures |unitDefs| == 0 ==> r == Failure("No units available for reroll")
    ensures |unitDefs| > 0 && state.freeRerollLeft <= 0 && state.coins < REROLL_COST ==> r == Failure("Not enough coins")
    ensures r.Success? <==> |unitDefs| > 0 && (state.freeRerollLeft > 0 || state.coins >= REROLL_COST)
    ensures r.Success? ==>
      var next := r.value;
      // A free charge is spent before any coin; the upgrade cost delta plays no part.
      && (state.freeRerollLeft > 0 ==> next.coins == state.coins && next.freeRerollLeft == state.freeRerollLeft - 1)
      && (state.freeRerollLeft <= 0 ==> next.coins == state.coins - REROLL_COST && next.freeRerollLeft == state.freeRerollLeft)
      && next.shop.slots == DrawSlots(|state.shop.slots|, state.rng, unitDefs).0
      && next.shop.refillTimerMs == 0
      && next.rng == DrawSlots(|state.shop.slots|, state.rng, unitDefs).1
      && next.board == state.board
      && OnlyEconomyChanged(state, next)
  {
    if |unitDefs| == 0 then Failure("No units available for reroll")
    else
      var isFree := state.freeRerollLeft > 0;
      if !isFree && state.coins < REROLL_COST then Failure("Not enough coins")
      else
        var (slots, nextRng) := DrawSlots(|state.shop.slots|, state.rng, unitDefs);
        Success(state.(
          coins := if isFree then state.coins else state.coins - REROLL_COST,
          freeRerollLeft := if isFree then state.freeRerollLeft - 1 else state.freeRerollLeft,
          shop := state.shop.(slots := slots, refillTimerMs := 0),
          rng := nextRng))
  }

  /** The `map` over the slots in `rerollShop`: `n` draws in order, threading the generator. */
  method RerollSlots(n: nat, rng: RngState, unitDefs: seq<UnitDef>) returns (slots: seq<ShopSlot>, nextRng: RngState)
    requires |unitDefs| > 0
    ensures (slots, nextRng) == DrawSlots(n, rng, unitDefs)
  {
    nextRng := rng;
    slots := [];
    while |slots| < n
      invariant |slots| <= n
      invariant slots + DrawSlots(n - |slots|, nextRng, unitDefs).0 == DrawSlots(n, rng, unitDefs).0
      invariant DrawSlots(n - |slots|, nextRng, unitDefs).1 == DrawSlots(n, rng, unitDefs).1
    {
      var (roll, updatedRng) := NextDouble(nextRng);
      var slot := DrawnSlot(roll, unitDefs);
      ghost var rest := DrawSlots(n - |slots| - 1, updatedRng, unitDefs);
      assert DrawSlots(n - |slots|, nextRng, unitDefs) == ([slot] + rest.0, rest.1);
      assert (slots + [slot]) + rest.0 == slots + ([slot] + rest.0);
      nextRng := updatedRng;
      slots := slots + [slot];
    }
    assert DrawSlots(n - |slots|, nextRng, unitDefs) == ([], nextRng);
    assert slots + [] == slots;
  }

  /** `rerollShop`. */
  method Reroll(state: RunState, unitDefs: seq<UnitDef>) returns (r: Result<RunState>)
    ensures r == Rerolled(state, unitDefs)
  {
    if |unitDefs| == 0 {
      return Failure("No units available for reroll");
    }
    var isFree := state.freeRerollLeft > 0;
    if !isFree && state.coins < REROLL_COST {
      return Failure("Not enough coins");
    }
    var rerolledSlots, nextRng := RerollSlots(|state.shop.slots|, state.rng, unitDefs);
    r := Success(state.(
      coins := if isFree then state.coins else state.coins - REROLL_COST,
      freeRerollLeft := if isFree then state.freeRerollLeft - 1 else state.freeRerollLeft,
      shop := state.shop.(slots := rerolledSlots, refillTimerMs := 0),
      rng := nextRng));
  }

  /** `sellAt`: an occupied cell is emptied for `SELL_REFUND` coins. */
  function Sell(state: RunState, cellIndex: int): (r: Result<RunState>)
    ensures !(0 <= cellIndex < |state.board.cells|) ==> r == Failure("Invalid board cell")
    ensures (0 <= cellIndex < |state.board.cells| && state.board.cells[cellIndex].None?) ==>
              r == Failure("Cell is already empty")
    ensures r.Success? <==> 0 <= cellIndex < |state.board.cells| && state.board.cells[cellIndex].Some?
    ensures r.Success? ==>
      && r.value.coins == state.coins + SELL_REFUND
      && r.value.board == state.board.(cells := state.board.cells[cellIndex := None])
      && OccupiedCount(r.value.board.cells) == OccupiedCount(state.board.cells) - 1
      && r.value == state.(coins := r.value.coins, board := r.value.board)
  {
    if !(0 <= cellIndex < |state.board.cells|) then Failure("Invalid board cell")
    else if state.board.cells[cellIndex].None? then Failure("Cell is already empty")
    else
      OccupiedCountUpdate(state.board.cells, cellIndex, None);
      Success(state.(
        coins := state.coins + SELL_REFUND,
        board := state.board.(cells := state.board.cells[cellIndex := None])))
  }

  /**
   * `merge`: two distinct occupied cells holding units of the same role and
   * level combine into the target cell, one level higher under a fresh id;
   * the source cell is emptied.
   */
  function MergeCells(state: RunState, fromCellIndex: int, toCellIndex: int): (r: Result<RunState>)
    ensures fromCellIndex == toCellIndex ==> r == Failure("Cannot merge the same cell")
    ensures (fromCellIndex != toCellIndex &&
             !(0 <= fromCellIndex < |state.board.cells| && 0 <= toCellIndex < |state.board.cells|)) ==>
              r == Failure("Invalid board cell")
    ensures (fromCellIndex != toCellIndex &&
             0 <= fromCellIndex < |state.board.cells| && 0 <= toCellIndex < |state.board.cells| &&
             state.board.cells[fromCellIndex].None?) ==>
              r == Failure("Source cell is empty")
    ensures (fromCellIndex != toCellIndex &&
             0 <= fromCellIndex < |state.board.cells| && 0 <= toCellIndex < |state.board.cells| &&
             state.board.cells[fromCellIndex].Some? && state.board.cells[toCellIndex].None?) ==>
              r == Failure("Target cell is empty")
    ensures r.Failure? && fromCellIndex != toCellIndex &&
            0 <= fromCellIndex < |state.board.cells| && 0 <= toCellIndex < |state.board.cells| &&
            state.board.cells[fromCellIndex].Some? && state.board.cells[toCellIndex].Some? ==>
              r == Failure("Merge requires same role and level")
    ensures r.Success? <==>
      && fromCellIndex != toCellIndex
      && 0 <= fromCellIndex < |state.board.cells| && 0 <= toCellIndex < |state.board.cells|
      && state.board.cells[fromCellIndex].Some? && state.board.cells[toCellIndex].Some?
      && state.board.cells[fromCellIndex].value.role == state.board.cells[toCellIndex].value.role
      && state.board.cells[fromCellIndex].value.level == state.board.cells[toCellIndex].value.level
    ensures r.Success? ==>
      var before := state.board.cells;
      var after := r.value.board.cells;
      && |after| == |before|
      && after[fromCellIndex].None?
      && after[toCellIndex].Some?
      && after[toCellIndex].value.role == before[toCellIndex].value.role
      && after[toCellIndex].value.cooldownMs == before[toCellIndex].value.cooldownMs
      && after[toCellIndex].value.level == before[toCellIndex].value.level + 1
      && after[toCellIndex].value.id == NextUnitId(state).0
      && (forall j :: 0 <= j < |before| && j != fromCellIndex && j != toCellIndex ==> after[j] == before[j])
      && OccupiedCount(after) == OccupiedCount(before) - 1
      && r.value.coins == state.coins
      && r.value == state.(board := r.value.board, rng := NextLong(state.rng).1)
  {
    if fromCellIndex == toCellIndex then Failure("Cannot merge the same cell")
    else if !(0 <= fromCellIndex < |state.board.cells|) || !(0 <= toCellIndex < |state.board.cells|) then
      Failure("Invalid board cell")
    else match state.board.cells[fromCellIndex]
      case None => Failure("Source cell is empty")
      case Some(from) =>
        match state.board.cells[toCellIndex]
        case None => Failure("Target cell is empty")
        case Some(to) =>
          if from.role != to.role || from.level != to.level then Failure("Merge requires same role and level")
          else
            var mergedId := NextUnitId(state).0;
            var nextRng := NextUnitId(state).1;
            var cleared := state.board.cells[fromCellIndex := None];
            var merged := to.(id := mergedId, level := to.level + 1);
            OccupiedCountUpdate(state.board.cells, fromCellIndex, None);
            OccupiedCountUpdate(cleared, toCellIndex, Some(merged));
            Success(state.(
              board := state.board.(cells := cleared[toCellIndex := Some(merged)]),
              rng := nextRng))
  }

  /**
   * The outcome of `reduce`. Whatever the intent, a success changes only the
   * economy (coins, free rerolls, shop, board, generator), keeps the board and
   * shop sizes, and keeps the coin balance and free charges non-negative.
   */
  function Reduced(state: RunState, intent: RunIntent, unitDefs: seq<UnitDef>): (r: Result<RunState>)
    ensures r.Success? ==> OnlyEconomyChanged(state, r.value)
    ensures r.Success? ==> |r.value.board.cells| == |state.board.cells| && |r.value.shop.slots| == |state.shop.slots|
    ensures r.Success? && state.coins >= 0 ==> r.value.coins >= 0
    ensures r.Success? && state.freeRerollLeft >= 0 ==> r.value.freeRerollLeft >= 0
  {
    match intent
    case BuyFromShop(slotIndex) => Buy(state, slotIndex, unitDefs)
    case RerollShop =>
      if |unitDefs| == 0 then Rerolled(state, unitDefs)
      else
        DrawSlotsSpec(|state.shop.slots|, state.rng, unitDefs);
        Rerolled(state, unitDefs)
    case SellAt(cellIndex) => Sell(state, cellIndex)
    case Merge(fromCellIndex, toCellIndex) => MergeCells(state, fromCellIndex, toCellIndex)
  }

  /** `RunReducer.reduce`: dispatches the intent to its handler. */
  method Reduce(state: RunState, intent: RunIntent, unitDefs: seq<UnitDef>) returns (r: Result<RunState>)
    ensures r == Reduced(state, intent, unitDefs)
  {
    match intent {
      case BuyFromShop(slotIndex) => r := Buy(state, slotIndex, unitDefs);
      case RerollShop => r := Reroll(state, unitDefs);
      case SellAt(cellIndex) => r := Sell(state, cellIndex);
      case Merge(fromCellIndex, toCellIndex) => r := MergeCells(state, fromCellIndex, toCellIndex);
    }
  }
}
