/** The shop: a few slots offering unit definitions, restocked on a timer (ShopState.kt). */
module Shop {
  import opened Wrappers
  import opened Collections
  import opened Core
  import opened Config

  /** A shop slot; `unitId == None` is an empty slot. */
  datatype ShopSlot = ShopSlot(unitId: Option<string>)

  datatype ShopState = ShopState(slots: seq<ShopSlot>, refillTimerMs: int)

  /** `ShopState()`: `SHOP_SLOTS` empty slots and a stopped timer. */
  function EmptyShop(): (s: ShopState)
    ensures |s.slots| == SHOP_SLOTS && s.refillTimerMs == 0
    ensures forall i :: 0 <= i < |s.slots| ==> s.slots[i].unitId.None?
  {
    ShopState(seq(SHOP_SLOTS, _ => ShopSlot(None)), 0)
  }

  const REFILL_MS: int := SHOP_REFILL_MS

  predicate IsEmptySlot(slot: ShopSlot)
  {
    slot.unitId.None?
  }

  /** The id of the unit definition a roll selects. */
  function DrawUnitId(roll: real, unitDefs: seq<UnitDef>): (id: string)
    requires |unitDefs| > 0
    ensures exists d :: d in unitDefs && d.id == id
  {
    var d := unitDefs[PickIndex(roll, |unitDefs|)];
    assert d in unitDefs;
    d.id
  }

  /**
   * `tickShop`: with a full shop the timer idles at 0. Otherwise time
   * accumulates; each time it reaches `REFILL_MS` one threshold is consumed
   * and, if there is a unit definition to draw from, the first empty slot
   * is filled with a randomly drawn one.
   */
  function TickShop(shop: ShopState, deltaMs: int, rng: RngState, unitDefs: seq<UnitDef>): (r: (ShopState, RngState))
    // A full shop only resets the timer.
    ensures (forall i :: 0 <= i < |shop.slots| ==> shop.slots[i].unitId.Some?) ==>
              r == (shop.(refillTimerMs := 0), rng)
    // Below the threshold only the timer moves.
    ensures (exists i :: 0 <= i < |shop.slots| && shop.slots[i].unitId.None?) &&
            shop.refillTimerMs + deltaMs < REFILL_MS ==>
              r == (shop.(refillTimerMs := shop.refillTimerMs + deltaMs), rng)
    // At the threshold one period is consumed and at most one slot filled.
    ensures (exists i :: 0 <= i < |shop.slots| && shop.slots[i].unitId.None?) &&
            shop.refillTimerMs + deltaMs >= REFILL_MS ==>
              && r.0.refillTimerMs == shop.refillTimerMs + deltaMs - REFILL_MS
              && |r.0.slots| == |shop.slots|
              && (|unitDefs| == 0 ==> r.0.slots == shop.slots && r.1 == rng)
              && (|unitDefs| > 0 ==> r.1 == NextDouble(rng).1 && FilledFirstEmpty(shop.slots, r.0.slots, unitDefs))
    // The timer stays non-negative while time moves forward.
    ensures shop.refillTimerMs >= 0 && deltaMs >= 0 ==> r.0.refillTimerMs >= 0
  {
    match FirstIndex(shop.slots, IsEmptySlot)
    case None => (shop.(refillTimerMs := 0), rng)
    case Some(emptyIdx) =>
      var timer := shop.refillTimerMs + deltaMs;
      if timer < REFILL_MS then (shop.(refillTimerMs := timer), rng)
      else if |unitDefs| == 0 then (shop.(refillTimerMs := timer - REFILL_MS), rng)
      else
        var (roll, nextRng) := NextDouble(rng);
        var filled := shop.slots[emptyIdx := ShopSlot(Some(DrawUnitId(roll, unitDefs)))];
        (shop.(slots := filled, refillTimerMs := timer - REFILL_MS), nextRng)
  }

  /**
   * `after` is `before` with its lowest-index empty slot filled by the id of
   * one of `unitDefs`, and every other slot as it was.
   */
  ghost predicate FilledFirstEmpty(before: seq<ShopSlot>, after: seq<ShopSlot>, unitDefs: seq<UnitDef>)
  {
    && |after| == |before|
    && exists k :: 0 <= k < |before|
         && before[k].unitId.None?
         && (forall j :: 0 <= j < k ==> before[j].unitId.Some?)
         && after[k].unitId.Some? && (exists d :: d in unitDefs && d.id == after[k].unitId.value)
         && (forall j :: 0 <= j < |before| && j != k ==> after[j] == before[j])
  }

  /** Stub left in the shop component: always fails. */
  function BuyUnit(shop: ShopState): (r: Result<ShopState>)
    ensures r.Failure?
  {
    Failure("Buy not implemented in PR1")
  }

  /** Stub left in the shop component: always fails. */
  function RerollShop(shop: ShopState): (r: Result<ShopState>)
    ensures r.Failure?
  {
    Failure("Reroll not implemented in PR1")
  }

  /** Stub left in the shop component: always fails. */
  function SellUnit(shop: ShopState): (r: Result<ShopState>)
    ensures r.Failure?
  {
    Failure("Sell not implemented in PR1")
  }
}
