/**
 * The run's random number generator, the game's fixed constants and the
 * phase and end-of-run tags (CoreModels.kt). `RunState` itself lives in
 * module RunModel, because it refers to the board, shop and lane modules.
 */
module Core {

  const TWO_53: int := 0x20_0000_0000_0000
  const TWO_63: int := 0x8000_0000_0000_0000
  const TWO_64: int := 0x1_0000_0000_0000_0000

  /** Kotlin `Long`: a signed two's-complement 64-bit integer. */
  type Long = x: int | -TWO_63 <= x < TWO_63

  /** Kotlin `Int`'s largest value, where `Double.toInt()` saturates. */
  const INT_MAX: int := 0x7fff_ffff
  /** Kotlin `Long.MAX_VALUE`, where `Double.toLong()` saturates. */
  const LONG_MAX: int := TWO_63 - 1

  /** The unique `Long` congruent to `x` modulo 2^64: Kotlin's wrap-around on `Long` overflow. */
  function WrapLong(x: int): (r: Long)
    ensures (r - x) % TWO_64 == 0
  {
    var m := x % TWO_64;
    if m >= TWO_63 then m - TWO_64 else m
  }

  /** The bit pattern of `v` read as an unsigned number (`v.toULong()`). */
  function Unsigned(v: Long): (u: nat)
    ensures u < TWO_64 && (u - v) % TWO_64 == 0
  {
    if v < 0 then v + TWO_64 else v
  }

  /** `v ushr 11`: a logical (zero-filling) right shift by 11 bits, as `nextDouble` takes it. */
  function Ushr11(v: Long): (r: nat)
    ensures r < TWO_53
  {
    Unsigned(v) / 2048
  }

  datatype RngState = RngState(seed: Long)

  const LCG_MULTIPLIER: int := 6364136223846793005
  const LCG_INCREMENT: int := 1442695040888963407

  /** One step of the linear congruential generator; the drawn value is the new seed. */
  function NextLong(state: RngState): (r: (Long, RngState))
    ensures (r.0 - (state.seed * LCG_MULTIPLIER + LCG_INCREMENT)) % TWO_64 == 0
    ensures r.1 == RngState(r.0)
  {
    var next := WrapLong(state.seed * LCG_MULTIPLIER + LCG_INCREMENT);
    (next, RngState(next))
  }

  /** `rng` advanced by `n` draws. */
  function Advance(rng: RngState, n: nat): RngState
    decreases n
  {
    if n == 0 then rng else Advance(NextLong(rng).1, n - 1)
  }

  /**
   * A roll in [0, 1): the top 53 bits of the next draw over 2^53. The source
   * divides two doubles; both are exact here (the numerator is below 2^53),
   * so the real quotient is the value the source computes.
   */
  function NextDouble(state: RngState): (r: (real, RngState))
    ensures r.1 == NextLong(state).1
    ensures 0.0 <= r.0 < 1.0
  {
    var (value, next) := NextLong(state);
    var numerator := Ushr11(value);
    (numerator as real / TWO_53 as real, next)
  }

  /**
   * `(roll * n).toInt().coerceIn(0, n - 1)`: the index a roll selects among
   * `n` candidates. `toInt` truncates toward zero.
   */
  function PickIndex(roll: real, n: nat): (i: nat)
    requires n > 0
    ensures i < n
  {
    var truncated := Truncate(roll * n as real);
    if truncated < 0 then 0 else if truncated > n - 1 then n - 1 else truncated
  }

  /**
   * Kotlin's `Double.toInt()`/`toLong()` before saturation: truncation
   * toward zero, so the result never lies farther from zero than `x`.
   */
  function Truncate(x: real): (r: int)
    ensures x >= 0.0 ==> 0 <= r && r as real <= x < r as real + 1.0
    ensures x < 0.0 ==> r <= 0 && r as real - 1.0 < x <= r as real
  {
    if x >= 0.0 then x.Floor else -((-x).Floor)
  }

  /** For a roll in [0, 1) the clamp never bites: the index is the bucket of width 1/n holding the roll. */
  lemma PickIndexIsBucket(roll: real, n: nat)
    requires n > 0 && 0.0 <= roll < 1.0
    ensures PickIndex(roll, n) as real <= roll * n as real < PickIndex(roll, n) as real + 1.0
  {
    var scaled := roll * n as real;
    assert scaled < n as real by {
      assert (1.0 - roll) * n as real == n as real - scaled;
      assert (1.0 - roll) * n as real > 0.0;
    }
  }

  /** The id given to a unit created from a draw: `"u-" + value.toULong()`. */
  function NewUnitId(value: Long): string
  {
    "u-" + DecimalString(Unsigned(value))
  }

  function DecimalString(n: nat): string
  {
    var digit := "0123456789"[n % 10];
    if n < 10 then [digit] else DecimalString(n / 10) + [digit]
  }

  datatype Phase = Prep | Combat | PostWave | Ended

  datatype RunEnd = Victory | Defeat

  const BOARD_ROWS: int := 4
  const BOARD_COLS: int := 4

  const LANE_TILES: int := 12
  const STAGE_WAVES: int := 5

  const SHOP_SLOTS: int := 3
  const BUY_COST: int := 3
  const REROLL_COST: int := 2
  const SELL_REFUND: int := 1
  const SHOP_REFILL_MS: int := 2500
  const WAVE_START_FREE_REROLL_BONUS: int := 1

  const NORMAL_SPEED_MS_PER_TILE: int := 800
  const FAST_SPEED_MS_PER_TILE: int := 500
  const TANK_SPEED_MS_PER_TILE: int := 1200
  const BOSS_SPEED_MS_PER_TILE: int := 900

  const SHOOTER_DMG: int := 3
  const SPLASH_DMG: int := 2
  const SLOW_DMG: int := 1

  const SHOOTER_CD_MS: int := 500
  const SPLASH_CD_MS: int := 700
  const SLOW_CD_MS: int := 600
}
