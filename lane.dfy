/** The enemy lane: live enemies, the queue of scheduled spawns and the wave clock (LaneState.kt). */
module Lane {

  /** A live enemy; `id` is its type id. `progressMs` is the time carried toward the next tile. */
  datatype EnemyInstance = EnemyInstance(id: string, hp: int, tile: int, progressMs: int)

  /** An enemy of type `enemyType` due to appear once the wave clock reaches `dueMs`. */
  datatype PendingSpawn = PendingSpawn(enemyType: string, dueMs: int)

  datatype LaneState = LaneState(
    length: int,
    enemies: seq<EnemyInstance>,
    pendingSpawns: seq<PendingSpawn>,
    combatElapsedMs: int)

  /** `LaneState(length = length)`: no enemies, nothing scheduled, clock at 0. */
  function EmptyLane(length: int): (l: LaneState)
    ensures l.length == length && l.enemies == [] && l.pendingSpawns == [] && l.combatElapsedMs == 0
  {
    LaneState(length, [], [], 0)
  }
}
