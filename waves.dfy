/**
 * Wave scheduling and upgrade offers of the game engine (GameEngine.kt):
 * the spawn queue a wave starts with, the pool of upgrades that may be
 * offered, and the seeded draw of the options without repetition.
 */
module Waves {
  import opened Wrappers
  import opened Collections
  import opened Core
  import opened Lane
  import opened Config
  import opened RunModel
  import opened Upgrades

  /** Spawns of one wave are this many milliseconds apart. */
  const SPAWN_SPACING_MS := 600

  /** `repeat(count)` runs a negative count zero times. */
  function Copies(count: int): nat
  {
    if count < 0 then 0 else count
  }

  /**
   * The spawn queue of a wave: its normals, then its fast enemies, tanks and
   * bosses, one every 600 ms from 0.
   */
  ghost predicate IsWaveSchedule(r: seq<PendingSpawn>, wave: WaveConfig)
  {
    var a := Copies(wave.normal);
    var b := a + Copies(wave.fast);
    var c := b + Copies(wave.tank);
    && |r| == c + Copies(wave.boss)
    && forall i :: 0 <= i < |r| ==>
      && r[i].dueMs == SPAWN_SPACING_MS * i
      && r[i].enemyType == (if i < a then "normal" else if i < b then "fast" else if i < c then "tank" else "boss")
  }

  /** The spawn queue of a wave, as a value. */
  function WaveSchedule(wave: WaveConfig): (r: seq<PendingSpawn>)
    ensures IsWaveSchedule(r, wave)
  {
    var a := Copies(wave.normal);
    var b := a + Copies(wave.fast);
    var c := b + Copies(wave.tank);
    seq(c + Copies(wave.boss), i =>
      PendingSpawn(if i < a then "normal" else if i < b then "fast" else if i < c then "tank" else "boss",
                   SPAWN_SPACING_MS * i))
  }

  /** A wave has exactly one spawn queue. */
  lemma WaveScheduleUnique(r: seq<PendingSpawn>, wave: WaveConfig)
    requires IsWaveSchedule(r, wave)
    ensures r == WaveSchedule(wave)
  {
    var w := WaveSchedule(wave);
    assert forall i :: 0 <= i < |r| ==> r[i] == w[i];
  }

  /** The local `add` of `buildWaveSpawns`: `count` spawns of `enemyType`, each 600 ms after the last. */
  method AddSpawns(pending: seq<PendingSpawn>, due: int, enemyType: string, count: int)
    returns (extended: seq<PendingSpawn>, nextDue: int)
    requires due == SPAWN_SPACING_MS * |pending|
    ensures |extended| == |pending| + Copies(count)
    ensures extended[..|pending|] == pending
    ensures forall i :: |pending| <= i < |extended| ==> extended[i] == PendingSpawn(enemyType, SPAWN_SPACING_MS * i)
    ensures nextDue == SPAWN_SPACING_MS * |extended|
  {
    extended, nextDue := pending, due;
    var k := 0;
    while k < count
      invariant 0 <= k <= Copies(count)
      invariant |extended| == |pending| + k
      invariant extended[..|pending|] == pending
      invariant forall i :: |pending| <= i < |extended| ==> extended[i] == PendingSpawn(enemyType, SPAWN_SPACING_MS * i)
      invariant nextDue == SPAWN_SPACING_MS * |extended|
    {
      extended := extended + [PendingSpawn(enemyType, nextDue)];
      nextDue := nextDue + SPAWN_SPACING_MS;
      k := k + 1;
    }
  }

  /** `buildWaveSpawns`. */
  method BuildWaveSpawns(wave: WaveConfig) returns (pending: seq<PendingSpawn>)
    ensures IsWaveSchedule(pending, wave)
    ensures pending == WaveSchedule(wave)
  {
    var due := 0;
    pending := [];
    var p1, p2, p3 := pending, pending, pending;
    p1, due := AddSpawns(pending, due, "normal", wave.normal);
    p2, due := AddSpawns(p1, due, "fast", wave.fast);
    p3, due := AddSpawns(p2, due, "tank", wave.tank);
    pending, due := AddSpawns(p3, due, "boss", wave.boss);
    forall i | 0 <= i < |pending|
      ensures pending[i].dueMs == SPAWN_SPACING_MS * i
      ensures pending[i].enemyType ==
        (if i < |p1| then "normal" else if i < |p2| then "fast" else if i < |p3| then "tank" else "boss")
    {
      if i < |p3| {
        assert pending[i] == pending[..|p3|][i] == p3[i];
        if i < |p2| {
          assert p3[i] == p3[..|p2|][i] == p2[i];
          if i < |p1| {
            assert p2[i] == p2[..|p1|][i] == p1[i];
          }
        }
      }
    }
    WaveScheduleUnique(pending, wave);
  }

  /**
   * Whether an upgrade may still be offered: under its application cap,
   * and not a TRANSFORM once a transform has been used.
   */
  predicate IsEligible(u: UpgradeDef, counts: map<string, int>, transformUsed: bool)
  {
    && (u.maxApplications.None? || AppliedCount(counts, u.id) < u.maxApplications.value)
    && (u.kind != TRANSFORM || !transformUsed)
  }

  /** The filter `buildUpgradeOffer` applies to the upgrade table. */
  function Eligibility(counts: map<string, int>, transformUsed: bool): UpgradeDef -> bool
  {
    u => IsEligible(u, counts, transformUsed)
  }

  /** The pool `buildUpgradeOffer` samples from: the eligible upgrades, or every upgrade if none is eligible. */
  function OfferPool(upgrades: seq<UpgradeDef>, counts: map<string, int>, transformUsed: bool): seq<UpgradeDef>
  {
    var available := Partition(upgrades, Eligibility(counts, transformUsed)).0;
    if |available| == 0 then upgrades else available
  }

  /**
   * The pool holds upgrades of the table only; when some upgrade is
   * eligible it holds exactly the eligible ones, and it is empty only when
   * the table is.
   */
  lemma OfferPoolSpec(upgrades: seq<UpgradeDef>, counts: map<string, int>, transformUsed: bool)
    ensures var pool := OfferPool(upgrades, counts, transformUsed);
      && (forall i :: 0 <= i < |pool| ==> pool[i] in upgrades)
      && ((exists j :: 0 <= j < |upgrades| && IsEligible(upgrades[j], counts, transformUsed)) ==>
            && (forall i :: 0 <= i < |pool| ==> IsEligible(pool[i], counts, transformUsed))
            && (forall j :: 0 <= j < |upgrades| && IsEligible(upgrades[j], counts, transformUsed) ==> upgrades[j] in pool))
      && (|pool| == 0 <==> |upgrades| == 0)
  {
    var p := Eligibility(counts, transformUsed);
    var available := Partition(upgrades, p).0;
    PartitionMembership(upgrades, p);
    if exists j :: 0 <= j < |upgrades| && IsEligible(upgrades[j], counts, transformUsed) {
      var j :| 0 <= j < |upgrades| && IsEligible(upgrades[j], counts, transformUsed);
      assert p(upgrades[j]);
      assert upgrades[j] in available;
    }
  }

  /**
   * `k` upgrades drawn from `pool` without repetition: each draw rolls a
   * double, picks the bucket it falls in among those left, and removes it.
   */
  function Draws(pool: seq<UpgradeDef>, rng: RngState, k: nat): (seq<UpgradeDef>, RngState)
    requires k <= |pool|
    decreases k
  {
    if k == 0 then ([], rng)
    else
      var (roll, next) := NextDouble(rng);
      var i := PickIndex(roll, |pool|);
      var rest := Draws(pool[..i] + pool[i + 1..], next, k - 1);
      ([pool[i]] + rest.0, rest.1)
  }

  /** The draws pick `k` options, each a distinct entry of the pool, and consume `k` random numbers. */
  lemma {:induction false} DrawsSpec(pool: seq<UpgradeDef>, rng: RngState, k: nat)
    requires k <= |pool|
    ensures |Draws(pool, rng, k).0| == k
    ensures multiset(Draws(pool, rng, k).0) <= multiset(pool)
    ensures Draws(pool, rng, k).1 == Advance(rng, k)
  {
    if k > 0 {
      var next := NextDouble(rng).1;
      var i := PickIndex(NextDouble(rng).0, |pool|);
      var remaining := pool[..i] + pool[i + 1..];
      var rest := Draws(remaining, next, k - 1);
      assert Draws(pool, rng, k) == ([pool[i]] + rest.0, rest.1);
      assert Advance(rng, k) == Advance(next, k - 1);
      DrawsSpec(remaining, next, k - 1);
      RemoveAtMultiset(pool, i);
      assert multiset([pool[i]] + rest.0) == multiset{pool[i]} + multiset(rest.0);
    }
  }

  /** Removing the entry at `i` takes exactly that entry out of the multiset. */
  lemma RemoveAtMultiset(pool: seq<UpgradeDef>, i: nat)
    requires i < |pool|
    ensures multiset(pool[..i] + pool[i + 1..]) + multiset{pool[i]} == multiset(pool)
  {
    assert pool == pool[..i] + [pool[i]] + pool[i + 1..];
  }

  /** How many options `sampleUpgrades` picks: `count` capped at the pool size, none for a non-positive count. */
  function PickCount(count: int, poolSize: nat): (k: nat)
    ensures k <= poolSize
    ensures count >= poolSize ==> k == poolSize
    ensures 0 <= count <= poolSize ==> k == count
    ensures count <= 0 ==> k == 0
  {
    if count <= 0 then 0 else if count < poolSize then count else poolSize
  }

  /** `sampleUpgrades`: `count` options drawn without repetition from `source`. */
  method SampleUpgrades(source: seq<UpgradeDef>, rng: RngState, count: int)
    returns (picked: seq<UpgradeDef>, nextRng: RngState)
    ensures (picked, nextRng) == Draws(source, rng, PickCount(count, |source|))
  {
    if |source| == 0 {
      return [], rng;
    }
    var mutable := source;
    picked := [];
    nextRng := rng;
    var pickCount := PickCount(count, |source|);
    for n := 0 to pickCount
      invariant |picked| == n && |mutable| == |source| - n
      invariant picked + Draws(mutable, nextRng, pickCount - n).0 == Draws(source, rng, pickCount).0
      invariant Draws(mutable, nextRng, pickCount - n).1 == Draws(source, rng, pickCount).1
    {
      var (roll, updated) := NextDouble(nextRng);
      var index := PickIndex(roll, |mutable|);
      var removed := mutable[index];
      ghost var rest := Draws(mutable[..index] + mutable[index + 1..], updated, pickCount - n - 1);
      assert Draws(mutable, nextRng, pickCount - n) == ([removed] + rest.0, rest.1);
      assert (picked + [removed]) + rest.0 == picked + ([removed] + rest.0);
      nextRng := updated;
      mutable := mutable[..index] + mutable[index + 1..];
      picked := picked + [removed];
    }
    assert picked + [] == picked;
  }

  /** The offer `buildUpgradeOffer` makes after cleared wave number `cleared`, and the generator after it. */
  function Offer(state: RunState, upgrades: seq<UpgradeDef>, rules: UpgradeRules, cleared: int): (UpgradeOffer, RngState)
  {
    var pool := OfferPool(upgrades, state.appliedUpgradeCount, state.transformUsed);
    var (options, nextRng) := Draws(pool, state.rng, PickCount(3, |pool|));
    (UpgradeOffer(cleared, options, state.timeMs + rules.timeoutSec * 1000), nextRng)
  }

  /**
   * An offer shows three distinct pool entries (all of them when the pool
   * is smaller), so it is empty only when the upgrade table is; it expires
   * `timeoutSec` seconds after it was made, and uses one random number per
   * option.
   */
  lemma OfferSpec(state: RunState, upgrades: seq<UpgradeDef>, rules: UpgradeRules, cleared: int)
    ensures var pool := OfferPool(upgrades, state.appliedUpgradeCount, state.transformUsed);
      var (offer, nextRng) := Offer(state, upgrades, rules, cleared);
      && |offer.options| == (if |pool| < 3 then |pool| else 3)
      && multiset(offer.options) <= multiset(pool)
      && (|offer.options| == 0 <==> |upgrades| == 0)
      && offer.waveIndex == cleared
      && offer.deadlineTimeMs == state.timeMs + rules.timeoutSec * 1000
      && nextRng == Advance(state.rng, |offer.options|)
  {
    var pool := OfferPool(upgrades, state.appliedUpgradeCount, state.transformUsed);
    OfferPoolSpec(upgrades, state.appliedUpgradeCount, state.transformUsed);
    DrawsSpec(pool, state.rng, PickCount(3, |pool|));
  }

  /** `buildUpgradeOffer`. */
  method BuildUpgradeOffer(state: RunState, upgrades: seq<UpgradeDef>, rules: UpgradeRules, cleared: int)
    returns (offer: UpgradeOffer, nextRng: RngState)
    ensures (offer, nextRng) == Offer(state, upgrades, rules, cleared)
  {
    var pool := OfferPool(upgrades, state.appliedUpgradeCount, state.transformUsed);
    var options;
    options, nextRng := SampleUpgrades(pool, state.rng, 3);
    offer := UpgradeOffer(cleared, options, state.timeMs + rules.timeoutSec * 1000);
  }
}
