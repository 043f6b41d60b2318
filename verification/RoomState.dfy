/** The wave spawner and damage of src/RoomState.cpp. */
module RoomStates {
  import opened Common
  import opened DungeonRoom

  datatype EnemyState = EnemyState(
    entityId: DungeonEntityId,
    spawnId: EnemySpawnId,
    enemyTemplateId: EnemyTemplateId,
    position: Position,
    currentHp: UInt32,
    alive: bool)

  datatype ObstacleState = ObstacleState(
    obstacleId: ObstacleId,
    currentHp: UInt32,
    destructible: bool,
    destroyed: bool)

  datatype PositionCheckResult = Valid | OutsideRoom | BlockedByObstacle

  /** (roomId << 32) | spawnId: the room in the upper half, the spawn in the lower. */
  function MakeEnemyEntityId(roomId: RoomId, spawnId: EnemySpawnId): DungeonEntityId {
    (roomId as int) * 0x1_0000_0000 + spawnId
  }

  lemma EntityIdsAreDistinct(room: RoomId, spawn: EnemySpawnId, room': RoomId, spawn': EnemySpawnId)
    requires MakeEnemyEntityId(room, spawn) == MakeEnemyEntityId(room', spawn')
    ensures room == room' && spawn == spawn'
  {
  }

  // ---------------------------------------------------------------- waves as values

  /** The spawner's state: the last wave started and the enemies put into the room so far. */
  datatype Waves = Waves(currentWave: UInt32, enemies: seq<EnemyState>)

  predicate HasLivingEnemy(enemies: seq<EnemyState>) {
    exists i :: 0 <= i < |enemies| && enemies[i].alive
  }

  /** The smallest wave after `current`, 0 when there is none. */
  function NextWave(spawns: seq<EnemySpawnTemplate>, current: UInt32): UInt32 {
    if spawns == [] then 0
    else
      var next := NextWave(spawns[..|spawns| - 1], current);
      var wave := spawns[|spawns| - 1].wave;
      if wave > current && (next == 0 || wave < next) then wave else next
  }

  function LastWave(spawns: seq<EnemySpawnTemplate>): UInt32 {
    if spawns == [] then 0
    else
      var last := LastWave(spawns[..|spawns| - 1]);
      var wave := spawns[|spawns| - 1].wave;
      if wave > last then wave else last
  }

  lemma {:induction false} NextWaveIsLeast(spawns: seq<EnemySpawnTemplate>, current: UInt32)
    ensures
      var next := NextWave(spawns, current);
      if next == 0 then forall i :: 0 <= i < |spawns| ==> spawns[i].wave <= current
      else
        && next > current
        && (exists i :: 0 <= i < |spawns| && spawns[i].wave == next)
        && (forall i :: 0 <= i < |spawns| ==> spawns[i].wave <= current || next <= spawns[i].wave)
  {
    if spawns == [] {
    } else {
      var init := spawns[..|spawns| - 1];
      NextWaveIsLeast(init, current);
      assert spawns == init + [spawns[|spawns| - 1]];
      if NextWave(spawns, current) != 0 && NextWave(spawns, current) == NextWave(init, current) {
        var i :| 0 <= i < |init| && init[i].wave == NextWave(init, current);
        assert spawns[i].wave == NextWave(spawns, current);
      }
    }
  }

  lemma {:induction false} LastWaveIsGreatest(spawns: seq<EnemySpawnTemplate>)
    ensures forall i :: 0 <= i < |spawns| ==> spawns[i].wave <= LastWave(spawns)
    ensures LastWave(spawns) == 0 || exists i :: 0 <= i < |spawns| && spawns[i].wave == LastWave(spawns)
  {
    if spawns == [] {
    } else {
      var init := spawns[..|spawns| - 1];
      LastWaveIsGreatest(init);
      assert spawns == init + [spawns[|spawns| - 1]];
      if LastWave(spawns) != 0 && LastWave(spawns) == LastWave(init) {
        var i :| 0 <= i < |init| && init[i].wave == LastWave(init);
        assert spawns[i].wave == LastWave(spawns);
      }
    }
  }

  function MakeEnemy(roomId: RoomId, spawn: EnemySpawnTemplate, maxHp: UInt32): EnemyState {
    EnemyState(MakeEnemyEntityId(roomId, spawn.id), spawn.id, spawn.enemyTemplateId, spawn.position, maxHp, true)
  }

  /** The enemies a wave brings, in template order. */
  function WaveEnemies(roomId: RoomId, spawns: seq<EnemySpawnTemplate>, catalog: EnemyCatalog, wave: UInt32)
    : seq<EnemyState>
    requires forall i :: 0 <= i < |spawns| ==> spawns[i].enemyTemplateId in catalog
  {
    if spawns == [] then []
    else
      var spawn := spawns[|spawns| - 1];
      WaveEnemies(roomId, spawns[..|spawns| - 1], catalog, wave) +
        (if spawn.wave == wave then [MakeEnemy(roomId, spawn, catalog[spawn.enemyTemplateId])] else [])
  }

  /** StartNextWave: refused while an enemy lives or when no wave is left. */
  ghost function Started(t: RoomTemplate, catalog: EnemyCatalog, w: Waves): (Waves, bool)
    requires SpawnsAccepted(t.enemySpawns, catalog)
  {
    var next := NextWave(t.enemySpawns, w.currentWave);
    if HasLivingEnemy(w.enemies) || next == 0 then (w, false)
    else (Waves(next, w.enemies + WaveEnemies(t.id, t.enemySpawns, catalog, next)), true)
  }

  function Wound(e: EnemyState, damage: UInt32): EnemyState {
    if damage >= e.currentHp then e.(currentHp := 0, alive := false)
    else e.(currentHp := e.currentHp - damage)
  }

  /** ApplyEnemyDamage on the enemy at position i of the list. */
  ghost function Wounded(w: Waves, i: nat, damage: UInt32): Waves
    requires i < |w.enemies|
  {
    w.(enemies := w.enemies[i := Wound(w.enemies[i], damage)])
  }

  ghost predicate Hittable(w: Waves, entityId: DungeonEntityId, damage: UInt32, i: nat) {
    i < |w.enemies| && w.enemies[i].entityId == entityId && w.enemies[i].alive && damage > 0
  }

  ghost predicate Cleared(t: RoomTemplate, w: Waves) {
    w.currentWave == LastWave(t.enemySpawns) && !HasLivingEnemy(w.enemies)
  }

  // ---------------------------------------------------------------- what every run keeps

  /** An enemy that came from a spawn, whatever has happened to it since. */
  ghost predicate ComesFrom(t: RoomTemplate, catalog: EnemyCatalog, e: EnemyState, spawn: EnemySpawnTemplate) {
    && e.entityId == MakeEnemyEntityId(t.id, spawn.id)
    && e.spawnId == spawn.id && e.enemyTemplateId == spawn.enemyTemplateId && e.position == spawn.position
    && spawn.enemyTemplateId in catalog && e.currentHp <= catalog[spawn.enemyTemplateId]
    && (e.alive <==> e.currentHp > 0)
  }

  ghost function EnemyIds(enemies: seq<EnemyState>): set<EnemySpawnId> {
    set i | 0 <= i < |enemies| :: enemies[i].spawnId
  }

  /** The ids of the spawns whose wave lies in a range. */
  ghost function SpawnIds(spawns: seq<EnemySpawnTemplate>, lo: UInt32, hi: UInt32): set<EnemySpawnId> {
    set k | 0 <= k < |spawns| && lo <= spawns[k].wave <= hi :: spawns[k].id
  }

  ghost predicate NoDuplicates(enemies: seq<EnemyState>) {
    forall i, j :: 0 <= i < j < |enemies| ==> enemies[i].spawnId != enemies[j].spawnId
  }

  /** Every enemy is the one its spawn describes. */
  ghost predicate TrueToTemplate(
    t: RoomTemplate, spawns: seq<EnemySpawnTemplate>, catalog: EnemyCatalog, enemies: seq<EnemyState>)
  {
    forall i, k :: 0 <= i < |enemies| && 0 <= k < |spawns| && enemies[i].spawnId == spawns[k].id ==>
      ComesFrom(t, catalog, enemies[i], spawns[k])
  }

  /** The enemies are exactly the spawns of the waves so far, each one once. */
  ghost predicate Populated(t: RoomTemplate, catalog: EnemyCatalog, w: Waves) {
    && EnemyIds(w.enemies) == SpawnIds(t.enemySpawns, 0, w.currentWave)
    && NoDuplicates(w.enemies)
    && TrueToTemplate(t, t.enemySpawns, catalog, w.enemies)
    && w.currentWave <= LastWave(t.enemySpawns)
  }

  /** The spawn behind an enemy. */
  lemma SpawnOf(t: RoomTemplate, catalog: EnemyCatalog, w: Waves, i: nat) returns (k: nat)
    requires Populated(t, catalog, w) && i < |w.enemies|
    ensures k < |t.enemySpawns| && ComesFrom(t, catalog, w.enemies[i], t.enemySpawns[k])
    ensures t.enemySpawns[k].wave <= w.currentWave
  {
    assert w.enemies[i].spawnId in SpawnIds(t.enemySpawns, 0, w.currentWave);
    k :| 0 <= k < |t.enemySpawns| && t.enemySpawns[k].wave <= w.currentWave
      && t.enemySpawns[k].id == w.enemies[i].spawnId;
  }

  /** The enemy behind a spawn. */
  lemma EnemyOf(t: RoomTemplate, catalog: EnemyCatalog, w: Waves, k: nat) returns (i: nat)
    requires Populated(t, catalog, w) && k < |t.enemySpawns| && t.enemySpawns[k].wave <= w.currentWave
    ensures i < |w.enemies| && w.enemies[i].spawnId == t.enemySpawns[k].id
  {
    assert t.enemySpawns[k].id in EnemyIds(w.enemies);
    i :| 0 <= i < |w.enemies| && w.enemies[i].spawnId == t.enemySpawns[k].id;
  }

  function LivingHp(enemies: seq<EnemyState>): nat {
    if enemies == [] then 0 else LivingHp(enemies[..|enemies| - 1]) + enemies[|enemies| - 1].currentHp
  }

  /** Hit points of the spawns that come after a wave. */
  function UnspawnedHp(spawns: seq<EnemySpawnTemplate>, catalog: EnemyCatalog, wave: UInt32): nat
    requires forall i :: 0 <= i < |spawns| ==> spawns[i].enemyTemplateId in catalog
  {
    if spawns == [] then 0
    else
      var spawn := spawns[|spawns| - 1];
      UnspawnedHp(spawns[..|spawns| - 1], catalog, wave) +
        (if spawn.wave > wave then catalog[spawn.enemyTemplateId] else 0)
  }

  /** All the hit points that still have to be taken before the room is clear. */
  ghost function RemainingHp(t: RoomTemplate, catalog: EnemyCatalog, w: Waves): nat
    requires SpawnsAccepted(t.enemySpawns, catalog)
  {
    LivingHp(w.enemies) + UnspawnedHp(t.enemySpawns, catalog, w.currentWave)
  }

  lemma {:induction false} LivingHpAppend(a: seq<EnemyState>, b: seq<EnemyState>)
    ensures LivingHp(a + b) == LivingHp(a) + LivingHp(b)
  {
    if b == [] {
      assert a + b == a;
    } else {
      LivingHpAppend(a, b[..|b| - 1]);
      assert (a + b)[..|a + b| - 1] == a + b[..|b| - 1];
    }
  }

  lemma {:induction false} LivingHpUpdate(enemies: seq<EnemyState>, i: nat, e: EnemyState)
    requires i < |enemies|
    ensures LivingHp(enemies[i := e]) == LivingHp(enemies) - enemies[i].currentHp + e.currentHp
  {
    var init := enemies[..|enemies| - 1];
    if i == |enemies| - 1 {
      assert enemies[i := e][..|enemies| - 1] == init;
    } else {
      LivingHpUpdate(init, i, e);
      assert enemies[i := e][..|enemies| - 1] == init[i := e];
    }
  }

  lemma {:induction false} LivingHpPositive(enemies: seq<EnemyState>, i: nat)
    requires i < |enemies|
    ensures LivingHp(enemies) >= enemies[i].currentHp
  {
    if i < |enemies| - 1 {
      LivingHpPositive(enemies[..|enemies| - 1], i);
    }
  }

  lemma {:induction false} NobodyLivesNoHp(enemies: seq<EnemyState>)
    requires forall i :: 0 <= i < |enemies| ==> enemies[i].currentHp == 0
    ensures LivingHp(enemies) == 0
  {
    if enemies != [] {
      NobodyLivesNoHp(enemies[..|enemies| - 1]);
    }
  }

  /** A wave's enemies are its spawns: each one once, in order, at full health. */
  lemma {:induction false} WaveEnemiesAreItsSpawns(
    t: RoomTemplate, spawns: seq<EnemySpawnTemplate>, catalog: EnemyCatalog, wave: UInt32)
    requires SpawnsAccepted(spawns, catalog)
    ensures
      var enemies := WaveEnemies(t.id, spawns, catalog, wave);
      && EnemyIds(enemies) == SpawnIds(spawns, wave, wave)
      && NoDuplicates(enemies)
      && TrueToTemplate(t, spawns, catalog, enemies)
  {
    if spawns == [] {
    } else {
      var init, spawn := spawns[..|spawns| - 1], spawns[|spawns| - 1];
      assert spawns == init + [spawn];
      WaveEnemiesAreItsSpawns(t, init, catalog, wave);
      AddSpawn(t, init, spawn, catalog, wave, WaveEnemies(t.id, init, catalog, wave));
    }
  }

  lemma AddSpawn(
    t: RoomTemplate, init: seq<EnemySpawnTemplate>, spawn: EnemySpawnTemplate, catalog: EnemyCatalog, wave: UInt32,
    before: seq<EnemyState>)
    requires SpawnsAccepted(init + [spawn], catalog)
    requires EnemyIds(before) == SpawnIds(init, wave, wave) && NoDuplicates(before)
    requires TrueToTemplate(t, init, catalog, before)
    ensures
      assert (init + [spawn])[|init|] == spawn;
      var enemies :=
        before + if spawn.wave == wave then [MakeEnemy(t.id, spawn, catalog[spawn.enemyTemplateId])] else [];
      && EnemyIds(enemies) == SpawnIds(init + [spawn], wave, wave)
      && NoDuplicates(enemies)
      && TrueToTemplate(t, init + [spawn], catalog, enemies)
  {
    var spawns := init + [spawn];
    assert spawns[|init|] == spawn;
    SpawnIdsAppend(init, spawn, wave, wave);
    FreshSpawnId(init, spawn, catalog, wave, wave);
    if spawn.wave == wave {
      var enemy := MakeEnemy(t.id, spawn, catalog[spawn.enemyTemplateId]);
      EnemyIdsAppend(before, [enemy]);
      assert EnemyIds([enemy]) == {spawn.id} by {
        assert [enemy][0].spawnId in EnemyIds([enemy]);
      }
      forall i | 0 <= i < |before|
        ensures before[i].spawnId != spawn.id
      {
        assert before[i].spawnId in EnemyIds(before);
      }
    } else {
      assert before + [] == before;
      forall i | 0 <= i < |before|
        ensures before[i].spawnId != spawn.id
      {
        assert before[i].spawnId in EnemyIds(before);
      }
    }
  }

  lemma SpawnIdsAppend(init: seq<EnemySpawnTemplate>, spawn: EnemySpawnTemplate, lo: UInt32, hi: UInt32)
    ensures SpawnIds(init + [spawn], lo, hi) ==
      SpawnIds(init, lo, hi) + (if lo <= spawn.wave <= hi then {spawn.id} else {})
  {
    var spawns := init + [spawn];
    forall id | id in SpawnIds(init, lo, hi) || (lo <= spawn.wave <= hi && id == spawn.id)
      ensures id in SpawnIds(spawns, lo, hi)
    {
      if id in SpawnIds(init, lo, hi) {
        var k :| 0 <= k < |init| && lo <= init[k].wave <= hi && init[k].id == id;
        assert spawns[k].id == id;
      } else {
        assert spawns[|init|].id == id;
      }
    }
  }

  lemma FreshSpawnId(
    init: seq<EnemySpawnTemplate>, spawn: EnemySpawnTemplate, catalog: EnemyCatalog, lo: UInt32, hi: UInt32)
    requires SpawnsAccepted(init + [spawn], catalog)
    ensures spawn.id !in SpawnIds(init, lo, hi)
  {
    var spawns := init + [spawn];
    forall k | 0 <= k < |init|
      ensures init[k].id != spawn.id
    {
      assert spawns[k].id != spawns[|init|].id;
    }
  }

  lemma EnemyIdsAppend(a: seq<EnemyState>, b: seq<EnemyState>)
    ensures EnemyIds(a + b) == EnemyIds(a) + EnemyIds(b)
  {
    forall id | id in EnemyIds(a) + EnemyIds(b)
      ensures id in EnemyIds(a + b)
    {
      if id in EnemyIds(a) {
        var i :| 0 <= i < |a| && a[i].spawnId == id;
        assert (a + b)[i].spawnId == id;
      } else {
        var i :| 0 <= i < |b| && b[i].spawnId == id;
        assert (a + b)[|a| + i].spawnId == id;
      }
    }
  }

  /** What a wave adds to the living it takes from the unspawned. */
  lemma {:induction false} WaveMovesHp(
    roomId: RoomId, spawns: seq<EnemySpawnTemplate>, catalog: EnemyCatalog, wave: UInt32, next: UInt32)
    requires forall i :: 0 <= i < |spawns| ==> spawns[i].enemyTemplateId in catalog
    requires wave < next
    requires forall i :: 0 <= i < |spawns| ==> spawns[i].wave <= wave || next <= spawns[i].wave
    ensures UnspawnedHp(spawns, catalog, wave) ==
      UnspawnedHp(spawns, catalog, next) + LivingHp(WaveEnemies(roomId, spawns, catalog, next))
  {
    if spawns == [] {
    } else {
      var init := spawns[..|spawns| - 1];
      var spawn := spawns[|spawns| - 1];
      WaveMovesHp(roomId, init, catalog, wave, next);
      if spawn.wave == next {
        var enemy := MakeEnemy(roomId, spawn, catalog[spawn.enemyTemplateId]);
        LivingHpAppend(WaveEnemies(roomId, init, catalog, next), [enemy]);
        assert [enemy][..0] == [];
      } else {
        assert WaveEnemies(roomId, spawns, catalog, next) == WaveEnemies(roomId, init, catalog, next);
      }
    }
  }

  /** Starting a wave keeps the roll exact and moves no hit points; it succeeds exactly when
      nobody lives and the room is not clear yet. */
  lemma StartKeepsRoll(t: RoomTemplate, catalog: EnemyCatalog, w: Waves)
    requires SpawnsAccepted(t.enemySpawns, catalog) && Populated(t, catalog, w)
    ensures Populated(t, catalog, Started(t, catalog, w).0)
    ensures RemainingHp(t, catalog, Started(t, catalog, w).0) == RemainingHp(t, catalog, w)
    ensures Started(t, catalog, w).1 <==> !HasLivingEnemy(w.enemies) && !Cleared(t, w)
  {
    var spawns := t.enemySpawns;
    var next := NextWave(spawns, w.currentWave);
    NextWaveIsLeast(spawns, w.currentWave);
    LastWaveIsGreatest(spawns);
    if next != 0 {
      var wave := WaveEnemies(t.id, spawns, catalog, next);
      WaveEnemiesAreItsSpawns(t, spawns, catalog, next);
      WaveMovesHp(t.id, spawns, catalog, w.currentWave, next);
      LivingHpAppend(w.enemies, wave);
      NewWaveKeepsRoll(t, catalog, w, next, wave);
    }
  }

  lemma NewWaveKeepsRoll(t: RoomTemplate, catalog: EnemyCatalog, w: Waves, next: UInt32, wave: seq<EnemyState>)
    requires SpawnsAccepted(t.enemySpawns, catalog) && Populated(t, catalog, w)
    requires w.currentWave < next <= LastWave(t.enemySpawns)
    requires forall k :: 0 <= k < |t.enemySpawns| ==>
      t.enemySpawns[k].wave <= w.currentWave || next <= t.enemySpawns[k].wave
    requires EnemyIds(wave) == SpawnIds(t.enemySpawns, next, next) && NoDuplicates(wave)
    requires TrueToTemplate(t, t.enemySpawns, catalog, wave)
    ensures Populated(t, catalog, Waves(next, w.enemies + wave))
  {
    EnemyIdsAppend(w.enemies, wave);
    assert SpawnIds(t.enemySpawns, 0, next) ==
      SpawnIds(t.enemySpawns, 0, w.currentWave) + SpawnIds(t.enemySpawns, next, next);
    forall i, j | 0 <= i < |w.enemies| && 0 <= j < |wave|
      ensures w.enemies[i].spawnId != wave[j].spawnId
    {
      assert w.enemies[i].spawnId in EnemyIds(w.enemies) && wave[j].spawnId in EnemyIds(wave);
    }
  }

  /** A hit takes min(damage, hp) hit points from the total and disturbs nothing else. */
  lemma HitKeepsRoll(t: RoomTemplate, catalog: EnemyCatalog, w: Waves, entityId: DungeonEntityId, damage: UInt32, i: nat)
    requires SpawnsAccepted(t.enemySpawns, catalog) && Populated(t, catalog, w)
    requires Hittable(w, entityId, damage, i)
    ensures Populated(t, catalog, Wounded(w, i, damage))
    ensures RemainingHp(t, catalog, Wounded(w, i, damage)) ==
      RemainingHp(t, catalog, w) - (if damage < w.enemies[i].currentHp then damage else w.enemies[i].currentHp)
  {
    var w' := Wounded(w, i, damage);
    LivingHpUpdate(w.enemies, i, w'.enemies[i]);
    assert EnemyIds(w'.enemies) == EnemyIds(w.enemies) by {
      assert forall j :: 0 <= j < |w.enemies| ==> w'.enemies[j].spawnId == w.enemies[j].spawnId;
    }
  }

  ghost predicate SpawnedAndKilled(w: Waves, spawn: EnemySpawnTemplate) {
    exists i :: 0 <= i < |w.enemies| && w.enemies[i].spawnId == spawn.id && !w.enemies[i].alive
  }

  /** The room is clear exactly when every spawn of its template has come and died, which is
      exactly when no hit points are left to take. */
  lemma ClearedMeansAllKilled(t: RoomTemplate, catalog: EnemyCatalog, w: Waves)
    requires SpawnsAccepted(t.enemySpawns, catalog) && Populated(t, catalog, w)
    ensures Cleared(t, w) <==> forall k :: 0 <= k < |t.enemySpawns| ==> SpawnedAndKilled(w, t.enemySpawns[k])
    ensures Cleared(t, w) <==> RemainingHp(t, catalog, w) == 0
  {
    LastWaveIsGreatest(t.enemySpawns);
    if Cleared(t, w) {
      forall k | 0 <= k < |t.enemySpawns|
        ensures SpawnedAndKilled(w, t.enemySpawns[k])
      {
        var i := EnemyOf(t, catalog, w, k);
        assert !w.enemies[i].alive;
      }
      forall i | 0 <= i < |w.enemies|
        ensures w.enemies[i].currentHp == 0
      {
        var k := SpawnOf(t, catalog, w, i);
        assert !w.enemies[i].alive;
      }
      NobodyLivesNoHp(w.enemies);
      NothingUnspawned(t.enemySpawns, catalog, w.currentWave);
    } else if HasLivingEnemy(w.enemies) {
      var i :| 0 <= i < |w.enemies| && w.enemies[i].alive;
      LivingHpPositive(w.enemies, i);
      var k := SpawnOf(t, catalog, w, i);
      assert !SpawnedAndKilled(w, t.enemySpawns[k]);
    } else {
      var k :| 0 <= k < |t.enemySpawns| && t.enemySpawns[k].wave == LastWave(t.enemySpawns);
      SomethingUnspawned(t.enemySpawns, catalog, w.currentWave, k);
      if SpawnedAndKilled(w, t.enemySpawns[k]) {
        var i :| 0 <= i < |w.enemies| && w.enemies[i].spawnId == t.enemySpawns[k].id;
        var l := SpawnOf(t, catalog, w, i);
      }
    }
  }

  lemma {:induction false} WaveLives(
    roomId: RoomId, spawns: seq<EnemySpawnTemplate>, catalog: EnemyCatalog, wave: UInt32)
    requires forall i :: 0 <= i < |spawns| ==> spawns[i].enemyTemplateId in catalog
    ensures forall i :: 0 <= i < |WaveEnemies(roomId, spawns, catalog, wave)| ==>
      WaveEnemies(roomId, spawns, catalog, wave)[i].alive
    ensures (exists k :: 0 <= k < |spawns| && spawns[k].wave == wave) ==>
      WaveEnemies(roomId, spawns, catalog, wave) != []
  {
    if spawns != [] {
      var init := spawns[..|spawns| - 1];
      WaveLives(roomId, init, catalog, wave);
      if exists k :: 0 <= k < |spawns| && spawns[k].wave == wave {
        var k :| 0 <= k < |spawns| && spawns[k].wave == wave;
        assert k < |init| ==> init[k].wave == wave;
      }
    }
  }

  /** Whoever has just come lives. */
  lemma StartedLives(t: RoomTemplate, catalog: EnemyCatalog, w: Waves)
    requires SpawnsAccepted(t.enemySpawns, catalog) && Started(t, catalog, w).1
    ensures HasLivingEnemy(Started(t, catalog, w).0.enemies)
  {
    var next := NextWave(t.enemySpawns, w.currentWave);
    NextWaveIsLeast(t.enemySpawns, w.currentWave);
    WaveLives(t.id, t.enemySpawns, catalog, next);
    assert Started(t, catalog, w).0.enemies[|w.enemies|].alive;
  }

  /** Offering a room its next wave twice is offering it once. */
  lemma StartedTwice(t: RoomTemplate, catalog: EnemyCatalog, w: Waves)
    requires SpawnsAccepted(t.enemySpawns, catalog)
    ensures Started(t, catalog, Started(t, catalog, w).0).0 == Started(t, catalog, w).0
  {
    if Started(t, catalog, w).1 {
      hide HasLivingEnemy;
      StartedLives(t, catalog, w);
    }
  }

  /** And it neither clears a room nor makes a clear one unclear. */
  lemma StartingClearsNothing(t: RoomTemplate, catalog: EnemyCatalog, w: Waves)
    requires SpawnsAccepted(t.enemySpawns, catalog) && Populated(t, catalog, w)
    ensures Cleared(t, Started(t, catalog, w).0) <==> Cleared(t, w)
  {
    hide HasLivingEnemy, Populated;
    StartKeepsRoll(t, catalog, w);
    if Started(t, catalog, w).1 {
      StartedLives(t, catalog, w);
    }
  }

  lemma {:induction false} NothingUnspawned(spawns: seq<EnemySpawnTemplate>, catalog: EnemyCatalog, wave: UInt32)
    requires forall i :: 0 <= i < |spawns| ==> spawns[i].enemyTemplateId in catalog && spawns[i].wave <= wave
    ensures UnspawnedHp(spawns, catalog, wave) == 0
  {
    if spawns != [] {
      NothingUnspawned(spawns[..|spawns| - 1], catalog, wave);
    }
  }

  lemma {:induction false} SomethingUnspawned(
    spawns: seq<EnemySpawnTemplate>, catalog: EnemyCatalog, wave: UInt32, k: nat)
    requires forall i :: 0 <= i < |spawns| ==> spawns[i].enemyTemplateId in catalog
    requires k < |spawns| && spawns[k].wave > wave && catalog[spawns[k].enemyTemplateId] > 0
    ensures UnspawnedHp(spawns, catalog, wave) > 0
  {
    if k < |spawns| - 1 {
      SomethingUnspawned(spawns[..|spawns| - 1], catalog, wave, k);
    }
  }

  // ---------------------------------------------------------------- whole runs

  datatype RoomOp = StartWave | Hit(index: nat, damage: UInt32)

  /** One call on the room; a hit names an enemy by its place in the list and misses when
      there is none or it is dead. */
  ghost function ApplyOp(t: RoomTemplate, catalog: EnemyCatalog, w: Waves, op: RoomOp): Waves
    requires SpawnsAccepted(t.enemySpawns, catalog)
  {
    match op
    case StartWave => Started(t, catalog, w).0
    case Hit(i, damage) =>
      if i < |w.enemies| && w.enemies[i].alive && damage > 0 then Wounded(w, i, damage) else w
  }

  ghost function Dealt(w: Waves, op: RoomOp): nat {
    if op.Hit? && op.index < |w.enemies| && w.enemies[op.index].alive then
      if op.damage < w.enemies[op.index].currentHp then op.damage else w.enemies[op.index].currentHp
    else 0
  }

  ghost function RoomAfter(t: RoomTemplate, catalog: EnemyCatalog, ops: seq<RoomOp>): Waves
    requires SpawnsAccepted(t.enemySpawns, catalog)
  {
    if ops == [] then Waves(0, []) else ApplyOp(t, catalog, RoomAfter(t, catalog, ops[..|ops| - 1]), ops[|ops| - 1])
  }

  ghost function TotalDealt(t: RoomTemplate, catalog: EnemyCatalog, ops: seq<RoomOp>): nat
    requires SpawnsAccepted(t.enemySpawns, catalog)
  {
    if ops == [] then 0
    else
      TotalDealt(t, catalog, ops[..|ops| - 1]) + Dealt(RoomAfter(t, catalog, ops[..|ops| - 1]), ops[|ops| - 1])
  }

  /** Over every run: the enemies are exactly the spawns of the waves so far, and all damage
      ever dealt plus all hit points still to be taken is what the template held. */
  lemma {:induction false} HitPointsAreConserved(t: RoomTemplate, catalog: EnemyCatalog, ops: seq<RoomOp>)
    requires SpawnsAccepted(t.enemySpawns, catalog)
    ensures Populated(t, catalog, RoomAfter(t, catalog, ops))
    ensures RemainingHp(t, catalog, RoomAfter(t, catalog, ops)) + TotalDealt(t, catalog, ops) ==
      UnspawnedHp(t.enemySpawns, catalog, 0)
  {
    if ops == [] {
      LastWaveIsGreatest(t.enemySpawns);
    } else {
      var before := ops[..|ops| - 1];
      HitPointsAreConserved(t, catalog, before);
      var w := RoomAfter(t, catalog, before);
      match ops[|ops| - 1]
      case StartWave => StartKeepsRoll(t, catalog, w);
      case Hit(i, damage) =>
        if i < |w.enemies| && w.enemies[i].alive && damage > 0 {
          HitKeepsRoll(t, catalog, w, w.enemies[i].entityId, damage, i);
        }
    }
  }

  /** Once clear, clear for good. */
  lemma {:induction false} ClearedForGood(t: RoomTemplate, catalog: EnemyCatalog, ops: seq<RoomOp>, more: seq<RoomOp>)
    requires SpawnsAccepted(t.enemySpawns, catalog)
    requires Cleared(t, RoomAfter(t, catalog, ops))
    ensures Cleared(t, RoomAfter(t, catalog, ops + more))
  {
    if more == [] {
      assert ops + more == ops;
    } else {
      var init := more[..|more| - 1];
      ClearedForGood(t, catalog, ops, init);
      assert (ops + more)[..|ops + more| - 1] == ops + init;
      var w := RoomAfter(t, catalog, ops + init);
      HitPointsAreConserved(t, catalog, ops + init);
      StartKeepsRoll(t, catalog, w);
      match more[|more| - 1]
      case StartWave =>
      case Hit(i, damage) => // nobody is left to hit
    }
  }

  // ---------------------------------------------------------------- the room object

  class RoomState {
    const roomTemplate: RoomTemplate
    const enemyCatalog: EnemyCatalog
    const lastWave: UInt32
    var currentWave: UInt32
    var enemies: seq<EnemyState>
    var obstacles: seq<ObstacleState>

    ghost predicate Valid() reads this {
      && SpawnsAccepted(roomTemplate.enemySpawns, enemyCatalog)
      && lastWave == LastWave(roomTemplate.enemySpawns)
      && Populated(roomTemplate, enemyCatalog, Progress())
      && |obstacles| == |roomTemplate.obstacles|
    }

    ghost function Progress(): Waves reads this {
      Waves(currentWave, enemies)
    }

    constructor (roomTemplate: RoomTemplate, enemyCatalog: EnemyCatalog)
      requires SpawnsAccepted(roomTemplate.enemySpawns, enemyCatalog)
      ensures Valid() && this.roomTemplate == roomTemplate && this.enemyCatalog == enemyCatalog
      ensures Progress() == Waves(0, []) && Standing(roomTemplate.obstacles, obstacles)
    {
      var last: UInt32 := 0;
      var i := 0;
      while i < |roomTemplate.enemySpawns|
        invariant 0 <= i <= |roomTemplate.enemySpawns|
        invariant last == LastWave(roomTemplate.enemySpawns[..i])
      {
        assert roomTemplate.enemySpawns[..i + 1][..i] == roomTemplate.enemySpawns[..i];
        last := if roomTemplate.enemySpawns[i].wave > last then roomTemplate.enemySpawns[i].wave else last;
        i := i + 1;
      }
      assert roomTemplate.enemySpawns[..i] == roomTemplate.enemySpawns;
      var initial: seq<ObstacleState> := [];
      var j := 0;
      while j < |roomTemplate.obstacles|
        invariant 0 <= j <= |roomTemplate.obstacles| && Standing(roomTemplate.obstacles[..j], initial)
      {
        var o := roomTemplate.obstacles[j];
        initial := initial + [ObstacleState(o.id, o.maxHp, o.destructible, false)];
        j := j + 1;
      }
      this.roomTemplate, this.enemyCatalog, lastWave := roomTemplate, enemyCatalog, last;
      currentWave, enemies, obstacles := 0, [], initial;
    }

    /** The obstacles of the template, in order and unharmed. */
    static ghost predicate Standing(templates: seq<ObstacleTemplate>, obstacles: seq<ObstacleState>) {
      && |obstacles| == |templates|
      && forall i :: 0 <= i < |templates| ==>
           obstacles[i] == ObstacleState(templates[i].id, templates[i].maxHp, templates[i].destructible, false)
    }

    /** HasLivingEnemy. */
    method AnyAlive() returns (living: bool)
      ensures living <==> HasLivingEnemy(enemies)
    {
      var i := 0;
      while i < |enemies|
        invariant 0 <= i <= |enemies|
        invariant forall j :: 0 <= j < i ==> !enemies[j].alive
      {
        if enemies[i].alive {
          return true;
        }
        i := i + 1;
      }
      living := false;
    }

    /** The search for the smallest wave not started yet. */
    method FindNextWave() returns (nextWave: UInt32)
      ensures nextWave == NextWave(roomTemplate.enemySpawns, currentWave)
    {
      var spawns := roomTemplate.enemySpawns;
      nextWave := 0;
      var i := 0;
      while i < |spawns|
        invariant 0 <= i <= |spawns|
        invariant nextWave == NextWave(spawns[..i], currentWave)
      {
        assert spawns[..i + 1][..i] == spawns[..i];
        if spawns[i].wave > currentWave && (nextWave == 0 || spawns[i].wave < nextWave) {
          nextWave := spawns[i].wave;
        }
        i := i + 1;
      }
      assert spawns[..i] == spawns;
    }

    method SpawnWave(wave: UInt32)
      requires SpawnsAccepted(roomTemplate.enemySpawns, enemyCatalog)
      modifies this`enemies
      ensures enemies == old(enemies) + WaveEnemies(roomTemplate.id, roomTemplate.enemySpawns, enemyCatalog, wave)
    {
      var spawns := roomTemplate.enemySpawns;
      ghost var before := enemies;
      var i := 0;
      while i < |spawns|
        invariant 0 <= i <= |spawns|
        invariant enemies == before + WaveEnemies(roomTemplate.id, spawns[..i], enemyCatalog, wave)
      {
        assert spawns[..i + 1][..i] == spawns[..i];
        if spawns[i].wave == wave {
          enemies := enemies + [MakeEnemy(roomTemplate.id, spawns[i], enemyCatalog[spawns[i].enemyTemplateId])];
        }
        i := i + 1;
      }
      assert spawns[..i] == spawns;
    }

    method StartNextWave() returns (started: bool)
      requires Valid()
      modifies this`currentWave, this`enemies
      ensures Valid() && (Progress(), started) == Started(roomTemplate, enemyCatalog, old(Progress()))
    {
      StartKeepsRoll(roomTemplate, enemyCatalog, Progress());
      hide Populated, NextWave, WaveEnemies, LastWave;
      var living := AnyAlive();
      if living {
        return false;
      }
      var nextWave := FindNextWave();
      if nextWave == 0 {
        return false;
      }
      SpawnWave(nextWave);
      currentWave := nextWave;
      started := true;
    }

    /** Finds the enemy by its entity id; the id belongs to at most one enemy. */
    method ApplyEnemyDamage(entityId: DungeonEntityId, damage: UInt32) returns (hit: bool)
      requires Valid()
      modifies this`enemies
      ensures Valid()
      ensures hit <==> exists i :: Hittable(old(Progress()), entityId, damage, i)
      ensures forall i :: Hittable(old(Progress()), entityId, damage, i) ==>
        Progress() == Wounded(old(Progress()), i, damage)
      ensures !hit ==> enemies == old(enemies)
    {
      UniqueEntityIds();
      var i := 0;
      while i < |enemies| && enemies[i].entityId != entityId
        invariant 0 <= i <= |enemies|
        invariant forall j :: 0 <= j < i ==> enemies[j].entityId != entityId
      {
        i := i + 1;
      }
      if i == |enemies| || !enemies[i].alive || damage == 0 {
        return false;
      }
      assert Hittable(Progress(), entityId, damage, i);
      HitKeepsRoll(roomTemplate, enemyCatalog, Progress(), entityId, damage, i);
      enemies := enemies[i := Wound(enemies[i], damage)];
      hit := true;
    }

    lemma UniqueEntityIds()
      requires Valid()
      ensures forall i, j :: 0 <= i < j < |enemies| ==> enemies[i].entityId != enemies[j].entityId
    {
      forall i, j | 0 <= i < j < |enemies|
        ensures enemies[i].entityId != enemies[j].entityId
      {
        var k := SpawnOf(roomTemplate, enemyCatalog, Progress(), i);
        var l := SpawnOf(roomTemplate, enemyCatalog, Progress(), j);
        if enemies[i].entityId == enemies[j].entityId {
          EntityIdsAreDistinct(roomTemplate.id, enemies[i].spawnId, roomTemplate.id, enemies[j].spawnId);
        }
      }
    }

    method IsCleared() returns (cleared: bool)
      requires Valid()
      ensures cleared <==> Cleared(roomTemplate, Progress())
      ensures cleared <==> forall k :: 0 <= k < |roomTemplate.enemySpawns| ==>
        SpawnedAndKilled(Progress(), roomTemplate.enemySpawns[k])
    {
      ClearedMeansAllKilled(roomTemplate, enemyCatalog, Progress());
      var living := AnyAlive();
      cleared := currentWave == lastWave && !living;
    }

    /** Hits the first obstacle of that id, if it stands and can break, and no other. Damage only
        ever opens the way: a position that was valid stays valid. */
    method ApplyObstacleDamage(obstacleId: ObstacleId, damage: UInt32) returns (hit: bool)
      requires Valid()
      modifies this`obstacles
      ensures Valid()
      ensures hit <==> damage > 0 && exists k :: Breakable(old(obstacles), obstacleId, k)
      ensures forall k :: Breakable(old(obstacles), obstacleId, k) && damage > 0 ==>
        Damaged(old(obstacles), obstacles, damage, k)
      ensures !hit ==> obstacles == old(obstacles)
      ensures forall position :: old(PositionResult(position)).Valid? ==> PositionResult(position).Valid?
    {
      var i := 0;
      while i < |obstacles| && obstacles[i].obstacleId != obstacleId
        invariant 0 <= i <= |obstacles|
        invariant forall j :: 0 <= j < i ==> obstacles[j].obstacleId != obstacleId
      {
        i := i + 1;
      }
      if i == |obstacles| || !obstacles[i].destructible || obstacles[i].destroyed || damage == 0 {
        return false;
      }
      assert Breakable(obstacles, obstacleId, i);
      var o := obstacles[i];
      if damage >= o.currentHp {
        obstacles := obstacles[i := o.(currentHp := 0, destroyed := true)];
      } else {
        obstacles := obstacles[i := o.(currentHp := o.currentHp - damage)];
      }
      hit := true;
      assert Damaged(old(obstacles), obstacles, damage, i);
    }

    /** Obstacle k is the first one of that id, still stands and can break. */
    static ghost predicate Breakable(obstacles: seq<ObstacleState>, obstacleId: ObstacleId, k: nat) {
      && k < |obstacles| && obstacles[k].obstacleId == obstacleId
      && (forall j :: 0 <= j < k ==> obstacles[j].obstacleId != obstacleId)
      && obstacles[k].destructible && !obstacles[k].destroyed
    }

    /** Obstacle k, and no other, has lost the damage and broken if it had no more. */
    static ghost predicate Damaged(before: seq<ObstacleState>, after: seq<ObstacleState>, damage: UInt32, k: nat)
      requires k < |before|
    {
      var o := before[k];
      after == before[k := o.(currentHp := if damage < o.currentHp then o.currentHp - damage else 0,
                              destroyed := damage >= o.currentHp)]
    }

    /** Whether an obstacle that still stands covers a position. */
    ghost predicate Blocked(position: Position)
      requires |obstacles| == |roomTemplate.obstacles|
      reads this`obstacles
    {
      exists k :: 0 <= k < |obstacles| && !obstacles[k].destroyed
        && IsInsideCollisionBox(roomTemplate.obstacles[k].collision, position)
    }

    ghost function PositionResult(position: Position): PositionCheckResult
      requires |obstacles| == |roomTemplate.obstacles|
      reads this`obstacles
    {
      if position.z < 0.0 || !IsInsideRoom(roomTemplate, position) then OutsideRoom
      else if Blocked(position) then BlockedByObstacle
      else PositionCheckResult.Valid
    }

    method CheckPosition(position: Position) returns (result: PositionCheckResult)
      requires Valid()
      ensures result == PositionResult(position)
      ensures result.OutsideRoom? <==>
        || position.z < 0.0 || position.x < 0.0 || position.x > roomTemplate.width
        || position.y < 0.0 || position.y > roomTemplate.depth
      ensures result.Valid? <==> !result.OutsideRoom? && forall k :: 0 <= k < |obstacles| && !obstacles[k].destroyed ==>
        var box := roomTemplate.obstacles[k].collision;
        || position.x < box.minimum.x || position.x > box.maximum.x
        || position.y < box.minimum.y || position.y > box.maximum.y
        || position.z < box.minimum.z || position.z > box.maximum.z
    {
      if position.z < 0.0 || !IsInsideRoom(roomTemplate, position) {
        return OutsideRoom;
      }
      var index := 0;
      while index < |roomTemplate.obstacles|
        invariant 0 <= index <= |roomTemplate.obstacles|
        invariant forall k :: 0 <= k < index ==>
          obstacles[k].destroyed || !IsInsideCollisionBox(roomTemplate.obstacles[k].collision, position)
      {
        if !obstacles[index].destroyed &&
           IsInsideCollisionBox(roomTemplate.obstacles[index].collision, position) {
          return BlockedByObstacle;
        }
        index := index + 1;
      }
      result := PositionCheckResult.Valid;
    }
  }
}
