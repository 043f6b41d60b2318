/** The combat tick of src/DungeonCombatProcessor.cpp over live objects. The hit box test is a
    parameter, and a skill carries the damage it does. */
module DungeonCombatProcessors {
  import opened Common
  import opened DungeonRoom
  import opened RoomStates
  import opened PlayerState
  import SeatIndex
  import opened DungeonInstances
  import opened InputLane
  import opened UdpSession
  import opened DungeonUdpManagers
  import opened CombatRounds
  import opened CombatBlows

  datatype SkillTemplate = SkillTemplate(skill: Skill, damage: UInt32)

  type HitBox = (PendingHit, Position, Position) -> bool

  /** A hit that strikes: in which room, from where. */
  datatype Blow = Blow(hit: PendingHit, roomId: RoomId, position: Position)

  // ---------------------------------------------------------------- a blow on a room

  predicate Caught(inside: HitBox, blow: Blow, e: EnemyState) {
    blow.hit.damage > 0 && e.alive && inside(blow.hit, blow.position, e.position)
  }

  /** Every living enemy in the hit box is wounded once, nobody else. */
  function StruckEnemies(inside: HitBox, blow: Blow, enemies: seq<EnemyState>): seq<EnemyState> {
    seq(|enemies|, i requires 0 <= i < |enemies| =>
      if Caught(inside, blow, enemies[i]) then Wound(enemies[i], blow.hit.damage) else enemies[i])
  }

  function CaughtCount(inside: HitBox, blow: Blow, enemies: seq<EnemyState>): nat {
    if enemies == [] then 0
    else
      CaughtCount(inside, blow, enemies[..|enemies| - 1]) +
        if Caught(inside, blow, enemies[|enemies| - 1]) then 1 else 0
  }

  /** The hit points a blow takes. */
  function TakenBy(inside: HitBox, blow: Blow, enemies: seq<EnemyState>): nat {
    if enemies == [] then 0
    else
      var e := enemies[|enemies| - 1];
      TakenBy(inside, blow, enemies[..|enemies| - 1]) +
        if !Caught(inside, blow, e) then 0 else if blow.hit.damage < e.currentHp then blow.hit.damage else e.currentHp
  }

  lemma {:induction false} StruckHp(inside: HitBox, blow: Blow, enemies: seq<EnemyState>)
    ensures LivingHp(StruckEnemies(inside, blow, enemies)) + TakenBy(inside, blow, enemies) == LivingHp(enemies)
  {
    if enemies != [] {
      var init := enemies[..|enemies| - 1];
      StruckHp(inside, blow, init);
      assert StruckEnemies(inside, blow, enemies)[..|enemies| - 1] == StruckEnemies(inside, blow, init);
    }
  }

  /** What a blow does to one enemy: one that lives and stands in the hit box of a blow with damage
      loses that much, or what it has left and with it its life; any other is untouched. */
  ghost predicate HitOrSpared(inside: HitBox, blow: Blow, e: EnemyState, e': EnemyState) {
    if e.alive && blow.hit.damage > 0 && inside(blow.hit, blow.position, e.position) then
      if blow.hit.damage < e.currentHp then e' == e.(currentHp := e.currentHp - blow.hit.damage)
      else e' == e.(currentHp := 0, alive := false)
    else e' == e
  }

  /** The living enemies of a list that stand in the hit box of a blow with damage. */
  ghost function HitBy(inside: HitBox, blow: Blow, enemies: seq<EnemyState>): set<nat> {
    set i: nat | i < |enemies| && enemies[i].alive && blow.hit.damage > 0
      && inside(blow.hit, blow.position, enemies[i].position)
  }

  /** A blow lands on each enemy of a list, and so many are hit. */
  ghost predicate BlowLanded(
    inside: HitBox, blow: Blow, before: seq<EnemyState>, after: seq<EnemyState>, hitCount: nat)
  {
    && |after| == |before|
    && (forall i :: 0 <= i < |before| ==> HitOrSpared(inside, blow, before[i], after[i]))
    && hitCount == |HitBy(inside, blow, before)|
  }

  lemma StruckAsLanded(inside: HitBox, blow: Blow, enemies: seq<EnemyState>)
    ensures BlowLanded(
      inside, blow, enemies, StruckEnemies(inside, blow, enemies), CaughtCount(inside, blow, enemies))
  {
    hide HitOrSpared, Caught, Wound;
    CaughtAreHit(inside, blow, enemies);
    forall i | 0 <= i < |enemies|
      ensures HitOrSpared(inside, blow, enemies[i], StruckEnemies(inside, blow, enemies)[i])
    {
      StruckOne(inside, blow, enemies[i]);
    }
  }

  lemma StruckOne(inside: HitBox, blow: Blow, e: EnemyState)
    ensures HitOrSpared(inside, blow, e, if Caught(inside, blow, e) then Wound(e, blow.hit.damage) else e)
  {
  }

  lemma {:induction false} CaughtAreHit(inside: HitBox, blow: Blow, enemies: seq<EnemyState>)
    ensures CaughtCount(inside, blow, enemies) == |HitBy(inside, blow, enemies)|
  {
    if enemies == [] {
      assert HitBy(inside, blow, enemies) == {};
    } else {
      var init, last := enemies[..|enemies| - 1], enemies[|enemies| - 1];
      CaughtAreHit(inside, blow, init);
      assert HitBy(inside, blow, enemies) ==
        HitBy(inside, blow, init) + if Caught(inside, blow, last) then {|enemies| - 1} else {};
    }
  }

  /** A blow keeps the room's roll: the same enemies in the same order, each still the one its spawn
      describes, nobody revived; it lands on those that live in its hit box and leaves the others
      alone; and what the room has left to take drops by exactly what they lose. */
  lemma BlowKeepsRoll(inside: HitBox, blow: Blow, t: RoomTemplate, catalog: EnemyCatalog, w: Waves)
    requires SpawnsAccepted(t.enemySpawns, catalog) && Populated(t, catalog, w)
    ensures
      var w' := w.(enemies := StruckEnemies(inside, blow, w.enemies));
      && Populated(t, catalog, w')
      && BlowLanded(inside, blow, w.enemies, w'.enemies, CaughtCount(inside, blow, w.enemies))
      && (forall i :: 0 <= i < |w.enemies| ==>
            w'.enemies[i].entityId == w.enemies[i].entityId && (w'.enemies[i].alive ==> w.enemies[i].alive))
      && RemainingHp(t, catalog, w') + TakenBy(inside, blow, w.enemies) == RemainingHp(t, catalog, w)
  {
    hide BlowLanded;
    var w' := w.(enemies := StruckEnemies(inside, blow, w.enemies));
    StruckHp(inside, blow, w.enemies);
    StruckAsLanded(inside, blow, w.enemies);
    assert forall i :: 0 <= i < |w.enemies| ==> w'.enemies[i].spawnId == w.enemies[i].spawnId;
    assert EnemyIds(w'.enemies) == EnemyIds(w.enemies);
  }

  /** The loop over a copy of the room's enemies finds each of them again by its id. */
  method StrikeRoom(inside: HitBox, blow: Blow, room: RoomState) returns (hitCount: nat)
    requires room.Valid()
    modifies room`enemies
    ensures room.Valid()
    ensures room.enemies == StruckEnemies(inside, blow, old(room.enemies))
    ensures hitCount == CaughtCount(inside, blow, old(room.enemies))
    ensures BlowLanded(inside, blow, old(room.enemies), room.enemies, hitCount)
  {
    hide BlowLanded, Caught, Wound, RoomState.Valid;
    StruckAsLanded(inside, blow, room.enemies);
    hitCount := 0;
    var copy := room.enemies;
    var i := 0;
    while i < |copy|
      invariant 0 <= i <= |copy| && room.Valid()
      invariant room.enemies == StruckEnemies(inside, blow, copy[..i]) + copy[i..]
      invariant hitCount == CaughtCount(inside, blow, copy[..i])
    {
      assert copy[..i + 1][..i] == copy[..i];
      StruckNext(inside, blow, copy, i);
      hitCount := hitCount + CaughtCountNext(inside, blow, copy[i]);
      StrikeEnemy(inside, blow, room, copy[i], i);
      i := i + 1;
    }
    assert copy[..i] == copy;
  }

  function CaughtCountNext(inside: HitBox, blow: Blow, e: EnemyState): nat {
    if Caught(inside, blow, e) then 1 else 0
  }

  lemma StruckNext(inside: HitBox, blow: Blow, enemies: seq<EnemyState>, i: nat)
    requires i < |enemies|
    ensures
      var before := StruckEnemies(inside, blow, enemies[..i]) + enemies[i..];
      var e := enemies[i];
      && before[i] == e
      && StruckEnemies(inside, blow, enemies[..i + 1]) + enemies[i + 1..] ==
           before[i := if Caught(inside, blow, e) then Wound(e, blow.hit.damage) else e]
  {
  }

  method StrikeEnemy(inside: HitBox, blow: Blow, room: RoomState, enemy: EnemyState, ghost i: nat)
    requires room.Valid() && i < |room.enemies| && room.enemies[i] == enemy
    modifies room`enemies
    ensures room.Valid()
    ensures room.enemies == old(room.enemies)[i :=
      if Caught(inside, blow, enemy) then Wound(enemy, blow.hit.damage) else enemy]
  {
    if blow.hit.damage > 0 && enemy.alive && inside(blow.hit, blow.position, enemy.position) {
      assert Hittable(room.Progress(), enemy.entityId, blow.hit.damage, i);
      var hit := room.ApplyEnemyDamage(enemy.entityId, blow.hit.damage);
    }
  }

  /** What a blow does to a dungeon's rooms: nothing when its room is not there. */
  ghost function AfterBlow(inside: HitBox, rooms: map<RoomId, Waves>, blow: Blow): map<RoomId, Waves> {
    if blow.roomId !in rooms then rooms
    else
      var room := rooms[blow.roomId];
      rooms[blow.roomId := room.(enemies := StruckEnemies(inside, blow, room.enemies))]
  }

  ghost function AfterBlows(inside: HitBox, rooms: map<RoomId, Waves>, blows: seq<Blow>): map<RoomId, Waves> {
    if blows == [] then rooms
    else AfterBlow(inside, AfterBlows(inside, rooms, blows[..|blows| - 1]), blows[|blows| - 1])
  }

  /** What a blow does to all rooms of a dungeon: it lands in its own, and the others stay. */
  ghost predicate BlowLandedIn(
    inside: HitBox, blow: Blow, before: map<RoomId, Waves>, after: map<RoomId, Waves>, hitCount: nat)
  {
    && after.Keys == before.Keys
    && (forall id :: id in before && id != blow.roomId ==> after[id] == before[id])
    && (blow.roomId in before ==>
          && after[blow.roomId].currentWave == before[blow.roomId].currentWave
          && BlowLanded(inside, blow, before[blow.roomId].enemies, after[blow.roomId].enemies, hitCount))
    && (blow.roomId !in before ==> hitCount == 0)
  }

  /** Blow after blow, each of a session's pending hit from where its character stands: the rooms
      before each of them and after the last, and the enemies hit so far. */
  ghost predicate BlowByBlow(
    inside: HitBox, order: seq<SessionId>, hits: map<SessionId, PendingHit>,
    places: map<SessionId, (RoomId, Position)>, rooms: seq<map<RoomId, Waves>>, counts: seq<nat>)
  {
    && |rooms| == |counts| == |order| + 1 && counts[0] == 0
    && (forall s | s in order :: s in hits && s in places)
    && forall k :: 0 <= k < |order| ==>
         && counts[k] <= counts[k + 1]
         && BlowLandedIn(inside, Blow(hits[order[k]], places[order[k]].0, places[order[k]].1),
              rooms[k], rooms[k + 1], counts[k + 1] - counts[k])
  }

  ghost predicate AllLanded(
    inside: HitBox, order: seq<SessionId>, hits: map<SessionId, PendingHit>,
    places: map<SessionId, (RoomId, Position)>, before: map<RoomId, Waves>, after: map<RoomId, Waves>, hitCount: nat)
  {
    exists rooms: seq<map<RoomId, Waves>>, counts: seq<nat> ::
      BlowByBlow(inside, order, hits, places, rooms, counts) &&
      rooms[0] == before && rooms[|order|] == after && counts[|order|] == hitCount
  }

  lemma {:induction false} BlowsLand(
    inside: HitBox, order: seq<SessionId>, hits: map<SessionId, PendingHit>,
    places: map<SessionId, (RoomId, Position)>, before: map<RoomId, Waves>)
    requires forall s | s in order :: s in hits && s in places
    ensures AllLanded(inside, order, hits, places, before,
      AfterBlows(inside, before, BlowsOf(order, hits, places)), TotalCaught(inside, before, BlowsOf(order, hits, places)))
  {
    if order == [] {
      assert BlowByBlow(inside, order, hits, places, [before], [0]);
    } else {
      hide AllLanded, BlowLandedIn, AfterBlows, TotalCaught, AfterBlow, CaughtCount, BlowsOf;
      var init, s := order[..|order| - 1], order[|order| - 1];
      BlowsLand(inside, init, hits, places, before);
      assert init + [s] == order;
      OneMoreBlow(inside, before, init, hits, places, s);
      var blow := Blow(hits[s], places[s].0, places[s].1);
      var now := AfterBlows(inside, before, BlowsOf(init, hits, places));
      BlowLands(inside, blow, now);
      LandsOneMore(inside, init, hits, places, before, now, TotalCaught(inside, before, BlowsOf(init, hits, places)),
        s, AfterBlow(inside, now, blow), if blow.roomId in now then CaughtCount(inside, blow, now[blow.roomId].enemies) else 0);
    }
  }

  lemma BlowLands(inside: HitBox, blow: Blow, rooms: map<RoomId, Waves>)
    ensures BlowLandedIn(inside, blow, rooms, AfterBlow(inside, rooms, blow),
      if blow.roomId in rooms then CaughtCount(inside, blow, rooms[blow.roomId].enemies) else 0)
  {
    hide BlowLanded, StruckEnemies, CaughtCount;
    if blow.roomId in rooms {
      StruckAsLanded(inside, blow, rooms[blow.roomId].enemies);
    }
  }

  lemma LandsOneMore(
    inside: HitBox, order: seq<SessionId>, hits: map<SessionId, PendingHit>,
    places: map<SessionId, (RoomId, Position)>, before: map<RoomId, Waves>, now: map<RoomId, Waves>, hitCount: nat,
    s: SessionId, after: map<RoomId, Waves>, more: nat)
    requires AllLanded(inside, order, hits, places, before, now, hitCount) && s in hits && s in places
    requires BlowLandedIn(inside, Blow(hits[s], places[s].0, places[s].1), now, after, more)
    ensures AllLanded(inside, order + [s], hits, places, before, after, hitCount + more)
  {
    hide BlowLandedIn;
    var rooms: seq<map<RoomId, Waves>>, counts: seq<nat> :|
      BlowByBlow(inside, order, hits, places, rooms, counts) &&
      rooms[0] == before && rooms[|order|] == now && counts[|order|] == hitCount;
    assert BlowByBlow(inside, order + [s], hits, places, rooms + [after], counts + [hitCount + more]);
  }

  /** A caster who lives, is idle, and has the skill off its cooldown and the mana for it. */
  ghost predicate Castable(f: Fighter, skill: Skill) {
    && f.hp > 0 && skill.id != 0 && skill.activeTicks > 0 && skill.id !in f.cooldowns
    && f.action.phase.Idle? && f.mp >= skill.manaCost
  }

  // ---------------------------------------------------------------- the characters of a dungeon

  ghost function Fighters(dungeon: DungeonInstance): map<SessionId, Fighter>
    reads dungeon`players, dungeon.players.Values
  {
    map s | s in dungeon.players :: dungeon.players[s].View()
  }

  lemma ReadyFighters(dungeon: DungeonInstance)
    requires Ready(dungeon)
    ensures AllFit(Fighters(dungeon)) && SeatIndex.Injective(dungeon.players)
    ensures ListsOnce(dungeon.participants, dungeon.players.Keys)
  {
  }

  /** The blows of some sessions, in a given order. */
  ghost function BlowsOf(order: seq<SessionId>, hits: map<SessionId, PendingHit>, places: map<SessionId, (RoomId, Position)>)
    : seq<Blow>
    requires forall s | s in order :: s in hits && s in places
  {
    seq(|order|, i requires 0 <= i < |order| => Blow(hits[order[i]], places[order[i]].0, places[order[i]].1))
  }

  method TickPlayer(dungeon: DungeonInstance, s: SessionId, player: DungeonPlayerState)
    requires dungeon.Manned() && SeatIndex.Injective(dungeon.players)
    requires s in dungeon.players && player == dungeon.players[s]
    modifies player`cooldowns, player`action
    ensures dungeon.Manned() && Places(dungeon) == old(Places(dungeon))
    ensures Fighters(dungeon) == TickedOne(old(Fighters(dungeon)), s)
  {
    hide DungeonPlayerState.Valid, DungeonPlayerState.View, Ticked, Fit;
    IsFit(player);
    player.AdvanceCombatTick();
  }

  lemma IsFit(player: DungeonPlayerState)
    requires player.Valid()
    ensures Fit(player.View())
  {
  }

  ghost function TickedOne(fighters: map<SessionId, Fighter>, s: SessionId): map<SessionId, Fighter> {
    if s in fighters && Fit(fighters[s]) then fighters[s := Ticked(fighters[s])] else fighters
  }

  ghost function TickedSome(fighters: map<SessionId, Fighter>, some: seq<SessionId>): map<SessionId, Fighter> {
    map s | s in fighters :: if s in some && Fit(fighters[s]) then Ticked(fighters[s]) else fighters[s]
  }

  lemma TickedSomeNext(fighters: map<SessionId, Fighter>, order: seq<SessionId>, i: nat)
    requires i < |order| && Distinct(order) && order[i] in fighters
    ensures TickedSome(fighters, order[..i + 1]) == TickedOne(TickedSome(fighters, order[..i]), order[i])
    ensures TickedSome(fighters, order[..i])[order[i]] == fighters[order[i]]
  {
    assert order[..i + 1] == order[..i] + [order[i]];
    assert order[i] !in order[..i];
  }

  /** The first loop of Process: every participant's combat clock ticks once. */
  method TickPlayers(dungeon: DungeonInstance)
    requires dungeon.Indexed() && dungeon.Manned() && AllFit(Fighters(dungeon))
    modifies dungeon.players.Values`cooldowns, dungeon.players.Values`action
    ensures dungeon.Manned() && Places(dungeon) == old(Places(dungeon))
    ensures Fighters(dungeon) == TickedAll(old(Fighters(dungeon)))
  {
    hide SeatIndex.Injective, Distinct, TickedSome, TickedOne, Fit, Fighters, Places, DungeonInstance.Manned;
    SeatedOnce(dungeon.Containers());
    hide SeatIndex.Indexed;
    ghost var before := Fighters(dungeon);
    NobodyTicked(before);
    FightersOf(dungeon);
    var i := 0;
    while i < |dungeon.participants|
      invariant 0 <= i <= |dungeon.participants| && dungeon.Manned() && Places(dungeon) == old(Places(dungeon))
      invariant Fighters(dungeon) == TickedSome(before, dungeon.participants[..i])
    {
      var s := dungeon.participants[i];
      TickedSomeNext(before, dungeon.participants, i);
      if s in dungeon.players {
        TickPlayer(dungeon, s, dungeon.players[s]);
      }
      i := i + 1;
    }
    assert dungeon.participants[..i] == dungeon.participants;
    EverybodyTicked(before, dungeon.participants);
  }

  lemma SeatedOnce(x: SeatIndex.Index)
    requires SeatIndex.Indexed(x)
    ensures SeatIndex.Injective(x.players) && Distinct(x.participants) && forall s :: s in x.participants <==> s in x.players
  {
  }

  lemma FightersOf(dungeon: DungeonInstance)
    ensures Fighters(dungeon).Keys == dungeon.players.Keys == Places(dungeon).Keys
  {
  }

  lemma NobodyTicked(fighters: map<SessionId, Fighter>)
    ensures TickedSome(fighters, []) == fighters
  {
  }

  lemma EverybodyTicked(fighters: map<SessionId, Fighter>, order: seq<SessionId>)
    requires AllFit(fighters) && forall s :: s in order <==> s in fighters
    ensures TickedSome(fighters, order) == TickedAll(fighters)
  {
  }

  // ---------------------------------------------------------------- resolution

  ghost function CombatOf(dungeon: DungeonInstance, hits: map<SessionId, PendingHit>): Combat
    reads dungeon`players, dungeon.players.Values
  {
    Combat(Fighters(dungeon), hits)
  }

  /** A resolution that has been through some of the hits. */
  ghost function ResolvedSome(c: Combat, done: set<SessionId>): map<SessionId, PendingHit> {
    map s | s in c.hits && !(s in done && Ends(c, s)) :: c.hits[s]
  }

  ghost function StruckSome(c: Combat, done: set<SessionId>): set<SessionId> {
    set s | s in c.hits && s in done && Due(c, s)
  }

  lemma ResolutionBegins(c: Combat)
    ensures ResolvedSome(c, {}) == c.hits && StruckSome(c, {}) == {}
  {
  }

  lemma ResolutionEnds(c: Combat)
    ensures ResolvedSome(c, c.hits.Keys) == Resolved(c).hits && StruckSome(c, c.hits.Keys) == Struck(c)
  {
  }

  lemma ResolvedOneMore(c: Combat, done: set<SessionId>, s: SessionId)
    requires s in c.hits && s !in done
    ensures s in ResolvedSome(c, done) && s !in StruckSome(c, done)
    ensures ResolvedSome(c, done + {s}) == if Ends(c, s) then ResolvedSome(c, done) - {s} else ResolvedSome(c, done)
    ensures StruckSome(c, done + {s}) == StruckSome(c, done) + if Due(c, s) then {s} else {}
  {
  }

  ghost function TotalCaught(inside: HitBox, rooms: map<RoomId, Waves>, blows: seq<Blow>): nat {
    if blows == [] then 0
    else
      var before := AfterBlows(inside, rooms, blows[..|blows| - 1]);
      var blow := blows[|blows| - 1];
      TotalCaught(inside, rooms, blows[..|blows| - 1]) +
        if blow.roomId in before then CaughtCount(inside, blow, before[blow.roomId].enemies) else 0
  }

  /** What one more blow adds. */
  lemma OneMoreBlow(
    inside: HitBox, rooms: map<RoomId, Waves>, order: seq<SessionId>, hits: map<SessionId, PendingHit>,
    places: map<SessionId, (RoomId, Position)>, s: SessionId)
    requires forall t | t in order + [s] :: t in hits && t in places
    ensures
      var blows := BlowsOf(order, hits, places);
      var blow := Blow(hits[s], places[s].0, places[s].1);
      var before := AfterBlows(inside, rooms, blows);
      && BlowsOf(order + [s], hits, places) == blows + [blow]
      && AfterBlows(inside, rooms, blows + [blow]) == AfterBlow(inside, before, blow)
      && TotalCaught(inside, rooms, blows + [blow]) == TotalCaught(inside, rooms, blows) +
           if blow.roomId in before then CaughtCount(inside, blow, before[blow.roomId].enemies) else 0
  {
    var blows := BlowsOf(order, hits, places);
    var blow := Blow(hits[s], places[s].0, places[s].1);
    assert (blows + [blow])[..|blows|] == blows;
    assert forall t :: t in order ==> t in order + [s];
    assert BlowsOf(order + [s], hits, places) == blows + [blow];
  }

  method StrikeIn(inside: HitBox, dungeon: DungeonInstance, blow: Blow, room: RoomState) returns (hitCount: nat)
    requires dungeon.Furnished() && blow.roomId in dungeon.rooms && room == dungeon.rooms[blow.roomId]
    modifies room`enemies
    ensures dungeon.Furnished() && dungeon.RoomWaves() == AfterBlow(inside, old(dungeon.RoomWaves()), blow)
    ensures hitCount == CaughtCount(inside, blow, old(dungeon.RoomWaves())[blow.roomId].enemies)
  {
    hide RoomState.Valid, StruckEnemies, CaughtCount;
    hitCount := StrikeRoom(inside, blow, room);
  }

  class DungeonCombatProcessor {
    const udpManager: DungeonUdpManager
    const skillCatalog: map<SkillId, SkillTemplate>
    const inside: HitBox
    var pendingHits: map<DungeonId, map<SessionId, PendingHit>>

    constructor (udpManager: DungeonUdpManager, skillCatalog: map<SkillId, SkillTemplate>, inside: HitBox)
      ensures this.udpManager == udpManager && this.skillCatalog == skillCatalog && this.inside == inside
      ensures pendingHits == map[]
    {
      this.udpManager, this.skillCatalog, this.inside, pendingHits := udpManager, skillCatalog, inside, map[];
    }

    /** One hit of the table: whether it leaves, and the enemies it wounds. */
    method ResolveOne(dungeon: DungeonInstance, s: SessionId, hit: PendingHit, ghost hits: map<SessionId, PendingHit>)
      returns (ends: bool, hitCount: nat)
      requires dungeon.Furnished() && s in hits && hits[s] == hit
      modifies dungeon.rooms.Values`enemies
      ensures dungeon.Furnished() && ends == Ends(CombatOf(dungeon, hits), s)
      ensures !Due(CombatOf(dungeon, hits), s) ==> dungeon.RoomWaves() == old(dungeon.RoomWaves()) && hitCount == 0
      ensures Due(CombatOf(dungeon, hits), s) ==>
        var blow := Blow(hit, Places(dungeon)[s].0, Places(dungeon)[s].1);
        && dungeon.RoomWaves() == AfterBlow(inside, old(dungeon.RoomWaves()), blow)
        && hitCount == if blow.roomId in old(dungeon.RoomWaves())
          then CaughtCount(inside, blow, old(dungeon.RoomWaves())[blow.roomId].enemies) else 0
    {
      ends, hitCount := true, 0;
      if s !in dungeon.players {
        return;
      }
      var player := dungeon.players[s];
      if player.currentHp == 0 || player.action.skillId != hit.skill.id {
        return;
      }
      if !player.action.phase.Active? {
        ends := false;
        return;
      }
      if player.roomId in dungeon.rooms {
        hitCount := StrikeIn(inside, dungeon, Blow(hit, player.roomId, player.position), dungeon.rooms[player.roomId]);
      }
    }

    /** ResolvePendingHits: the hits that are due strike, each once and in some order; those and
        the stale ones leave the table, the others stay. */
    method ResolvePendingHits(dungeon: DungeonInstance, hits: map<SessionId, PendingHit>)
      returns (waiting: map<SessionId, PendingHit>, hitCount: nat, ghost order: seq<SessionId>)
      requires dungeon.Furnished()
      modifies dungeon.rooms.Values`enemies
      ensures dungeon.Furnished() && waiting == Resolved(CombatOf(dungeon, hits)).hits
      ensures Strikes(inside, dungeon, hits, order, old(dungeon.RoomWaves()), hitCount)
    {
      hide DungeonInstance.Furnished, DungeonInstance.RoomWaves, Walk, ResolvedSome, CombatOf, StruckSoFar, Places;
      hide Resolved, Struck, AfterBlow, CaughtCount, Due, Ends;
      ghost var c := CombatOf(dungeon, hits);
      ghost var places, waves := Places(dungeon), dungeon.RoomWaves();
      waiting, hitCount, order := hits, 0, [];
      var rest := hits.Keys;
      ghost var done: set<SessionId> := {};
      HitsOf(dungeon, hits);
      WalkBegins(hits.Keys);
      ResolutionBegins(c);
      StrikesBegin(inside, c, places, waves);
      while rest != {}
        invariant Walk(hits.Keys, done, rest) && dungeon.Furnished()
        invariant CombatOf(dungeon, hits) == c && Places(dungeon) == places
        invariant waiting == ResolvedSome(c, done)
        invariant StruckSoFar(inside, c, places, done, order, waves, dungeon.RoomWaves(), hitCount)
        decreases |rest|
      {
        var s :| s in rest;
        WalkOn(hits.Keys, done, rest, s);
        waiting, hitCount, order := ResolveNext(dungeon, hits, waiting, hitCount, s, done, order, waves);
        rest := rest - {s};
        done := done + {s};
      }
      WalkEnds(hits.Keys, done, rest);
      ResolutionEnds(c);
    }

    /** The body of the resolution loop. */
    method ResolveNext(
      dungeon: DungeonInstance, hits: map<SessionId, PendingHit>, waiting: map<SessionId, PendingHit>, hitCount: nat,
      s: SessionId, ghost done: set<SessionId>, ghost order: seq<SessionId>, ghost waves: map<RoomId, Waves>)
      returns (waiting': map<SessionId, PendingHit>, hitCount': nat, ghost order': seq<SessionId>)
      requires dungeon.Furnished() && s in hits && s !in done
      requires CombatOf(dungeon, hits).hits == hits
      requires CombatOf(dungeon, hits).fighters.Keys == Places(dungeon).Keys
      requires waiting == ResolvedSome(CombatOf(dungeon, hits), done)
      requires StruckSoFar(inside, CombatOf(dungeon, hits), Places(dungeon), done, order, waves, dungeon.RoomWaves(), hitCount)
      modifies dungeon.rooms.Values`enemies
      ensures dungeon.Furnished() && waiting' == ResolvedSome(CombatOf(dungeon, hits), done + {s})
      ensures StruckSoFar(
        inside, CombatOf(dungeon, hits), Places(dungeon), done + {s}, order', waves, dungeon.RoomWaves(), hitCount')
    {
      hide DungeonInstance.Furnished, DungeonInstance.RoomWaves, ResolvedSome, CombatOf, StruckSoFar, Places;
      hide AfterBlow, CaughtCount, Due, Ends;
      ghost var c := CombatOf(dungeon, hits);
      ResolvedOneMore(c, done, s);
      StrikesNext(inside, c, Places(dungeon), done, order, waves, dungeon.RoomWaves(), hitCount, s);
      var ends, count := ResolveOne(dungeon, s, hits[s], hits);
      waiting' := if ends then waiting - {s} else waiting;
      hitCount' := hitCount + count;
      order' := if Due(c, s) then order + [s] else order;
    }
  
    // -------------------------------------------------------------- attacks

    /** One attack of the queue. */
    method TakeAttack(dungeon: DungeonInstance, hits: map<SessionId, PendingHit>, attack: Input<Attack>)
      returns (after: map<SessionId, PendingHit>, accepted: bool)
      requires dungeon.Manned() && SeatIndex.Injective(dungeon.players)
      modifies dungeon.players.Values`currentMp, dungeon.players.Values`cooldowns, dungeon.players.Values`action
      ensures dungeon.Manned() && Places(dungeon) == old(Places(dungeon))
      ensures CombatOf(dungeon, after) == AttackTaken(old(CombatOf(dungeon, hits)), QueuedOne(skillCatalog, attack))
      ensures accepted == Accepts(old(CombatOf(dungeon, hits)), QueuedOne(skillCatalog, attack))
      ensures accepted <==>
        && attack.sessionId in dungeon.players && attack.message.skillId in skillCatalog
        && Castable(old(Fighters(dungeon))[attack.sessionId], skillCatalog[attack.message.skillId].skill)
      ensures after == if !accepted then hits else
        hits[attack.sessionId :=
          PendingHit(skillCatalog[attack.message.skillId].skill, skillCatalog[attack.message.skillId].damage,
            attack.message.directionX, attack.message.directionY)]
    {
      AttackMeans(CombatOf(dungeon, hits), QueuedOne(skillCatalog, attack));
      hide DungeonInstance.Manned, SeatIndex.Injective, Fighters, Places, BeginResult, Begun;
      FightersOf(dungeon);
      RefusedBegin(Fighters(dungeon), QueuedOne(skillCatalog, attack));
      after, accepted := hits, false;
      if attack.sessionId in dungeon.players && attack.message.skillId in skillCatalog {
        var template := skillCatalog[attack.message.skillId];
        accepted := BeginIn(dungeon, attack.sessionId, dungeon.players[attack.sessionId], template.skill);
        if accepted {
          after := hits[attack.sessionId :=
            PendingHit(template.skill, template.damage, attack.message.directionX, attack.message.directionY)];
        }
      }
    }

    static method BeginIn(dungeon: DungeonInstance, s: SessionId, player: DungeonPlayerState, skill: Skill)
      returns (began: bool)
      requires dungeon.Manned() && SeatIndex.Injective(dungeon.players)
      requires s in dungeon.players && player == dungeon.players[s]
      modifies player`currentMp, player`cooldowns, player`action
      ensures dungeon.Manned() && Places(dungeon) == old(Places(dungeon)) && s in old(Fighters(dungeon))
      ensures began <==> BeginResult(old(Fighters(dungeon))[s], skill).Success?
      ensures Fighters(dungeon) == old(Fighters(dungeon))[s := Begun(old(Fighters(dungeon))[s], skill)]
    {
      hide BeginResult, Begun, DungeonPlayerState.Valid, DungeonPlayerState.View;
      var result := player.BeginSkill(skill);
      began := result.Success?;
    }

    /** The attack loop of Process: the queue is emptied, first come first served. */
    method TakeAttacks(dungeonId: DungeonId, dungeon: DungeonInstance, hits: map<SessionId, PendingHit>)
      returns (after: map<SessionId, PendingHit>, received: nat, accepted: nat)
      requires dungeon.Manned() && SeatIndex.Injective(dungeon.players) && udpManager.Valid()
      modifies dungeon.players.Values`currentMp, dungeon.players.Values`cooldowns, dungeon.players.Values`action
      modifies udpManager.sessions.Values`pendingAttacks
      ensures dungeon.Manned() && Places(dungeon) == old(Places(dungeon)) && udpManager.Valid()
      ensures
        var queued := Queued(skillCatalog, AttackQueue(old(udpManager.View()), dungeonId));
        && CombatOf(dungeon, after) == AttacksTaken(old(CombatOf(dungeon, hits)), queued)
        && received == |queued| && accepted == AcceptedCount(old(CombatOf(dungeon, hits)), queued)
      ensures udpManager.View() == WithAttacks(old(udpManager.View()), dungeonId, [])
    {
      hide CombatOf, Places, DungeonInstance.Manned, SeatIndex.Injective, DungeonUdpManager.Valid;
      hide DungeonUdpManager.View;
      hide WithAttacks, AttackQueue, Carried, AttackTaken, Accepts, QueuedOne, TakenSoFar;
      ghost var queue := AttackQueue(udpManager.View(), dungeonId);
      QueuesReplaced(udpManager.View(), dungeonId);
      ghost var c := CombatOf(dungeon, hits);
      after, received, accepted := hits, 0, 0;
      TakingBegins(skillCatalog, c, queue);
      var next := PopAttack(dungeonId, dungeon, hits);
      while next.Some?
        invariant dungeon.Manned() && Places(dungeon) == old(Places(dungeon)) && udpManager.Valid()
        invariant udpManager.View() ==
          WithAttacks(old(udpManager.View()), dungeonId, AttackQueue(udpManager.View(), dungeonId))
        invariant TakenSoFar(skillCatalog, c, queue, received, CombatOf(dungeon, after), accepted, next,
          AttackQueue(udpManager.View(), dungeonId))
        decreases TurnsLeft(next, queue, received)
      {
        after, accepted, next := TakeNext(dungeonId, dungeon, after, accepted, next, c, queue, received);
        received := received + 1;
      }
      TakingEnds(skillCatalog, c, queue, received, CombatOf(dungeon, after), accepted,
        AttackQueue(udpManager.View(), dungeonId));
    }

    /** A pop leaves the fight alone. */
    method PopAttack(dungeonId: DungeonId, ghost dungeon: DungeonInstance, ghost hits: map<SessionId, PendingHit>)
      returns (next: Option<Input<Attack>>)
      requires udpManager.Valid() && dungeon.Manned()
      modifies udpManager.sessions.Values`pendingAttacks
      ensures udpManager.Valid() && dungeon.Manned() && Places(dungeon) == old(Places(dungeon))
      ensures CombatOf(dungeon, hits) == old(CombatOf(dungeon, hits))
      ensures next == FirstOf(old(AttackQueue(udpManager.View(), dungeonId)))
      ensures AttackQueue(udpManager.View(), dungeonId) == RestOf(old(AttackQueue(udpManager.View(), dungeonId)))
      ensures udpManager.View() ==
        WithAttacks(old(udpManager.View()), dungeonId, AttackQueue(udpManager.View(), dungeonId))
    {
      hide CombatOf, Places, DungeonInstance.Manned, DungeonUdpManager.Valid, DungeonUdpManager.View, AttackQueue;
      hide Carried;
      hide WithAttacks;
      PoppedQueues(udpManager.View(), dungeonId);
      next := udpManager.TryPopAttack(dungeonId);
    }

    /** The body of the attack loop, and the pop that follows it. */
    method TakeNext(
      dungeonId: DungeonId, dungeon: DungeonInstance, hits: map<SessionId, PendingHit>, accepted: nat,
      next: Option<Input<Attack>>, ghost c: Combat, ghost queue: seq<Input<Attack>>, ghost received: nat)
      returns (after: map<SessionId, PendingHit>, accepted': nat, next': Option<Input<Attack>>)
      requires dungeon.Manned() && SeatIndex.Injective(dungeon.players) && udpManager.Valid() && next.Some?
      requires TakenSoFar(skillCatalog, c, queue, received, CombatOf(dungeon, hits), accepted, next,
        AttackQueue(udpManager.View(), dungeonId))
      modifies dungeon.players.Values`currentMp, dungeon.players.Values`cooldowns, dungeon.players.Values`action
      modifies udpManager.sessions.Values`pendingAttacks
      ensures dungeon.Manned() && Places(dungeon) == old(Places(dungeon)) && udpManager.Valid() && received < |queue|
      ensures TakenSoFar(skillCatalog, c, queue, received + 1, CombatOf(dungeon, after), accepted', next',
        AttackQueue(udpManager.View(), dungeonId))
      ensures udpManager.View() ==
        WithAttacks(old(udpManager.View()), dungeonId, AttackQueue(udpManager.View(), dungeonId))
    {
      hide CombatOf, Places, DungeonInstance.Manned, SeatIndex.Injective, DungeonUdpManager.Valid;
      hide DungeonUdpManager.View;
      hide WithAttacks, AttackQueue, Carried, AttackTaken, Accepts, QueuedOne, TakenSoFar, FirstOf, RestOf;
      ghost var now, left := CombatOf(dungeon, hits), AttackQueue(udpManager.View(), dungeonId);
      TakenNext(skillCatalog, c, queue, received, now, accepted, next, left);
      var taken: bool;
      after, taken := TakeAttack(dungeon, hits, next.value);
      accepted' := accepted + if taken then 1 else 0;
      next' := PopAttack(dungeonId, dungeon, after);
    }

    // -------------------------------------------------------------- the whole tick

    /** The first half of Process: the clocks tick, and what is due strikes. */
    method TickAndResolve(dungeon: DungeonInstance, hits: map<SessionId, PendingHit>)
      returns (waiting: map<SessionId, PendingHit>, hitCount: nat, ghost order: seq<SessionId>)
      requires Ready(dungeon) && AllFit(Fighters(dungeon))
      modifies dungeon.players.Values`cooldowns, dungeon.players.Values`action, dungeon.rooms.Values`enemies
      ensures Ready(dungeon) && Places(dungeon) == old(Places(dungeon))
      ensures CombatOf(dungeon, waiting) == BeforeAttacks(old(Fighters(dungeon)), hits)
      ensures StruckSoFar(inside, Combat(TickedAll(old(Fighters(dungeon))), hits), Places(dungeon), hits.Keys, order,
        old(dungeon.RoomWaves()), dungeon.RoomWaves(), hitCount)
    {
      hide Places, Fighters, DungeonInstance.Manned, DungeonInstance.Furnished, DungeonInstance.RoomWaves;
      hide SeatIndex.Indexed;
      hide StruckSoFar, TickedAll, AllFit, Struck, Stale, Due;
      TickPlayers(dungeon);
      waiting, hitCount, order := ResolvePendingHits(dungeon, hits);
    }

    /** The second half: the queued attacks are taken, and what is due at once strikes. */
    method AttackAndResolve(dungeonId: DungeonId, dungeon: DungeonInstance, hits: map<SessionId, PendingHit>)
      returns (waiting: map<SessionId, PendingHit>, received: nat, accepted: nat, hitCount: nat, ghost order: seq<SessionId>)
      requires Ready(dungeon) && udpManager.Valid()
      modifies dungeon.players.Values`currentMp, dungeon.players.Values`cooldowns, dungeon.players.Values`action
      modifies dungeon.rooms.Values`enemies, udpManager.sessions.Values`pendingAttacks
      ensures Ready(dungeon) && Places(dungeon) == old(Places(dungeon)) && udpManager.Valid()
      ensures udpManager.View() == WithAttacks(old(udpManager.View()), dungeonId, [])
      ensures
        var queued := Queued(skillCatalog, old(AttackQueue(udpManager.View(), dungeonId)));
        var c := AttacksTaken(old(CombatOf(dungeon, hits)), queued);
        && CombatOf(dungeon, waiting) == Resolved(c)
        && received == |queued| && accepted == AcceptedCount(old(CombatOf(dungeon, hits)), queued)
        && StruckSoFar(inside, c, Places(dungeon), c.hits.Keys, order, old(dungeon.RoomWaves()), dungeon.RoomWaves(), hitCount)
    {
      hide Places, CombatOf, Ready, DungeonInstance.RoomWaves, WithAttacks, AttackQueue, DungeonUdpManager.Valid;
      hide DungeonUdpManager.View, StruckSoFar, AttacksTaken, AcceptedCount, Queued, Resolved;
      var taken;
      taken, received, accepted := AttackIn(dungeonId, dungeon, hits);
      waiting, hitCount, order := ResolveIn(dungeon, taken);
    }

    /** The attacks begin in a dungeon that stays in order, and strike nobody yet. */
    method AttackIn(dungeonId: DungeonId, dungeon: DungeonInstance, hits: map<SessionId, PendingHit>)
      returns (after: map<SessionId, PendingHit>, received: nat, accepted: nat)
      requires Ready(dungeon) && udpManager.Valid()
      modifies dungeon.players.Values`currentMp, dungeon.players.Values`cooldowns, dungeon.players.Values`action
      modifies udpManager.sessions.Values`pendingAttacks
      ensures Ready(dungeon) && Places(dungeon) == old(Places(dungeon)) && udpManager.Valid()
      ensures dungeon.RoomWaves() == old(dungeon.RoomWaves())
      ensures
        var queued := Queued(skillCatalog, old(AttackQueue(udpManager.View(), dungeonId)));
        && CombatOf(dungeon, after) == AttacksTaken(old(CombatOf(dungeon, hits)), queued)
        && received == |queued| && accepted == AcceptedCount(old(CombatOf(dungeon, hits)), queued)
      ensures udpManager.View() == WithAttacks(old(udpManager.View()), dungeonId, [])
    {
      hide Places, CombatOf, DungeonInstance.Manned, DungeonInstance.Furnished, DungeonInstance.RoomWaves;
      hide WithAttacks;
      hide AttackQueue, DungeonUdpManager.Valid, DungeonUdpManager.View, SeatIndex.Indexed, SeatIndex.Injective;
      hide AttacksTaken, AcceptedCount, Queued;
      SeatedOnce(dungeon.Containers());
      after, received, accepted := TakeAttacks(dungeonId, dungeon, hits);
    }

    /** The blows fall in a dungeon that stays in order. */
    method ResolveIn(dungeon: DungeonInstance, hits: map<SessionId, PendingHit>)
      returns (waiting: map<SessionId, PendingHit>, hitCount: nat, ghost order: seq<SessionId>)
      requires Ready(dungeon) && udpManager.Valid()
      modifies dungeon.rooms.Values`enemies
      ensures Ready(dungeon) && Places(dungeon) == old(Places(dungeon))
      ensures udpManager.Valid() && udpManager.View() == old(udpManager.View())
      ensures CombatOf(dungeon, waiting) == Resolved(old(CombatOf(dungeon, hits)))
      ensures StruckSoFar(inside, old(CombatOf(dungeon, hits)), Places(dungeon), old(CombatOf(dungeon, hits)).hits.Keys,
        order, old(dungeon.RoomWaves()), dungeon.RoomWaves(), hitCount)
    {
      hide Places, Fighters, DungeonInstance.Manned, DungeonInstance.Furnished, DungeonInstance.RoomWaves;
      hide SeatIndex.Indexed;
      hide StruckSoFar, Struck, Stale, Due, DungeonUdpManager.Valid, DungeonUdpManager.View;
      waiting, hitCount, order := ResolvePendingHits(dungeon, hits);
    }

    /** One combat tick. On a dungeon that does not run it forgets the dungeon's hits and touches
        nothing else; otherwise characters and table go through exactly one Processed step, the
        attack queue is emptied, and the enemies are wounded by the hits that were due before
        the attacks and by those due after them. */
    method Process(dungeonId: DungeonId, dungeon: Option<DungeonInstance>)
      returns (result: CombatProcessResult, ghost struck: Resolutions)
      requires udpManager.Valid() && (dungeon.Some? ==> Ready(dungeon.value))
      modifies this`pendingHits, udpManager.sessions.Values`pendingAttacks
      modifies CharactersOf(dungeon)`currentMp, CharactersOf(dungeon)`cooldowns, CharactersOf(dungeon)`action
      modifies RoomsOf(dungeon)`enemies
      ensures udpManager.Valid() && (dungeon.Some? ==> Ready(dungeon.value))
      ensures pendingHits - {dungeonId} == old(pendingHits) - {dungeonId}
      ensures !Runs(dungeon) ==>
        && dungeonId !in pendingHits && result == CombatProcessResult(0, 0, 0, 0)
        && udpManager.View() == old(udpManager.View())
      ensures dungeon.Some? && !dungeon.value.state.Running? ==>
        && Fighters(dungeon.value) == old(Fighters(dungeon.value))
        && dungeon.value.RoomWaves() == old(dungeon.value.RoomWaves())
      ensures Runs(dungeon) ==>
        && udpManager.View() == WithAttacks(old(udpManager.View()), dungeonId, [])
        && Places(dungeon.value) == old(Places(dungeon.value))
        && AllFit(old(Fighters(dungeon.value)))
        && CombatTick(inside, skillCatalog, old(Fighters(dungeon.value)), HitsAt(old(pendingHits), dungeonId),
             Places(dungeon.value), old(AttackQueue(udpManager.View(), dungeonId)), old(dungeon.value.RoomWaves()),
             CombatOf(dungeon.value, HitsAt(pendingHits, dungeonId)), dungeon.value.RoomWaves(), result, struck)
    {
      hide Places, Fighters, CombatOf, DungeonInstance.RoomWaves, WithAttacks, AttackQueue, DungeonUdpManager.Valid;
      hide DungeonUdpManager.View, AllFit, CombatTick, HitsAt, Ready;
      result, struck := CombatProcessResult(0, 0, 0, 0), Resolutions([], [], map[], 0);
      if dungeon.None? || !dungeon.value.state.Running? {
        pendingHits := pendingHits - {dungeonId};
        return;
      }
      ReadyFighters(dungeon.value);
      result, struck := ProcessRunning(dungeonId, dungeon.value);
    }

    method ProcessRunning(dungeonId: DungeonId, dungeon: DungeonInstance)
      returns (result: CombatProcessResult, ghost struck: Resolutions)
      requires udpManager.Valid() && Ready(dungeon) && AllFit(Fighters(dungeon))
      modifies this`pendingHits, udpManager.sessions.Values`pendingAttacks
      modifies dungeon.players.Values`currentMp, dungeon.players.Values`cooldowns, dungeon.players.Values`action
      modifies dungeon.rooms.Values`enemies
      ensures udpManager.Valid() && Ready(dungeon)
      ensures pendingHits - {dungeonId} == old(pendingHits) - {dungeonId}
      ensures udpManager.View() == WithAttacks(old(udpManager.View()), dungeonId, []) && Places(dungeon) == old(Places(dungeon))
      ensures CombatTick(inside, skillCatalog, old(Fighters(dungeon)), HitsAt(old(pendingHits), dungeonId),
        Places(dungeon), old(AttackQueue(udpManager.View(), dungeonId)), old(dungeon.RoomWaves()),
        CombatOf(dungeon, HitsAt(pendingHits, dungeonId)), dungeon.RoomWaves(), result, struck)
    {
      hide Places, Fighters, CombatOf, Ready, DungeonInstance.RoomWaves, WithAttacks, AttackQueue;
      hide DungeonUdpManager.Valid;
      hide DungeonUdpManager.View, AllFit, CombatTick, Stored, HitsAt;
      var waiting;
      waiting, result, struck := ProcessHits(dungeonId, dungeon, HitsAt(pendingHits, dungeonId));
      StoredAt(pendingHits, dungeonId, waiting);
      pendingHits := Stored(pendingHits, dungeonId, waiting);
    }

    method ProcessHits(dungeonId: DungeonId, dungeon: DungeonInstance, hits: map<SessionId, PendingHit>)
      returns (waiting: map<SessionId, PendingHit>, result: CombatProcessResult, ghost struck: Resolutions)
      requires udpManager.Valid() && Ready(dungeon) && AllFit(Fighters(dungeon))
      modifies udpManager.sessions.Values`pendingAttacks
      modifies dungeon.players.Values`currentMp, dungeon.players.Values`cooldowns, dungeon.players.Values`action
      modifies dungeon.rooms.Values`enemies
      ensures udpManager.Valid() && Ready(dungeon)
      ensures udpManager.View() == WithAttacks(old(udpManager.View()), dungeonId, []) && Places(dungeon) == old(Places(dungeon))
      ensures CombatTick(inside, skillCatalog, old(Fighters(dungeon)), hits,
        Places(dungeon), old(AttackQueue(udpManager.View(), dungeonId)), old(dungeon.RoomWaves()),
        CombatOf(dungeon, waiting), dungeon.RoomWaves(), result, struck)
    {
      hide Places, Fighters, CombatOf, Ready, DungeonInstance.RoomWaves, WithAttacks, AttackQueue;
      hide DungeonUdpManager.Valid;
      hide DungeonUdpManager.View, StruckSoFar, AllFit, CombatTick, BeforeAttacks, AttacksTaken;
      ghost var fighters, queue := Fighters(dungeon), AttackQueue(udpManager.View(), dungeonId);
      ghost var before := dungeon.RoomWaves();
      var early, firstCount, received, accepted, secondCount;
      ghost var first, second;
      early, firstCount, first := TickAndResolve(dungeon, hits);
      ghost var between := dungeon.RoomWaves();
      waiting, received, accepted, secondCount, second := AttackAndResolve(dungeonId, dungeon, early);
      TickComposed(inside, skillCatalog, fighters, hits, Places(dungeon), queue, before,
        CombatOf(dungeon, waiting), between, dungeon.RoomWaves(), first, second, firstCount, secondCount, received, accepted);
      result := CombatProcessResult(received, accepted, received - accepted, firstCount + secondCount);
      struck := Resolutions(first, second, between, firstCount);
    }
  }

  /** The table with a dungeon's hits replaced; an empty entry is erased. */
  function Stored(
    pendingHits: map<DungeonId, map<SessionId, PendingHit>>, id: DungeonId, waiting: map<SessionId, PendingHit>)
    : map<DungeonId, map<SessionId, PendingHit>>
  {
    if waiting == map[] then pendingHits - {id} else pendingHits[id := waiting]
  }

  lemma StoredAt(
    pendingHits: map<DungeonId, map<SessionId, PendingHit>>, id: DungeonId, waiting: map<SessionId, PendingHit>)
    ensures HitsAt(Stored(pendingHits, id, waiting), id) == waiting
    ensures Stored(pendingHits, id, waiting) - {id} == pendingHits - {id}
  {
  }

  /** The two halves make a tick. */
  lemma TickComposed(
    inside: HitBox, catalog: map<SkillId, SkillTemplate>, fighters: map<SessionId, Fighter>,
    hits: map<SessionId, PendingHit>, places: map<SessionId, (RoomId, Position)>, queue: seq<Input<Attack>>,
    before: map<RoomId, Waves>, after: Combat, between: map<RoomId, Waves>, rooms: map<RoomId, Waves>,
    first: seq<SessionId>, second: seq<SessionId>, firstCount: nat, secondCount: nat, received: nat, accepted: nat)
    requires AllFit(fighters)
    requires StruckSoFar(inside, Combat(TickedAll(fighters), hits), places, hits.Keys, first, before, between, firstCount)
    requires after == Resolved(AttacksTaken(BeforeAttacks(fighters, hits), Queued(catalog, queue)))
    requires received == |queue| && accepted == AcceptedCount(BeforeAttacks(fighters, hits), Queued(catalog, queue))
    requires
      var late := AttacksTaken(BeforeAttacks(fighters, hits), Queued(catalog, queue));
      StruckSoFar(inside, late, places, late.hits.Keys, second, between, rooms, secondCount)
    ensures accepted <= received
    ensures CombatTick(inside, catalog, fighters, hits, places, queue, before, after, rooms,
      CombatProcessResult(received, accepted, received - accepted, firstCount + secondCount),
      Resolutions(first, second, between, firstCount))
  {
    hide StruckSoFar, AllFit, BeforeAttacks, AttacksTaken, AcceptedCount;
    AcceptedAtMost(BeforeAttacks(fighters, hits), Queued(catalog, queue));
  }

  datatype CombatProcessResult =
    CombatProcessResult(receivedCount: nat, acceptedCount: nat, rejectedCount: nat, hitCount: nat)

  /** Who struck in the two resolutions of a tick, and the rooms in between. */
  datatype Resolutions =
    Resolutions(first: seq<SessionId>, second: seq<SessionId>, between: map<RoomId, Waves>, firstCount: nat)

  function HitsAt(pendingHits: map<DungeonId, map<SessionId, PendingHit>>, id: DungeonId): map<SessionId, PendingHit> {
    if id in pendingHits then pendingHits[id] else map[]
  }

  lemma {:induction false} AcceptedAtMost(c: Combat, attacks: seq<QueuedAttack>)
    ensures AcceptedCount(c, attacks) <= |attacks|
  {
    if attacks != [] {
      AcceptedAtMost(c, attacks[..|attacks| - 1]);
    }
  }

  /** A tick of a running dungeon, from the characters and hits before to those after. */
  ghost predicate CombatTick(
    inside: HitBox, catalog: map<SkillId, SkillTemplate>, fighters: map<SessionId, Fighter>,
    hits: map<SessionId, PendingHit>, places: map<SessionId, (RoomId, Position)>, queue: seq<Input<Attack>>,
    before: map<RoomId, Waves>, after: Combat, rooms: map<RoomId, Waves>, result: CombatProcessResult, struck: Resolutions)
    requires AllFit(fighters)
  {
    var queued := Queued(catalog, queue);
    var early := BeforeAttacks(fighters, hits);
    var late := AttacksTaken(early, queued);
    && after == Processed(fighters, hits, queued)
    && result.receivedCount == |queued| && result.acceptedCount == AcceptedCount(early, queued)
    && result.rejectedCount == result.receivedCount - result.acceptedCount
    && result.hitCount >= struck.firstCount
    && StruckSoFar(inside, Combat(TickedAll(fighters), hits), places, hits.Keys, struck.first, before, struck.between,
         struck.firstCount)
    && StruckSoFar(inside, late, places, late.hits.Keys, struck.second, struck.between, rooms,
         result.hitCount - struck.firstCount)
  }

  lemma RefusedBegin(fighters: map<SessionId, Fighter>, a: QueuedAttack)
    ensures a.session in fighters && a.hit.Some? && !BeginResult(fighters[a.session], a.hit.value.skill).Success? ==>
      fighters[a.session := Begun(fighters[a.session], a.hit.value.skill)] == fighters
  {
  }

  /** The attack loop after n attacks: the next one is at hand, the others are still queued. */
  ghost predicate TakenSoFar(
    catalog: map<SkillId, SkillTemplate>, c: Combat, queue: seq<Input<Attack>>, n: nat, now: Combat, accepted: nat,
    next: Option<Input<Attack>>, left: seq<Input<Attack>>)
  {
    && n <= |queue|
    && now == AttacksTaken(c, Queued(catalog, queue[..n])) && accepted == AcceptedCount(c, Queued(catalog, queue[..n]))
    && (if n < |queue| then next == Some(queue[n]) && left == queue[n + 1..] else next == None && left == [])
  }

  lemma TakingBegins(catalog: map<SkillId, SkillTemplate>, c: Combat, queue: seq<Input<Attack>>)
    ensures TakenSoFar(catalog, c, queue, 0, c, 0, FirstOf(queue), RestOf(queue))
  {
    assert Queued(catalog, queue[..0]) == [];
  }

  lemma TakenNext(
    catalog: map<SkillId, SkillTemplate>, c: Combat, queue: seq<Input<Attack>>, n: nat, now: Combat, accepted: nat,
    next: Option<Input<Attack>>, left: seq<Input<Attack>>)
    requires TakenSoFar(catalog, c, queue, n, now, accepted, next, left) && next.Some?
    ensures n < |queue|
    ensures
      var a := QueuedOne(catalog, next.value);
      TakenSoFar(catalog, c, queue, n + 1, AttackTaken(now, a), accepted + (if Accepts(now, a) then 1 else 0),
        FirstOf(left), RestOf(left))
  {
    hide QueuedOne, AttackTaken, Accepts;
    QueuedNext(catalog, queue, n, c);
  }

  lemma TakingEnds(
    catalog: map<SkillId, SkillTemplate>, c: Combat, queue: seq<Input<Attack>>, n: nat, now: Combat, accepted: nat,
    left: seq<Input<Attack>>)
    requires TakenSoFar(catalog, c, queue, n, now, accepted, None, left)
    ensures
      var queued := Queued(catalog, queue);
      now == AttacksTaken(c, queued) && n == |queued| && accepted == AcceptedCount(c, queued) && left == []
  {
    assert queue[..n] == queue;
  }

  ghost function QueuedOne(catalog: map<SkillId, SkillTemplate>, attack: Input<Attack>): QueuedAttack {
    QueuedAttack(attack.sessionId,
      if attack.message.skillId in catalog
      then Some(PendingHit(catalog[attack.message.skillId].skill, catalog[attack.message.skillId].damage,
                           attack.message.directionX, attack.message.directionY))
      else None)
  }

  /** The queue as combat sees it. */
  ghost function Queued(catalog: map<SkillId, SkillTemplate>, queue: seq<Input<Attack>>): seq<QueuedAttack> {
    seq(|queue|, i requires 0 <= i < |queue| => QueuedOne(catalog, queue[i]))
  }

  ghost function AcceptedCount(c: Combat, attacks: seq<QueuedAttack>): nat {
    if attacks == [] then 0
    else
      AcceptedCount(c, attacks[..|attacks| - 1]) +
        if Accepts(AttacksTaken(c, attacks[..|attacks| - 1]), attacks[|attacks| - 1]) then 1 else 0
  }

  lemma QueuedNext(catalog: map<SkillId, SkillTemplate>, queue: seq<Input<Attack>>, i: nat, c: Combat)
    requires i < |queue|
    ensures
      var before := Queued(catalog, queue[..i]);
      var after := Queued(catalog, queue[..i + 1]);
      && AttacksTaken(c, after) == AttackTaken(AttacksTaken(c, before), QueuedOne(catalog, queue[i]))
      && AcceptedCount(c, after) == AcceptedCount(c, before) +
           if Accepts(AttacksTaken(c, before), QueuedOne(catalog, queue[i])) then 1 else 0
  {
    hide AttackTaken, Accepts, QueuedOne;
    var after := Queued(catalog, queue[..i + 1]);
    assert after[..|after| - 1] == Queued(catalog, queue[..i]);
    assert after[|after| - 1] == QueuedOne(catalog, queue[i]);
  }

  lemma HitsOf(dungeon: DungeonInstance, hits: map<SessionId, PendingHit>)
    ensures CombatOf(dungeon, hits).hits == hits
    ensures CombatOf(dungeon, hits).fighters.Keys == Places(dungeon).Keys
  {
  }

  /** A resolution that has been through the hits in `done`: the due ones among them have struck,
      each once, in the given order. */
  ghost predicate StruckSoFar(
    inside: HitBox, c: Combat, places: map<SessionId, (RoomId, Position)>, done: set<SessionId>, order: seq<SessionId>,
    before: map<RoomId, Waves>, after: map<RoomId, Waves>, hitCount: nat)
  {
    && ListsOnce(order, StruckSome(c, done))
    && (forall s | s in order :: s in c.hits && s in places)
    && after == AfterBlows(inside, before, BlowsOf(order, c.hits, places))
    && hitCount == TotalCaught(inside, before, BlowsOf(order, c.hits, places))
  }

  lemma StrikesBegin(inside: HitBox, c: Combat, places: map<SessionId, (RoomId, Position)>, waves: map<RoomId, Waves>)
    ensures StruckSoFar(inside, c, places, {}, [], waves, waves, 0)
  {
    ResolutionBegins(c);
  }

  lemma StrikesNext(
    inside: HitBox, c: Combat, places: map<SessionId, (RoomId, Position)>, done: set<SessionId>, order: seq<SessionId>,
    before: map<RoomId, Waves>, after: map<RoomId, Waves>, hitCount: nat, s: SessionId)
    requires StruckSoFar(inside, c, places, done, order, before, after, hitCount)
    requires s in c.hits && s !in done && c.fighters.Keys == places.Keys
    ensures !Due(c, s) ==> StruckSoFar(inside, c, places, done + {s}, order, before, after, hitCount)
    ensures Due(c, s) ==>
      s in places &&
      var blow := Blow(c.hits[s], places[s].0, places[s].1);
      var count := if blow.roomId in after then CaughtCount(inside, blow, after[blow.roomId].enemies) else 0;
      StruckSoFar(inside, c, places, done + {s}, order + [s], before, AfterBlow(inside, after, blow), hitCount + count)
  {
    hide StruckSome, BlowsOf, AfterBlows, TotalCaught, CaughtCount, AfterBlow;
    ResolvedOneMore(c, done, s);
    if Due(c, s) {
      ListOneMore(order, StruckSome(c, done), s);
      OneMoreBlow(inside, before, order, c.hits, places, s);
    } else {
      assert StruckSome(c, done) + {} == StruckSome(c, done);
    }
  }

  /** The blows of the hits that are due, in some order, and what they did to the rooms. */
  ghost predicate Strikes(
    inside: HitBox, dungeon: DungeonInstance, hits: map<SessionId, PendingHit>, order: seq<SessionId>,
    before: map<RoomId, Waves>, hitCount: nat)
    reads dungeon`players, dungeon.players.Values, dungeon.rooms.Values
  {
    StruckSoFar(inside, CombatOf(dungeon, hits), Places(dungeon), hits.Keys, order, before, dungeon.RoomWaves(), hitCount)
  }

  /** A tick of a running dungeon is a call of the fight: characters and table go where NextFight
      says, and its two lists of strikes are the call's, so that the blows dealt to the rooms are
      those of the fight's log. */
  lemma TickIsACall(
    inside: HitBox, catalog: map<SkillId, SkillTemplate>, fighters: map<SessionId, Fighter>,
    hits: map<SessionId, PendingHit>, places: map<SessionId, (RoomId, Position)>, queue: seq<Input<Attack>>,
    before: map<RoomId, Waves>, after: Combat, rooms: map<RoomId, Waves>, result: CombatProcessResult,
    struck: Resolutions, h: Fight)
    requires AllFit(fighters) && h.c.hits == hits
    requires CombatTick(inside, catalog, fighters, hits, places, queue, before, after, rooms, result, struck)
    ensures
      var r := Round(true, fighters, Queued(catalog, queue));
      && NextFight(h, r).c == after
      && StrikesFit(h, r, Strikers(struck.first, struck.second))
      && struck.between == AfterBlows(inside, before, BlowsOf(struck.first, hits, places))
      && rooms == AfterBlows(inside, struck.between, BlowsOf(struck.second, AttackedIn(h, r).c.hits, places))
  {
    hide AllFit, TickedAll, Resolved, AttacksTaken, Stale, Due, AcceptedCount, AfterBlows, TotalCaught, BlowsOf;
    hide ListsOnce;
    var queued := Queued(catalog, queue);
    var r := Round(true, fighters, queued);
    NextIsProcessed(h, r);
    HistoryOfAttacks(ResolvedFight(Found(h, r)), queued);
    var early, late := Combat(TickedAll(fighters), hits), AttacksTaken(BeforeAttacks(fighters, hits), queued);
    ResolutionEnds(early);
    ResolutionEnds(late);
    assert Found(h, r).c == early && AttackedIn(h, r).c == late;
  }

  /** In a tick of a running dungeon each blow of its two lists lands: first those of the hits that
      were pending, then those of the hits pending after the attacks, each from where its character
      stands, and the hits counted are the enemies that lost something. */
  lemma TickLandsItsBlows(
    inside: HitBox, catalog: map<SkillId, SkillTemplate>, fighters: map<SessionId, Fighter>,
    hits: map<SessionId, PendingHit>, places: map<SessionId, (RoomId, Position)>, queue: seq<Input<Attack>>,
    before: map<RoomId, Waves>, after: Combat, rooms: map<RoomId, Waves>, result: CombatProcessResult,
    struck: Resolutions)
    requires AllFit(fighters)
    requires CombatTick(inside, catalog, fighters, hits, places, queue, before, after, rooms, result, struck)
    ensures
      var late := AttacksTaken(BeforeAttacks(fighters, hits), Queued(catalog, queue)).hits;
      && result.hitCount >= struck.firstCount
      && AllLanded(inside, struck.first, hits, places, before, struck.between, struck.firstCount)
      && AllLanded(inside, struck.second, late, places, struck.between, rooms, result.hitCount - struck.firstCount)
  {
    hide AllFit, TickedAll, BeforeAttacks, AttacksTaken, AcceptedCount, Queued, AllLanded, AfterBlows, TotalCaught, BlowsOf;
    hide StruckSome, ListsOnce, Processed;
    var late := AttacksTaken(BeforeAttacks(fighters, hits), Queued(catalog, queue)).hits;
    BlowsLand(inside, struck.first, hits, places, before);
    BlowsLand(inside, struck.second, late, places, struck.between);
  }
}
