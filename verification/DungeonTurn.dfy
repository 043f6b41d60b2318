/** The turn of a running dungeon in a tick (src/DungeonTickService.cpp): idle endpoints are
    silenced, movements are carried out, the fight goes on, waves start, and a dungeon in which
    nothing is left to do is finished. */
module DungeonTurns {
  import opened Common
  import opened DungeonRoom
  import opened RoomStates
  import opened PlayerState
  import SeatIndex
  import opened DungeonInstances
  import opened DungeonRegistry
  import opened DungeonManagers
  import opened InputLane
  import opened UdpSession
  import opened DungeonUdpManagers
  import opened DungeonMovementProcessors
  import opened CombatRounds
  import opened DungeonCombatProcessors

  /** Both managers and everything in them in order. */
  ghost predicate InOrder(manager: DungeonManager, udp: DungeonUdpManager)
    reads manager, manager.dungeons.Values, manager.Rooms(), manager.Characters(), udp, udp.sessions.Values
  {
    manager.Valid() && manager.Equipped() && manager.Staffed() && udp.Valid()
  }

  lemma OneDungeon(manager: DungeonManager, udp: DungeonUdpManager, id: DungeonId)
    requires InOrder(manager, udp) && id in manager.dungeons
    ensures
      var dungeon := manager.dungeons[id];
      Ready(dungeon) && dungeon.players.Values <= manager.Characters() && dungeon.rooms.Values <= manager.Rooms()
  {
    hide DungeonManager.Equipped, DungeonManager.Staffed;
    manager.InOrderAt(id);
  }

  lemma PartsOf(dungeon: DungeonInstance)
    requires Ready(dungeon)
    ensures dungeon.Manned() && dungeon.Furnished()
  {
  }

  /** Whoever has been idle for too long loses the endpoint; nobody in the dungeon feels it. */
  method SilenceIdle(
    manager: DungeonManager, udp: DungeonUdpManager, id: DungeonId, ghost dungeon: DungeonInstance, now: Time,
    idleTimeout: Time)
    requires InOrder(manager, udp)
    modifies udp.sessions.Values
    ensures InOrder(manager, udp) && manager.View() == old(manager.View())
    ensures udp.View() == Carried(old(udp.View()), id, Prune(now, idleTimeout))
    ensures GroundOf(dungeon) == old(GroundOf(dungeon)) && HitPoints(dungeon) == old(HitPoints(dungeon))
    ensures Fighters(dungeon) == old(Fighters(dungeon))
  {
    hide DungeonManager.Valid, DungeonManager.View, DungeonManager.Equipped, DungeonManager.Staffed;
    hide DungeonUdpManager.Valid, DungeonUdpManager.View, Carried, GroundOf, HitPoints, Fighters;
    var removed := udp.RemoveInactiveEndpoints(id, now, idleTimeout);
    manager.RoomsUntouched();
    manager.LeftStaffed();
  }

  /** A movement moves nobody's hit points, mana, cooldowns or action. */
  method MoveDungeon(movement: DungeonMovementProcessor, id: DungeonId, dungeon: DungeonInstance)
    returns (result: MovementProcessResult, ghost order: seq<SessionId>)
    requires movement.udpManager.Valid() && Ready(dungeon) && dungeon.state.Running?
    modifies movement.udpManager.sessions.Values`pendingMovements
    modifies dungeon.players.Values`position, dungeon.players.Values`roomId
    modifies dungeon.rooms.Values`currentWave, dungeon.rooms.Values`enemies
    ensures movement.udpManager.Valid() && Ready(dungeon)
    ensures movement.udpManager.View() == WithMovements(old(movement.udpManager.View()), id, [])
    ensures Fighters(dungeon) == old(Fighters(dungeon)) && HitPoints(dungeon) == old(HitPoints(dungeon))
    ensures MovementTick(movement.stepOf, dungeon, HitPoints(dungeon),
      old(MovementQueue(movement.udpManager.View(), id)), old(GroundOf(dungeon)), GroundOf(dungeon), order, result)
  {
    hide Ready, DungeonUdpManager.Valid, DungeonUdpManager.View, WithMovements, MovementQueue;
    hide MovementTick, GroundOf, HitPoints, Fighters;
    result, order := movement.Process(id, Some(dungeon));
    SameFighters(dungeon);
  }

  twostate lemma SameFighters(dungeon: DungeonInstance)
    requires dungeon.players == old(dungeon.players)
    requires forall c :: c in dungeon.players.Values ==> c.View() == old(c.View())
    ensures Fighters(dungeon) == old(Fighters(dungeon))
  {
    hide DungeonPlayerState.View;
  }

  /** The characters stay in order. */
  method MoveCrew(
    manager: DungeonManager, udp: DungeonUdpManager, movement: DungeonMovementProcessor, id: DungeonId,
    dungeon: DungeonInstance, ghost all: set<DungeonPlayerState>)
    returns (result: MovementProcessResult, ghost order: seq<SessionId>)
    requires InOrder(manager, udp) && movement.udpManager == udp
    requires all == manager.Characters()
    requires id in manager.dungeons && dungeon == manager.dungeons[id] && dungeon.state.Running?
    modifies udp.sessions.Values`pendingMovements
    modifies dungeon.players.Values`position, dungeon.players.Values`roomId
    modifies dungeon.rooms.Values`currentWave, dungeon.rooms.Values`enemies
    ensures manager.Staffed() && Ready(dungeon)
    ensures udp.Valid() && udp.View() == WithMovements(old(udp.View()), id, [])
    ensures Fighters(dungeon) == old(Fighters(dungeon)) && HitPoints(dungeon) == old(HitPoints(dungeon))
    ensures MovementTick(movement.stepOf, dungeon, HitPoints(dungeon),
      old(MovementQueue(udp.View(), id)), old(GroundOf(dungeon)), GroundOf(dungeon), order, result)
  {
    hide DungeonManager.Valid, DungeonManager.View, DungeonManager.Equipped, DungeonManager.Staffed, Ready;
    hide DungeonUdpManager.Valid, DungeonUdpManager.View, WithMovements, MovementQueue, MovementTick, GroundOf;
    hide HitPoints, Fighters;
    hide DungeonInstance.Manned, DungeonInstance.Furnished, DungeonManager.Characters, DungeonManager.Rooms;
    OneDungeon(manager, udp, id);
    result, order := MoveDungeon(movement, id, dungeon);
    PartsOf(dungeon);
    manager.OneCrewWorked(id);
  }

  /** The movement part of a dungeon's turn. */
  method MoveIn(
    manager: DungeonManager, udp: DungeonUdpManager, movement: DungeonMovementProcessor, id: DungeonId,
    dungeon: DungeonInstance)
    returns (result: MovementProcessResult, ghost order: seq<SessionId>)
    requires InOrder(manager, udp) && movement.udpManager == udp
    requires id in manager.dungeons && dungeon == manager.dungeons[id] && dungeon.state.Running?
    modifies udp.sessions.Values`pendingMovements
    modifies dungeon.players.Values`position, dungeon.players.Values`roomId
    modifies dungeon.rooms.Values`currentWave, dungeon.rooms.Values`enemies
    ensures InOrder(manager, udp) && manager.View() == old(manager.View())
    ensures udp.View() == WithMovements(old(udp.View()), id, [])
    ensures Fighters(dungeon) == old(Fighters(dungeon)) && HitPoints(dungeon) == old(HitPoints(dungeon))
    ensures MovementTick(movement.stepOf, dungeon, HitPoints(dungeon),
      old(MovementQueue(udp.View(), id)), old(GroundOf(dungeon)), GroundOf(dungeon), order, result)
  {
    hide DungeonManager.Valid, DungeonManager.View, DungeonManager.Equipped, DungeonManager.Staffed, Ready;
    hide DungeonUdpManager.Valid, DungeonUdpManager.View, WithMovements, MovementQueue, MovementTick, GroundOf;
    hide HitPoints, Fighters;
    hide DungeonInstance.Manned, DungeonInstance.Furnished;
    result, order := MoveCrew(manager, udp, movement, id, dungeon, manager.Characters());
    PartsOf(dungeon);
    manager.OneRoomsetWorked(id);
  }

  /** The fight moves nobody. */
  method FightDungeon(combat: DungeonCombatProcessor, id: DungeonId, dungeon: DungeonInstance)
    returns (result: CombatProcessResult, ghost struck: Resolutions)
    requires combat.udpManager.Valid() && Ready(dungeon) && dungeon.state.Running?
    modifies combat`pendingHits, combat.udpManager.sessions.Values`pendingAttacks
    modifies dungeon.players.Values`currentMp, dungeon.players.Values`cooldowns, dungeon.players.Values`action
    modifies dungeon.rooms.Values`enemies
    ensures combat.udpManager.Valid() && Ready(dungeon) && Places(dungeon) == old(Places(dungeon))
    ensures combat.udpManager.View() == WithAttacks(old(combat.udpManager.View()), id, [])
    ensures Fought(combat.inside, combat.skillCatalog, id, old(combat.pendingHits), combat.pendingHits,
      old(Fighters(dungeon)), Places(dungeon), old(AttackQueue(combat.udpManager.View(), id)),
      old(dungeon.RoomWaves()), Fighters(dungeon), dungeon.RoomWaves(), result, struck)
  {
    hide Ready, DungeonUdpManager.Valid, DungeonUdpManager.View, WithAttacks, AttackQueue, CombatTick, Fighters;
    hide Places;
    hide DungeonInstance.RoomWaves;
    result, struck := combat.Process(id, Some(dungeon));
  }

  /** The dungeon's own hits and characters go through one combat tick, the hits of the others stay. */
  ghost predicate Fought(
    inside: HitBox, catalog: map<SkillId, SkillTemplate>, id: DungeonId,
    hits: map<DungeonId, map<SessionId, PendingHit>>, hits': map<DungeonId, map<SessionId, PendingHit>>,
    fighters: map<SessionId, Fighter>, places: map<SessionId, (RoomId, Position)>, queue: seq<Input<Attack>>,
    before: map<RoomId, Waves>, fighters': map<SessionId, Fighter>, after: map<RoomId, Waves>,
    result: CombatProcessResult, struck: Resolutions)
  {
    && hits' - {id} == hits - {id} && AllFit(fighters)
    && CombatTick(inside, catalog, fighters, HitsAt(hits, id), places, queue, before,
         Combat(fighters', HitsAt(hits', id)), after, result, struck)
  }

  /** The characters stay in order. */
  method FightCrew(
    manager: DungeonManager, udp: DungeonUdpManager, combat: DungeonCombatProcessor, id: DungeonId,
    dungeon: DungeonInstance, ghost all: set<DungeonPlayerState>)
    returns (result: CombatProcessResult, ghost struck: Resolutions)
    requires InOrder(manager, udp) && combat.udpManager == udp
    requires all == manager.Characters()
    requires id in manager.dungeons && dungeon == manager.dungeons[id] && dungeon.state.Running?
    modifies combat`pendingHits, udp.sessions.Values`pendingAttacks
    modifies dungeon.players.Values`currentMp, dungeon.players.Values`cooldowns, dungeon.players.Values`action
    modifies dungeon.rooms.Values`enemies
    ensures manager.Staffed() && Ready(dungeon)
    ensures udp.Valid() && udp.View() == WithAttacks(old(udp.View()), id, []) && Places(dungeon) == old(Places(dungeon))
    ensures Fought(combat.inside, combat.skillCatalog, id, old(combat.pendingHits), combat.pendingHits,
      old(Fighters(dungeon)), Places(dungeon), old(AttackQueue(udp.View(), id)),
      old(dungeon.RoomWaves()), Fighters(dungeon), dungeon.RoomWaves(), result, struck)
  {
    hide DungeonManager.Valid, DungeonManager.View, DungeonManager.Equipped, DungeonManager.Staffed, Ready;
    hide DungeonUdpManager.Valid, DungeonUdpManager.View, WithAttacks, AttackQueue, Fought, Fighters, Places;
    hide DungeonInstance.RoomWaves;
    hide DungeonInstance.Manned, DungeonInstance.Furnished, DungeonManager.Characters, DungeonManager.Rooms;
    OneDungeon(manager, udp, id);
    result, struck := FightDungeon(combat, id, dungeon);
    PartsOf(dungeon);
    manager.OneCrewWorked(id);
  }

  /** The combat part of a dungeon's turn. */
  method FightIn(
    manager: DungeonManager, udp: DungeonUdpManager, combat: DungeonCombatProcessor, id: DungeonId,
    dungeon: DungeonInstance)
    returns (result: CombatProcessResult, ghost struck: Resolutions)
    requires InOrder(manager, udp) && combat.udpManager == udp
    requires id in manager.dungeons && dungeon == manager.dungeons[id] && dungeon.state.Running?
    modifies combat`pendingHits, udp.sessions.Values`pendingAttacks
    modifies dungeon.players.Values`currentMp, dungeon.players.Values`cooldowns, dungeon.players.Values`action
    modifies dungeon.rooms.Values`enemies
    ensures InOrder(manager, udp) && manager.View() == old(manager.View())
    ensures udp.View() == WithAttacks(old(udp.View()), id, []) && Places(dungeon) == old(Places(dungeon))
    ensures Fought(combat.inside, combat.skillCatalog, id, old(combat.pendingHits), combat.pendingHits,
      old(Fighters(dungeon)), Places(dungeon), old(AttackQueue(udp.View(), id)),
      old(dungeon.RoomWaves()), Fighters(dungeon), dungeon.RoomWaves(), result, struck)
  {
    hide DungeonManager.Valid, DungeonManager.View, DungeonManager.Equipped, DungeonManager.Staffed, Ready;
    hide DungeonUdpManager.Valid, DungeonUdpManager.View, WithAttacks, AttackQueue, Fought, Fighters, Places;
    hide DungeonInstance.RoomWaves;
    hide DungeonInstance.Manned, DungeonInstance.Furnished;
    result, struck := FightCrew(manager, udp, combat, id, dungeon, manager.Characters());
    PartsOf(dungeon);
    manager.OneRoomsetWorked(id);
  }

  /** The occupied rooms are offered their next wave, the characters stay where they are. */
  method AdvanceCrew(manager: DungeonManager, udp: DungeonUdpManager, id: DungeonId, dungeon: DungeonInstance)
    returns (started: nat)
    requires InOrder(manager, udp) && id in manager.dungeons && dungeon == manager.dungeons[id] && dungeon.state.Running?
    modifies dungeon.rooms.Values`currentWave, dungeon.rooms.Values`enemies
    ensures manager.Staffed() && dungeon.Furnished() && old(dungeon.Furnished())
    ensures dungeon.RoomWaves() ==
      DungeonInstance.Pushed(old(dungeon.RoomWaves()), old(dungeon.NextWaves()), dungeon.OccupiedRooms())
  {
    hide DungeonManager.Valid, DungeonManager.View, DungeonManager.Equipped, DungeonManager.Staffed, Ready;
    hide DungeonUdpManager.Valid, DungeonUdpManager.View, DungeonInstance.Furnished, DungeonInstance.Manned;
    hide DungeonInstance.RoomWaves, DungeonInstance.NextWaves, DungeonInstance.Pushed, DungeonInstance.OccupiedRooms;
    OneDungeon(manager, udp, id);
    PartsOf(dungeon);
    started := dungeon.AdvanceRoomWaves();
    manager.LeftStaffed();
  }

  /** The waves of a turn. */
  method AdvanceIn(manager: DungeonManager, udp: DungeonUdpManager, id: DungeonId, dungeon: DungeonInstance)
    returns (started: nat)
    requires InOrder(manager, udp) && id in manager.dungeons && dungeon == manager.dungeons[id] && dungeon.state.Running?
    modifies dungeon.rooms.Values`currentWave, dungeon.rooms.Values`enemies
    ensures InOrder(manager, udp) && manager.View() == old(manager.View()) && udp.View() == old(udp.View())
    ensures old(dungeon.Furnished())
    ensures dungeon.RoomWaves() ==
      DungeonInstance.Pushed(old(dungeon.RoomWaves()), old(dungeon.NextWaves()), dungeon.OccupiedRooms())
  {
    hide DungeonManager.Valid, DungeonManager.View, DungeonManager.Equipped, DungeonManager.Staffed, Ready;
    hide DungeonUdpManager.Valid, DungeonUdpManager.View, DungeonInstance.Furnished, DungeonInstance.Manned;
    hide DungeonInstance.RoomWaves, DungeonInstance.NextWaves, DungeonInstance.Pushed, DungeonInstance.OccupiedRooms;
    OneDungeon(manager, udp, id);
    started := AdvanceCrew(manager, udp, id, dungeon);
    manager.OneRoomsetWorked(id);
  }

  /** The end of a turn. */
  method FinishIn(manager: DungeonManager, udp: DungeonUdpManager, id: DungeonId, dungeon: DungeonInstance)
    returns (cleared: bool)
    requires InOrder(manager, udp) && id in manager.dungeons && dungeon == manager.dungeons[id] && dungeon.state.Running?
    modifies dungeon`state
    ensures InOrder(manager, udp) && udp.View() == old(udp.View())
    ensures dungeon.Furnished() && (cleared <==> dungeon.Cleared())
    ensures id in old(manager.View()).dungeons
    ensures manager.View() == if cleared then WithState(old(manager.View()), id, Finished) else old(manager.View())
  {
    hide Sound, DungeonManager.Equipped, DungeonManager.Staffed, DungeonManager.Dungeons, DungeonManager.Catalogued;
    hide Ready, DungeonUdpManager.Valid, DungeonUdpManager.View, DungeonInstance.Furnished, DungeonInstance.Manned;
    hide SeatIndex.Indexed, DungeonInstance.Seats;
    OneDungeon(manager, udp, id);
    PartsOf(dungeon);
    manager.Held(id);
    manager.Apart(id);
    cleared := dungeon.TryFinishIfCleared();
    manager.OneChanged(id);
    WithStateIsSound(old(manager.View()), id, Finished);
    manager.RoomsUntouched();
    manager.LeftStaffed();
  }

  /** What happens in a turn: who moved in which order, where that left everybody, who struck, and
      what that left of the enemies. */
  datatype Turn = Turn(
    order: seq<SessionId>, movement: MovementProcessResult, moved: Ground, struck: Resolutions,
    combat: CombatProcessResult, fought: map<RoomId, Waves>)

  lemma QueuesApart(sessions: map<DungeonId, Udp>, id: DungeonId)
    ensures AttackQueue(WithMovements(sessions, id, []), id) == AttackQueue(sessions, id)
  {
  }

  lemma GroundParts(dungeon: DungeonInstance)
    ensures GroundOf(dungeon).places == Places(dungeon) && GroundOf(dungeon).waves == dungeon.RoomWaves()
  {
  }

  /** Movement and combat, one after the other. */
  method MoveAndFight(
    manager: DungeonManager, udp: DungeonUdpManager, movement: DungeonMovementProcessor,
    combat: DungeonCombatProcessor, id: DungeonId, dungeon: DungeonInstance)
    returns (ghost turn: Turn)
    requires InOrder(manager, udp) && movement.udpManager == udp && combat.udpManager == udp
    requires id in manager.dungeons && dungeon == manager.dungeons[id] && dungeon.state.Running?
    modifies combat`pendingHits, udp.sessions.Values`pendingMovements, udp.sessions.Values`pendingAttacks
    modifies dungeon.players.Values`position, dungeon.players.Values`roomId
    modifies dungeon.players.Values`currentMp, dungeon.players.Values`cooldowns, dungeon.players.Values`action
    modifies dungeon.rooms.Values`currentWave, dungeon.rooms.Values`enemies
    ensures InOrder(manager, udp) && manager.View() == old(manager.View())
    ensures udp.View() == Emptied(old(udp.View()), id)
    ensures MovementTick(movement.stepOf, dungeon, old(HitPoints(dungeon)), old(MovementQueue(udp.View(), id)),
      old(GroundOf(dungeon)), turn.moved, turn.order, turn.movement)
    ensures Fought(combat.inside, combat.skillCatalog, id, old(combat.pendingHits), combat.pendingHits,
      old(Fighters(dungeon)), turn.moved.places, old(AttackQueue(udp.View(), id)), turn.moved.waves, Fighters(dungeon),
      turn.fought, turn.combat, turn.struck)
    ensures Places(dungeon) == turn.moved.places && dungeon.RoomWaves() == turn.fought
  {
    hide InOrder, DungeonManager.View, DungeonUdpManager.View, WithMovements, WithAttacks, MovementQueue, AttackQueue;
    hide MovementTick, Fought, GroundOf, HitPoints, Fighters, Places, DungeonInstance.RoomWaves;
    QueuesApart(udp.View(), id);
    var moves;
    ghost var order;
    moves, order := MoveIn(manager, udp, movement, id, dungeon);
    ghost var moved := GroundOf(dungeon);
    GroundParts(dungeon);
    var strikes;
    ghost var struck;
    strikes, struck := FightIn(manager, udp, combat, id, dungeon);
    turn := Turn(order, moves, moved, struck, strikes, dungeon.RoomWaves());
  }

  /** After the fight: waves, and perhaps the end. */
  method AdvanceAndFinish(manager: DungeonManager, udp: DungeonUdpManager, id: DungeonId, dungeon: DungeonInstance)
    returns (started: nat, cleared: bool)
    requires InOrder(manager, udp) && id in manager.dungeons && dungeon == manager.dungeons[id] && dungeon.state.Running?
    modifies dungeon`state, dungeon.rooms.Values`currentWave, dungeon.rooms.Values`enemies
    ensures InOrder(manager, udp) && udp.View() == old(udp.View()) && id in old(manager.View()).dungeons
    ensures manager.View() == if cleared then WithState(old(manager.View()), id, Finished) else old(manager.View())
    ensures dungeon.Furnished() && (cleared <==> dungeon.Cleared())
    ensures dungeon.RoomWaves() == DungeonInstance.Pushed(
      old(dungeon.RoomWaves()), NextOf(dungeon, old(dungeon.RoomWaves())), dungeon.OccupiedRooms())
  {
    hide DungeonManager.Valid, DungeonManager.View, DungeonManager.Equipped, DungeonManager.Staffed, Ready, WithState;
    hide DungeonUdpManager.Valid, DungeonUdpManager.View, DungeonInstance.Furnished, DungeonInstance.Manned;
    hide DungeonInstance.RoomWaves, DungeonInstance.NextWaves, DungeonInstance.Pushed, NextOf;
    hide DungeonInstance.Cleared;
    OneDungeon(manager, udp, id);
    PartsOf(dungeon);
    DungeonMovementProcessor.NextWavesAre(dungeon);
    started := AdvanceIn(manager, udp, id, dungeon);
    cleared := FinishIn(manager, udp, id, dungeon);
  }

  /** Up to the end of the fight. */
  method Play(
    manager: DungeonManager, udp: DungeonUdpManager, movement: DungeonMovementProcessor,
    combat: DungeonCombatProcessor, id: DungeonId, dungeon: DungeonInstance, now: Time, idleTimeout: Time)
    returns (ghost turn: Turn)
    requires InOrder(manager, udp) && movement.udpManager == udp && combat.udpManager == udp
    requires id in manager.dungeons && dungeon == manager.dungeons[id] && dungeon.state.Running?
    modifies combat`pendingHits, udp.sessions.Values
    modifies dungeon.players.Values`position, dungeon.players.Values`roomId
    modifies dungeon.players.Values`currentMp, dungeon.players.Values`cooldowns, dungeon.players.Values`action
    modifies dungeon.rooms.Values`currentWave, dungeon.rooms.Values`enemies
    ensures InOrder(manager, udp) && manager.View() == old(manager.View())
    ensures udp.View() == Emptied(Carried(old(udp.View()), id, Prune(now, idleTimeout)), id)
    ensures
      var pruned := Carried(old(udp.View()), id, Prune(now, idleTimeout));
      && MovementTick(movement.stepOf, dungeon, old(HitPoints(dungeon)), MovementQueue(pruned, id),
           old(GroundOf(dungeon)), turn.moved, turn.order, turn.movement)
      && Fought(combat.inside, combat.skillCatalog, id, old(combat.pendingHits), combat.pendingHits,
           old(Fighters(dungeon)), turn.moved.places, AttackQueue(pruned, id), turn.moved.waves, Fighters(dungeon),
           turn.fought, turn.combat, turn.struck)
    ensures Places(dungeon) == turn.moved.places && dungeon.RoomWaves() == turn.fought
  {
    hide InOrder, DungeonManager.View, DungeonUdpManager.View, Carried, Emptied, MovementQueue, AttackQueue;
    hide MovementTick, Fought, GroundOf, HitPoints, Fighters, Places, DungeonInstance.RoomWaves;
    SilenceIdle(manager, udp, id, dungeon, now, idleTimeout);
    turn := MoveAndFight(manager, udp, movement, combat, id, dungeon);
  }

  /** One turn. */
  method TakeTurn(
    manager: DungeonManager, udp: DungeonUdpManager, movement: DungeonMovementProcessor,
    combat: DungeonCombatProcessor, id: DungeonId, dungeon: DungeonInstance, now: Time, idleTimeout: Time)
    returns (ghost turn: Turn, cleared: bool)
    requires InOrder(manager, udp) && movement.udpManager == udp && combat.udpManager == udp
    requires id in manager.dungeons && dungeon == manager.dungeons[id] && dungeon.state.Running?
    modifies combat`pendingHits, udp.sessions.Values, dungeon`state
    modifies dungeon.players.Values`position, dungeon.players.Values`roomId
    modifies dungeon.players.Values`currentMp, dungeon.players.Values`cooldowns, dungeon.players.Values`action
    modifies dungeon.rooms.Values`currentWave, dungeon.rooms.Values`enemies
    ensures InOrder(manager, udp) && id in old(manager.View()).dungeons
    ensures manager.View() == if cleared then WithState(old(manager.View()), id, Finished) else old(manager.View())
    ensures udp.View() == Emptied(Carried(old(udp.View()), id, Prune(now, idleTimeout)), id)
    ensures
      var pruned := Carried(old(udp.View()), id, Prune(now, idleTimeout));
      && MovementTick(movement.stepOf, dungeon, old(HitPoints(dungeon)), MovementQueue(pruned, id),
           old(GroundOf(dungeon)), turn.moved, turn.order, turn.movement)
      && Fought(combat.inside, combat.skillCatalog, id, old(combat.pendingHits), combat.pendingHits,
           old(Fighters(dungeon)), turn.moved.places, AttackQueue(pruned, id), turn.moved.waves, Fighters(dungeon),
           turn.fought, turn.combat, turn.struck)
    ensures Places(dungeon) == turn.moved.places
    ensures dungeon.RoomWaves() ==
      DungeonInstance.Pushed(turn.fought, NextOf(dungeon, turn.fought), dungeon.OccupiedRooms())
    ensures dungeon.Furnished() && (cleared <==> dungeon.Cleared())
  {
    hide InOrder, DungeonManager.View, DungeonUdpManager.View, Carried, Emptied, MovementQueue, AttackQueue;
    hide WithState;
    hide MovementTick, Fought, GroundOf, HitPoints, Fighters, Places, DungeonInstance.RoomWaves, NextOf;
    hide DungeonInstance.Furnished, DungeonInstance.Cleared, DungeonInstance.Pushed, DungeonInstance.OccupiedRooms;
    turn := Play(manager, udp, movement, combat, id, dungeon, now, idleTimeout);
    var started;
    started, cleared := AdvanceAndFinish(manager, udp, id, dungeon);
  }

  // ---------------------------------------------------------------- the turns of a pass

  /** What a turn works on, as values: the characters, where they stand and what the rooms hold, and
      the dungeon's pending hits. */
  datatype Interior = Interior(
    fighters: map<SessionId, Fighter>, hp: map<SessionId, UInt32>, ground: Ground, hits: map<SessionId, PendingHit>)

  ghost function InteriorOf(dungeon: DungeonInstance, hits: map<SessionId, PendingHit>): Interior
    reads dungeon`players, dungeon.players.Values, dungeon.rooms.Values
  {
    Interior(Fighters(dungeon), HitPoints(dungeon), GroundOf(dungeon), hits)
  }

  /** The rooms with a connected character in them. */
  ghost function OccupiedBy(places: map<SessionId, Place>, gone: set<SessionId>): set<RoomId> {
    set s | s in places && s !in gone :: places[s].0
  }

  /** Everybody is in the last room, and every enemy of every room has come and died. */
  ghost predicate NothingLeftIn(dungeon: DungeonInstance, ground: Ground) {
    && dungeon.dungeonTemplate.rooms != [] && ground.places != map[]
    && (forall s :: s in ground.places ==>
          ground.places[s].0 == dungeon.dungeonTemplate.rooms[|dungeon.dungeonTemplate.rooms| - 1].id)
    && (forall id :: id in dungeon.rooms && id in ground.waves ==>
          AllDead(dungeon.rooms[id].roomTemplate.enemySpawns, ground.waves[id]))
  }

  /** A turn, from what it has found to what it has left: the movement tick on the movements that have come,
      the combat tick on what that left and the attacks that have come, the next waves of the occupied
      rooms, and whether the dungeon is cleared. */
  ghost predicate TurnTaken(
    movement: DungeonMovementProcessor, combat: DungeonCombatProcessor, dungeon: DungeonInstance,
    movements: seq<Input<Movement>>, attacks: seq<Input<Attack>>, before: Interior, turn: Turn, after: Interior,
    cleared: bool)
    reads dungeon`disconnectedSince, dungeon.rooms.Values`obstacles
  {
    && MovementTick(
         movement.stepOf, dungeon, before.hp, movements, before.ground, turn.moved, turn.order, turn.movement)
    && AllFit(before.fighters)
    && CombatTick(combat.inside, combat.skillCatalog, before.fighters, before.hits, turn.moved.places, attacks,
         turn.moved.waves, Combat(after.fighters, after.hits), turn.fought, turn.combat, turn.struck)
    && after.ground.places == turn.moved.places
    && after.ground.waves == DungeonInstance.Pushed(
         turn.fought, NextOf(dungeon, turn.fought), OccupiedBy(after.ground.places, dungeon.disconnectedSince.Keys))
    && (cleared <==> NothingLeftIn(dungeon, after.ground))
  }

  lemma OccupiedIs(dungeon: DungeonInstance)
    ensures dungeon.OccupiedRooms() == OccupiedBy(Places(dungeon), dungeon.disconnectedSince.Keys)
  {
    forall s | s in dungeon.players && s !in dungeon.disconnectedSince
      ensures dungeon.players[s].roomId in OccupiedBy(Places(dungeon), dungeon.disconnectedSince.Keys)
    {
      assert Places(dungeon)[s].0 == dungeon.players[s].roomId;
    }
    forall id | id in OccupiedBy(Places(dungeon), dungeon.disconnectedSince.Keys)
      ensures id in dungeon.OccupiedRooms()
    {
      var s :| s in Places(dungeon) && s !in dungeon.disconnectedSince && Places(dungeon)[s].0 == id;
      assert dungeon.players[s].roomId == id;
    }
  }

  lemma ClearedIs(dungeon: DungeonInstance)
    requires dungeon.Furnished()
    ensures dungeon.Cleared() <==> NothingLeftIn(dungeon, GroundOf(dungeon))
  {
    var places := Places(dungeon);
    assert places == map[] <==> dungeon.players == map[];
    assert forall s :: s in places ==> places[s].0 == dungeon.players[s].roomId;
    assert forall id :: id in dungeon.rooms ==>
      (AllKilled(dungeon.rooms[id]) <==> AllDead(dungeon.rooms[id].roomTemplate.enemySpawns, dungeon.RoomWaves()[id]));
  }

  /** With what has come by the UDP manager once the idle endpoints are out. */
  twostate predicate TookTurn(
    udp: DungeonUdpManager, movement: DungeonMovementProcessor, combat: DungeonCombatProcessor, id: DungeonId,
    dungeon: DungeonInstance, now: Time, idleTimeout: Time, turn: Turn, cleared: bool)
    reads dungeon`players, dungeon`disconnectedSince, dungeon.players.Values, dungeon.rooms.Values, combat`pendingHits
  {
    var pruned := Carried(old(udp.View()), id, Prune(now, idleTimeout));
    TurnTaken(movement, combat, dungeon, MovementQueue(pruned, id), AttackQueue(pruned, id),
      old(InteriorOf(dungeon, HitsAt(combat.pendingHits, id))), turn,
      InteriorOf(dungeon, HitsAt(combat.pendingHits, id)), cleared)
  }

  /** One turn, in these terms. */
  method TakeTurnInside(
    manager: DungeonManager, udp: DungeonUdpManager, movement: DungeonMovementProcessor,
    combat: DungeonCombatProcessor, id: DungeonId, dungeon: DungeonInstance, now: Time, idleTimeout: Time)
    returns (ghost turn: Turn, cleared: bool)
    requires InOrder(manager, udp) && movement.udpManager == udp && combat.udpManager == udp
    requires id in manager.dungeons && dungeon == manager.dungeons[id] && dungeon.state.Running?
    modifies combat`pendingHits, udp.sessions.Values, dungeon`state
    modifies dungeon.players.Values`position, dungeon.players.Values`roomId
    modifies dungeon.players.Values`currentMp, dungeon.players.Values`cooldowns, dungeon.players.Values`action
    modifies dungeon.rooms.Values`currentWave, dungeon.rooms.Values`enemies
    ensures InOrder(manager, udp) && id in old(manager.View()).dungeons
    ensures manager.View() == if cleared then WithState(old(manager.View()), id, Finished) else old(manager.View())
    ensures udp.View() == Emptied(Carried(old(udp.View()), id, Prune(now, idleTimeout)), id)
    ensures combat.pendingHits - {id} == old(combat.pendingHits) - {id}
    ensures TookTurn(udp, movement, combat, id, dungeon, now, idleTimeout, turn, cleared)
  {
    hide InOrder, DungeonManager.View, DungeonUdpManager.View, Carried, Emptied, MovementQueue, AttackQueue;
    hide WithState, MovementTick, Fought, HitPoints, Fighters, Places, GroundOf, DungeonInstance.RoomWaves, NextOf;
    hide DungeonInstance.Furnished, DungeonInstance.Cleared, DungeonInstance.Pushed, DungeonInstance.OccupiedRooms;
    hide OccupiedBy, NothingLeftIn, TurnTaken;
    ghost var udpBefore, hits := udp.View(), combat.pendingHits;
    ghost var before := InteriorOf(dungeon, HitsAt(hits, id));
    turn, cleared := TakeTurn(manager, udp, movement, combat, id, dungeon, now, idleTimeout);
    OccupiedIs(dungeon);
    ClearedIs(dungeon);
    GroundParts(dungeon);
    ghost var pruned := Carried(udpBefore, id, Prune(now, idleTimeout));
    Assembled(movement, combat, dungeon, MovementQueue(pruned, id), AttackQueue(pruned, id), id, hits, before, turn,
      InteriorOf(dungeon, HitsAt(combat.pendingHits, id)), cleared);
  }

  lemma Assembled(
    movement: DungeonMovementProcessor, combat: DungeonCombatProcessor, dungeon: DungeonInstance,
    movements: seq<Input<Movement>>, attacks: seq<Input<Attack>>, id: DungeonId,
    hits: map<DungeonId, map<SessionId, PendingHit>>, before: Interior, turn: Turn, after: Interior, cleared: bool)
    requires MovementTick(
      movement.stepOf, dungeon, before.hp, movements, before.ground, turn.moved, turn.order, turn.movement)
    requires Fought(combat.inside, combat.skillCatalog, id, hits, combat.pendingHits, before.fighters,
      turn.moved.places, attacks, turn.moved.waves, after.fighters, turn.fought, turn.combat, turn.struck)
    requires before.hits == HitsAt(hits, id) && after.hits == HitsAt(combat.pendingHits, id)
    requires after.ground.places == turn.moved.places
    requires after.ground.waves == DungeonInstance.Pushed(
      turn.fought, NextOf(dungeon, turn.fought), OccupiedBy(after.ground.places, dungeon.disconnectedSince.Keys))
    requires cleared <==> NothingLeftIn(dungeon, after.ground)
    ensures combat.pendingHits - {id} == hits - {id}
    ensures TurnTaken(movement, combat, dungeon, movements, attacks, before, turn, after, cleared)
  {
    hide MovementTick, CombatTick, DungeonInstance.Pushed, NextOf, OccupiedBy, NothingLeftIn, AllFit, HitsAt;
  }

  /** All dungeons, seen from inside. */
  ghost function Interiors(manager: DungeonManager, hits: map<DungeonId, map<SessionId, PendingHit>>)
    : map<DungeonId, Interior>
    reads manager`dungeons, manager.dungeons.Values`players, manager.Characters(), manager.Rooms()
  {
    map id | id in manager.dungeons && manager.dungeons[id].players.Values <= manager.Characters() &&
        manager.dungeons[id].rooms.Values <= manager.Rooms() ::
      InteriorOf(manager.dungeons[id], HitsAt(hits, id))
  }

  lemma InteriorsOfAll(manager: DungeonManager, hits: map<DungeonId, map<SessionId, PendingHit>>)
    ensures Interiors(manager, hits).Keys == manager.dungeons.Keys
    ensures forall id :: id in manager.dungeons ==>
      Interiors(manager, hits)[id] == InteriorOf(manager.dungeons[id], HitsAt(hits, id))
  {
    hide InteriorOf, HitsAt, DungeonManager.Characters, DungeonManager.Rooms;
    forall id | id in manager.dungeons
      ensures manager.dungeons[id].players.Values <= manager.Characters()
      ensures manager.dungeons[id].rooms.Values <= manager.Rooms()
    {
      manager.CharactersHeld(id);
      manager.RoomsHeld(id);
    }
  }

  lemma HitsElsewhere(
    hits: map<DungeonId, map<SessionId, PendingHit>>, hits': map<DungeonId, map<SessionId, PendingHit>>, id: DungeonId,
    other: DungeonId)
    requires hits' - {id} == hits - {id} && other != id
    ensures HitsAt(hits', other) == HitsAt(hits, other)
  {
    assert other in hits' - {id} <==> other in hits - {id};
    assert other in hits ==> (hits - {id})[other] == hits[other];
    assert other in hits' ==> (hits' - {id})[other] == hits'[other];
  }

  lemma Apart(manager: DungeonManager, udp: DungeonUdpManager, id: DungeonId, other: DungeonId)
    requires InOrder(manager, udp) && id in manager.dungeons && other in manager.dungeons && other != id
    ensures manager.dungeons[other] != manager.dungeons[id]
    ensures manager.dungeons[other].players.Values !! manager.dungeons[id].players.Values
    ensures manager.dungeons[other].rooms.Values !! manager.dungeons[id].rooms.Values
  {
    hide DungeonManager.Equipped, DungeonManager.Staffed, DungeonManager.Housed;
    manager.NothingShared(id);
  }

  /** Whatever its pending hits are, the dungeon is as it was inside. */
  twostate predicate Untouched(dungeon: DungeonInstance)
    reads dungeon`players, dungeon.players.Values, dungeon.rooms.Values
  {
    forall hits :: InteriorOf(dungeon, hits) == old(InteriorOf(dungeon, hits))
  }

  twostate predicate OthersUntouched(manager: DungeonManager, id: DungeonId)
    reads manager`dungeons, manager.dungeons.Values`players, manager.Characters(), manager.Rooms()
  {
    && manager.dungeons == old(manager.dungeons)
    && forall other :: other in manager.dungeons && other != id ==>
      && manager.dungeons[other].players.Values <= manager.Characters()
      && manager.dungeons[other].rooms.Values <= manager.Rooms() && Untouched(manager.dungeons[other])
  }

  /** One turn among the dungeons of the manager: it changes the inside of its own dungeon only. */
  method TurnBesides(
    manager: DungeonManager, udp: DungeonUdpManager, movement: DungeonMovementProcessor,
    combat: DungeonCombatProcessor, id: DungeonId, dungeon: DungeonInstance, now: Time, idleTimeout: Time)
    returns (ghost turn: Turn, cleared: bool)
    requires InOrder(manager, udp) && movement.udpManager == udp && combat.udpManager == udp
    requires id in manager.dungeons && dungeon == manager.dungeons[id] && dungeon.state.Running?
    modifies combat`pendingHits, udp.sessions.Values, dungeon`state
    modifies dungeon.players.Values`position, dungeon.players.Values`roomId
    modifies dungeon.players.Values`currentMp, dungeon.players.Values`cooldowns, dungeon.players.Values`action
    modifies dungeon.rooms.Values`currentWave, dungeon.rooms.Values`enemies
    ensures InOrder(manager, udp) && id in old(manager.View()).dungeons
    ensures manager.View() == if cleared then WithState(old(manager.View()), id, Finished) else old(manager.View())
    ensures udp.View() == Emptied(Carried(old(udp.View()), id, Prune(now, idleTimeout)), id)
    ensures TookTurn(udp, movement, combat, id, dungeon, now, idleTimeout, turn, cleared)
    ensures OthersUntouched(manager, id)
    ensures combat.pendingHits - {id} == old(combat.pendingHits) - {id}
  {
    hide InOrder, DungeonManager.View, DungeonUdpManager.View, Carried, Emptied, WithState, TookTurn;
    hide InteriorOf, HitsAt, Ready, DungeonManager.Characters, DungeonManager.Rooms;
    turn, cleared := TakeTurnInside(manager, udp, movement, combat, id, dungeon, now, idleTimeout);
    forall other | other in manager.dungeons && other != id
      ensures manager.dungeons[other].players.Values <= manager.Characters()
      ensures manager.dungeons[other].rooms.Values <= manager.Rooms() && Untouched(manager.dungeons[other])
    {
      manager.CharactersHeld(other);
      manager.RoomsHeld(other);
      Apart(manager, udp, id, other);
    }
  }

  /** Nothing has changed but the inside of one dungeon. */
  ghost predicate OnlyInside(id: DungeonId, before: map<DungeonId, Interior>, after: map<DungeonId, Interior>) {
    && id in before && after.Keys == before.Keys
    && forall other :: other in before && other != id ==> after[other] == before[other]
  }

  /** One turn in the view of all insides. */
  method TurnAmongAll(
    manager: DungeonManager, udp: DungeonUdpManager, movement: DungeonMovementProcessor,
    combat: DungeonCombatProcessor, id: DungeonId, dungeon: DungeonInstance, now: Time, idleTimeout: Time)
    returns (ghost turn: Turn, cleared: bool)
    requires InOrder(manager, udp) && movement.udpManager == udp && combat.udpManager == udp
    requires id in manager.dungeons && dungeon == manager.dungeons[id] && dungeon.state.Running?
    modifies combat`pendingHits, udp.sessions.Values, dungeon`state
    modifies dungeon.players.Values`position, dungeon.players.Values`roomId
    modifies dungeon.players.Values`currentMp, dungeon.players.Values`cooldowns, dungeon.players.Values`action
    modifies dungeon.rooms.Values`currentWave, dungeon.rooms.Values`enemies
    ensures InOrder(manager, udp) && id in old(manager.View()).dungeons
    ensures manager.View() == if cleared then WithState(old(manager.View()), id, Finished) else old(manager.View())
    ensures udp.View() == Emptied(Carried(old(udp.View()), id, Prune(now, idleTimeout)), id)
    ensures TookTurn(udp, movement, combat, id, dungeon, now, idleTimeout, turn, cleared)
    ensures OnlyInside(id, old(Interiors(manager, combat.pendingHits)), Interiors(manager, combat.pendingHits))
  {
    hide InOrder, DungeonManager.View, DungeonUdpManager.View, Carried, Emptied, WithState, TookTurn, Interiors;
    hide InteriorOf, HitsAt, DungeonManager.Characters, DungeonManager.Rooms, Ready;
    ghost var hits := combat.pendingHits;
    InteriorsOfAll(manager, hits);
    turn, cleared := TurnBesides(manager, udp, movement, combat, id, dungeon, now, idleTimeout);
    InteriorsOfAll(manager, combat.pendingHits);
    forall other | other in manager.dungeons && other != id
      ensures HitsAt(combat.pendingHits, other) == HitsAt(hits, other)
    {
      HitsElsewhere(hits, combat.pendingHits, id, other);
    }
  }

  /** The inputs of a dungeon once its idle endpoints are out. */
  ghost function MovementsOf(udp: map<DungeonId, Udp>, id: DungeonId, now: Time, idleTimeout: Time)
    : seq<Input<Movement>>
  {
    MovementQueue(Carried(udp, id, Prune(now, idleTimeout)), id)
  }

  ghost function AttacksOf(udp: map<DungeonId, Udp>, id: DungeonId, now: Time, idleTimeout: Time): seq<Input<Attack>> {
    AttackQueue(Carried(udp, id, Prune(now, idleTimeout)), id)
  }

  /** One dungeon has had its turn, the others are as before. */
  ghost predicate TookTurnAmong(
    manager: DungeonManager, movement: DungeonMovementProcessor, combat: DungeonCombatProcessor, id: DungeonId,
    udp: map<DungeonId, Udp>, before: map<DungeonId, Interior>, after: map<DungeonId, Interior>, now: Time,
    idleTimeout: Time, turn: Turn, cleared: bool)
    reads manager`dungeons, manager.dungeons.Values`disconnectedSince, manager.Rooms()`obstacles
  {
    && OnlyInside(id, before, after) && id in manager.dungeons && manager.dungeons[id].rooms.Values <= manager.Rooms()
    && TurnTaken(movement, combat, manager.dungeons[id], MovementsOf(udp, id, now, idleTimeout),
         AttacksOf(udp, id, now, idleTimeout), before[id], turn, after[id], cleared)
  }

  /** One turn in the view of all insides, with what it has done inside. */
  method TurnInPass(
    manager: DungeonManager, udp: DungeonUdpManager, movement: DungeonMovementProcessor,
    combat: DungeonCombatProcessor, id: DungeonId, dungeon: DungeonInstance, now: Time, idleTimeout: Time)
    returns (ghost turn: Turn, cleared: bool)
    requires InOrder(manager, udp) && movement.udpManager == udp && combat.udpManager == udp
    requires id in manager.dungeons && dungeon == manager.dungeons[id] && dungeon.state.Running?
    modifies combat`pendingHits, udp.sessions.Values, dungeon`state
    modifies dungeon.players.Values`position, dungeon.players.Values`roomId
    modifies dungeon.players.Values`currentMp, dungeon.players.Values`cooldowns, dungeon.players.Values`action
    modifies dungeon.rooms.Values`currentWave, dungeon.rooms.Values`enemies
    ensures InOrder(manager, udp) && id in old(manager.View()).dungeons
    ensures manager.View() == if cleared then WithState(old(manager.View()), id, Finished) else old(manager.View())
    ensures udp.View() == Emptied(Carried(old(udp.View()), id, Prune(now, idleTimeout)), id)
    ensures TookTurnAmong(manager, movement, combat, id, old(udp.View()), old(Interiors(manager, combat.pendingHits)),
      Interiors(manager, combat.pendingHits), now, idleTimeout, turn, cleared)
  {
    hide InOrder, DungeonManager.View, DungeonUdpManager.View, Carried, Emptied, WithState, Interiors, OnlyInside;
    hide InteriorOf, HitsAt, DungeonManager.Characters, DungeonManager.Rooms, Ready, TurnTaken, MovementQueue;
    hide AttackQueue;
    InteriorsOfAll(manager, combat.pendingHits);
    turn, cleared := TurnAmongAll(manager, udp, movement, combat, id, dungeon, now, idleTimeout);
    InteriorsOfAll(manager, combat.pendingHits);
    manager.RoomsHeld(id);
  }

  lemma OwnQueues(udp: map<DungeonId, Udp>, other: map<DungeonId, Udp>, id: DungeonId, now: Time, idleTimeout: Time)
    requires Lookup(udp, id) == Lookup(other, id)
    ensures MovementsOf(udp, id, now, idleTimeout) == MovementsOf(other, id, now, idleTimeout)
    ensures AttacksOf(udp, id, now, idleTimeout) == AttacksOf(other, id, now, idleTimeout)
  {
    hide Handled;
  }

  /** A pass over the running dungeons: the objects, what had come for them, how they were inside, their
      turns, and how they are inside after it. */
  datatype RunningTurns = RunningTurns(
    all: map<DungeonId, DungeonInstance>, udp: map<DungeonId, Udp>, before: map<DungeonId, Interior>,
    turns: map<DungeonId, Turn>, after: map<DungeonId, Interior>)

  ghost function RoomsIn(all: map<DungeonId, DungeonInstance>): set<RoomState> {
    set id, r | id in all && r in all[id].rooms.Values :: r
  }

  /** Each dungeon of the list has had its turn. */
  ghost predicate TurnsTaken(
    movement: DungeonMovementProcessor, combat: DungeonCombatProcessor, r: RunningTurns, ids: seq<DungeonId>, now: Time,
    idleTimeout: Time, cleared: set<DungeonId>)
    reads r.all.Values`disconnectedSince, RoomsIn(r.all)`obstacles
  {
    forall id :: id in ids ==>
      && id in r.all && id in r.before && id in r.turns && id in r.after && r.all[id].rooms.Values <= RoomsIn(r.all)
      && TurnTaken(movement, combat, r.all[id], MovementsOf(r.udp, id, now, idleTimeout),
           AttacksOf(r.udp, id, now, idleTimeout), r.before[id], r.turns[id], r.after[id], id in cleared)
  }

  /** Nothing has changed but the insides of the dungeons of the list. */
  ghost predicate OnlyInsides(ids: seq<DungeonId>, before: map<DungeonId, Interior>, after: map<DungeonId, Interior>) {
    after.Keys == before.Keys && forall id :: id in before && id !in ids ==> after[id] == before[id]
  }

  /** Dungeons may be gone; the others are as they were inside. */
  ghost predicate FewerInsides(before: map<DungeonId, Interior>, after: map<DungeonId, Interior>) {
    forall id :: id in after ==> id in before && after[id] == before[id]
  }

  lemma NobodyYet(
    movement: DungeonMovementProcessor, combat: DungeonCombatProcessor, r: RunningTurns, ids: seq<DungeonId>, now: Time,
    idleTimeout: Time)
    requires r.after == r.before
    ensures TurnsTaken(movement, combat, r, ids[..0], now, idleTimeout, {}) && OnlyInsides(ids[..0], r.before, r.after)
  {
  }

  lemma OneMoreInside(
    ids: seq<DungeonId>, i: nat, before: map<DungeonId, Interior>, now_: map<DungeonId, Interior>,
    after: map<DungeonId, Interior>)
    requires i < |ids| && ids[i] !in ids[..i] && OnlyInsides(ids[..i], before, now_) && OnlyInside(ids[i], now_, after)
    ensures OnlyInsides(ids[..i + 1], before, after) && ids[i] in before && now_[ids[i]] == before[ids[i]]
  {
    assert ids[..i + 1] == ids[..i] + [ids[i]];
  }

  /** One more turn of the pass. */
  lemma OneMoreTaken(
    movement: DungeonMovementProcessor, combat: DungeonCombatProcessor, r: RunningTurns, ids: seq<DungeonId>, i: nat,
    now: Time, idleTimeout: Time, cleared: set<DungeonId>, turn: Turn, after: map<DungeonId, Interior>, ends: bool)
    requires i < |ids| && ids[i] !in ids[..i] && forall id :: id in cleared ==> id in ids[..i]
    requires TurnsTaken(movement, combat, r, ids[..i], now, idleTimeout, cleared) && OnlyInside(ids[i], r.after, after)
    requires ids[i] in r.all && ids[i] in r.before && r.all[ids[i]].rooms.Values <= RoomsIn(r.all)
    requires TurnTaken(movement, combat, r.all[ids[i]], MovementsOf(r.udp, ids[i], now, idleTimeout),
      AttacksOf(r.udp, ids[i], now, idleTimeout), r.before[ids[i]], turn, after[ids[i]], ends)
    ensures TurnsTaken(movement, combat, r.(turns := r.turns[ids[i] := turn], after := after), ids[..i + 1], now,
      idleTimeout, if ends then cleared + {ids[i]} else cleared)
  {
    hide TurnTaken, MovementsOf, AttacksOf, RoomsIn;
    assert ids[..i + 1] == ids[..i] + [ids[i]];
  }
}
