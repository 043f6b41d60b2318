/** The movement part of a tick (src/DungeonMovementProcessor.cpp): the queue is drained, of each
    session's movements only the newest counts, and it moves the session's character at most
    once. How far a movement leads is a parameter. */
module DungeonMovementProcessors {
  import opened Common
  import opened DungeonRoom
  import opened RoomStates
  import opened PlayerState
  import SeatIndex
  import opened DungeonInstances
  import opened InputLane
  import opened UdpSession
  import opened DungeonUdpManagers

  datatype MovementProcessResult = MovementProcessResult(receivedCount: nat, appliedCount: nat, rejectedCount: nat)

  /** The drain after n inputs: what each session sent last. */
  ghost predicate DrainedSoFar(
    queue: seq<Input<Movement>>, n: nat, latest: map<SessionId, Movement>, next: Option<Input<Movement>>,
    left: seq<Input<Movement>>)
  {
    && n <= |queue| && latest == Messages(Latest(queue[..n]))
    && (if n < |queue| then next == Some(queue[n]) && left == queue[n + 1..] else next == None && left == [])
  }

  ghost function Messages(latest: map<SessionId, Input<Movement>>): map<SessionId, Movement> {
    map s | s in latest :: latest[s].message
  }

  lemma DrainBegins(queue: seq<Input<Movement>>)
    ensures DrainedSoFar(queue, 0, map[], FirstOf(queue), RestOf(queue))
  {
  }

  lemma DrainNext(
    queue: seq<Input<Movement>>, n: nat, latest: map<SessionId, Movement>, next: Option<Input<Movement>>,
    left: seq<Input<Movement>>)
    requires DrainedSoFar(queue, n, latest, next, left) && next.Some?
    ensures n < |queue|
    ensures DrainedSoFar(queue, n + 1, latest[next.value.sessionId := next.value.message], FirstOf(left), RestOf(left))
  {
    assert queue[..n + 1][..n] == queue[..n];
    assert queue[..n + 1][n] == queue[n];
  }

  lemma DrainEnds(queue: seq<Input<Movement>>, n: nat, latest: map<SessionId, Movement>, left: seq<Input<Movement>>)
    requires DrainedSoFar(queue, n, latest, None, left)
    ensures latest == Messages(Latest(queue)) && n == |queue| && left == []
  {
    assert queue[..n] == queue;
  }

  // ---------------------------------------------------------------- one move on plain values

  type Place = (RoomId, Position)

  /** Where the characters stand and what the rooms hold. */
  datatype Ground = Ground(places: map<SessionId, Place>, waves: map<RoomId, Waves>)

  ghost function GroundOf(dungeon: DungeonInstance): Ground
    reads dungeon`players, dungeon.players.Values, dungeon.rooms.Values
  {
    Ground(Places(dungeon), dungeon.RoomWaves())
  }

  ghost function HitPoints(dungeon: DungeonInstance): map<SessionId, UInt32>
    reads dungeon`players, dungeon.players.Values`currentHp
  {
    map s | s in dungeon.players :: dungeon.players[s].currentHp
  }

  /** What each room would hold after one more wave. */
  ghost function NextOf(dungeon: DungeonInstance, waves: map<RoomId, Waves>): map<RoomId, (Waves, bool)> {
    map id | id in dungeon.rooms && id in waves &&
      SpawnsAccepted(dungeon.rooms[id].roomTemplate.enemySpawns, dungeon.rooms[id].enemyCatalog) ::
      Started(dungeon.rooms[id].roomTemplate, dungeon.rooms[id].enemyCatalog, waves[id])
  }

  /** A place a character can be put: its room is there and nothing stands in the way. */
  ghost predicate Free(dungeon: DungeonInstance, place: Place)
    reads dungeon.rooms.Values`obstacles
  {
    && place.0 in dungeon.rooms
    && |dungeon.rooms[place.0].obstacles| == |dungeon.rooms[place.0].roomTemplate.obstacles|
    && dungeon.rooms[place.0].PositionResult(place.1).Valid?
  }

  ghost predicate AllDead(spawns: seq<EnemySpawnTemplate>, room: Waves) {
    forall k :: 0 <= k < |spawns| ==> SpawnedAndKilled(room, spawns[k])
  }

  /** The portal a place leads through: the first one whose trigger area holds it, unless that
      asks for a cleared room and this one is not, or its far end is not free. */
  ghost function PortalAt(dungeon: DungeonInstance, waves: map<RoomId, Waves>, place: Place): Option<PortalTemplate>
    reads dungeon.rooms.Values`obstacles
  {
    if place.0 !in dungeon.rooms || place.0 !in waves then None
    else
      var template := dungeon.rooms[place.0].roomTemplate;
      var k := PortalUnder(template.portals, place.1, 0);
      if k == |template.portals| then None
      else
        var portal := template.portals[k];
        if portal.requiresRoomClear && !AllDead(template.enemySpawns, waves[place.0]) then None
        else if !Free(dungeon, (portal.targetRoomId, portal.targetPosition)) then None
        else Some(portal)
  }

  /** A character steps through the portal it stands under, if that is open; the room behind it is
      offered its next wave. */
  ghost function Ported(dungeon: DungeonInstance, g: Ground, s: SessionId): Ground
    requires s in g.places
    reads dungeon.rooms.Values`obstacles
  {
    var portal := PortalAt(dungeon, g.waves, g.places[s]);
    if portal.None? then g
    else
      Ground(g.places[s := (portal.value.targetRoomId, portal.value.targetPosition)],
             DungeonInstance.Pushed(g.waves, NextOf(dungeon, g.waves), {portal.value.targetRoomId}))
  }

  /** Whether a movement takes effect: the character is there and alive, and the step ends in a
      free place of its room. */
  ghost predicate CanMove(
    stepOf: (Movement, Position) -> Position, dungeon: DungeonInstance, hp: map<SessionId, UInt32>,
    places: map<SessionId, Place>, s: SessionId, movement: Movement)
    reads dungeon.rooms.Values`obstacles
  {
    && s in places && s in hp && hp[s] > 0
    && Free(dungeon, (places[s].0, stepOf(movement, places[s].1)))
  }

  /** One session's move: a step and, after it, perhaps a portal. */
  ghost function MovedOne(
    stepOf: (Movement, Position) -> Position, dungeon: DungeonInstance, hp: map<SessionId, UInt32>, g: Ground,
    s: SessionId, movement: Movement): Ground
    reads dungeon.rooms.Values`obstacles
  {
    if !CanMove(stepOf, dungeon, hp, g.places, s, movement) then g
    else Ported(dungeon, g.(places := g.places[s := (g.places[s].0, stepOf(movement, g.places[s].1))]), s)
  }

  /** The moves of some sessions, in a given order. */
  ghost function MovedAll(
    stepOf: (Movement, Position) -> Position, dungeon: DungeonInstance, hp: map<SessionId, UInt32>, g: Ground,
    latest: map<SessionId, Movement>, order: seq<SessionId>): Ground
    requires forall s | s in order :: s in latest
    reads dungeon.rooms.Values`obstacles
  {
    if order == [] then g
    else
      var s := order[|order| - 1];
      MovedOne(stepOf, dungeon, hp, MovedAll(stepOf, dungeon, hp, g, latest, order[..|order| - 1]), s, latest[s])
  }

  /** The sessions whose movement takes effect, as things stand before anybody moves. */
  ghost function Movers(
    stepOf: (Movement, Position) -> Position, dungeon: DungeonInstance, hp: map<SessionId, UInt32>,
    places: map<SessionId, Place>, latest: map<SessionId, Movement>): set<SessionId>
    reads dungeon.rooms.Values`obstacles
  {
    set s | s in latest && CanMove(stepOf, dungeon, hp, places, s, latest[s])
  }

  /** Where one movement can leave a character: where it was, one step on in the same room, or at
      the far end of the portal under that step. */
  ghost predicate Landed(
    stepOf: (Movement, Position) -> Position, dungeon: DungeonInstance, movement: Movement, moves: bool,
    before: Place, after: Place)
  {
    if !moves then after == before
    else
      var step := (before.0, stepOf(movement, before.1));
      after == step ||
        (before.0 in dungeon.rooms &&
          var portals := dungeon.rooms[before.0].roomTemplate.portals;
          var k := PortalUnder(portals, step.1, 0);
          k < |portals| && after == (portals[k].targetRoomId, portals[k].targetPosition))
  }

  lemma MovedOneLands(
    stepOf: (Movement, Position) -> Position, dungeon: DungeonInstance, hp: map<SessionId, UInt32>, g: Ground,
    s: SessionId, movement: Movement)
    ensures
      var after := MovedOne(stepOf, dungeon, hp, g, s, movement).places;
      && after.Keys == g.places.Keys
      && (forall t :: t in g.places && t != s ==> after[t] == g.places[t])
      && (s in g.places ==>
            Landed(stepOf, dungeon, movement, CanMove(stepOf, dungeon, hp, g.places, s, movement), g.places[s], after[s]))
  {
    hide Free, AllDead, DungeonInstance.Pushed, NextOf;
  }

  /** Whatever the order: the same movements take effect, each at most once, and nobody is moved
      by anything but the newest movement of its own session. */
  lemma {:induction false} OrderDecidesNoMove(
    stepOf: (Movement, Position) -> Position, dungeon: DungeonInstance, hp: map<SessionId, UInt32>, g: Ground,
    latest: map<SessionId, Movement>, order: seq<SessionId>)
    requires Distinct(order) && forall s | s in order :: s in latest
    ensures
      var after := MovedAll(stepOf, dungeon, hp, g, latest, order).places;
      && after.Keys == g.places.Keys
      && (forall s :: s in g.places && s !in order ==> after[s] == g.places[s])
      && (forall s :: s in g.places && s in order ==>
            Landed(stepOf, dungeon, latest[s], s in Movers(stepOf, dungeon, hp, g.places, latest), g.places[s], after[s]))
  {
    if order != [] {
      hide Landed, MovedOne, Free;
      var init, last := order[..|order| - 1], order[|order| - 1];
      assert order == init + [last] && last !in init;
      OrderDecidesNoMove(stepOf, dungeon, hp, g, latest, init);
      MovedOneLands(stepOf, dungeon, hp, MovedAll(stepOf, dungeon, hp, g, latest, init), last, latest[last]);
    }
  }

  // ---------------------------------------------------------------- the order of the moves

  /** Every room holds exactly the spawns of its waves so far. */
  ghost predicate WavesFit(dungeon: DungeonInstance, waves: map<RoomId, Waves>) {
    && waves.Keys == dungeon.rooms.Keys
    && forall id :: id in waves ==> RoomFits(dungeon.rooms[id], waves[id])
  }

  ghost predicate RoomFits(room: RoomState, w: Waves) {
    SpawnsAccepted(room.roomTemplate.enemySpawns, room.enemyCatalog) && Populated(room.roomTemplate, room.enemyCatalog, w)
  }

  lemma GroundFits(dungeon: DungeonInstance)
    requires Ready(dungeon)
    ensures WavesFit(dungeon, GroundOf(dungeon).waves)
  {
  }

  /** Where a movement takes its session's character, as things stand before anybody moves: nowhere if
      it is dead or the step does not end in a free place, through the portal under the step if that is
      open, and otherwise one step on. */
  ghost function Destination(
    stepOf: (Movement, Position) -> Position, dungeon: DungeonInstance, hp: map<SessionId, UInt32>, g: Ground,
    s: SessionId, movement: Movement): Place
    requires s in g.places
    reads dungeon.rooms.Values`obstacles
  {
    var step := (g.places[s].0, stepOf(movement, g.places[s].1));
    if s !in hp || hp[s] == 0 || !Free(dungeon, step) then g.places[s]
    else
      match PortalAt(dungeon, g.waves, step)
      case None => step
      case Some(portal) => (portal.targetRoomId, portal.targetPosition)
  }

  ghost function Those(order: seq<SessionId>): set<SessionId> {
    set s | s in order
  }

  /** The rooms that are entered through a portal. */
  ghost function Entered(
    stepOf: (Movement, Position) -> Position, dungeon: DungeonInstance, hp: map<SessionId, UInt32>, g: Ground,
    latest: map<SessionId, Movement>, moved: set<SessionId>): set<RoomId>
    reads dungeon.rooms.Values`obstacles
  {
    set s | s in moved && s in latest && s in g.places && CanMove(stepOf, dungeon, hp, g.places, s, latest[s])
      && PortalAt(dungeon, g.waves, (g.places[s].0, stepOf(latest[s], g.places[s].1))).Some? ::
      PortalAt(dungeon, g.waves, (g.places[s].0, stepOf(latest[s], g.places[s].1))).value.targetRoomId
  }

  /** The iteration order decides nothing at all: every session of the list ends where its newest
      movement would have taken it alone, and every room that anybody enters through a portal is
      offered its next wave, once. */
  lemma {:induction false} OrderDecidesNothing(
    stepOf: (Movement, Position) -> Position, dungeon: DungeonInstance, hp: map<SessionId, UInt32>, g: Ground,
    latest: map<SessionId, Movement>, order: seq<SessionId>)
    requires WavesFit(dungeon, g.waves) && Distinct(order) && forall s | s in order :: s in latest
    ensures
      var after := MovedAll(stepOf, dungeon, hp, g, latest, order);
      && after.places.Keys == g.places.Keys
      && (forall s :: s in g.places && s in order ==>
            after.places[s] == Destination(stepOf, dungeon, hp, g, s, latest[s]))
      && (forall s :: s in g.places && s !in order ==> after.places[s] == g.places[s])
      && after.waves == DungeonInstance.Pushed(
           g.waves, NextOf(dungeon, g.waves), Entered(stepOf, dungeon, hp, g, latest, Those(order)))
  {
    hide WavesFit, Destination, MovedOne, NextOf, DungeonInstance.Pushed;
    if order == [] {
      assert Entered(stepOf, dungeon, hp, g, latest, Those(order)) == {};
      NothingPushed(g.waves, NextOf(dungeon, g.waves));
    } else {
      hide Entered;
      var init, last := order[..|order| - 1], order[|order| - 1];
      assert order == init + [last] && last !in init;
      OrderDecidesNothing(stepOf, dungeon, hp, g, latest, init);
      var now := MovedAll(stepOf, dungeon, hp, g, latest, init);
      assert Those(order) == Those(init) + {last};
      NextMoves(stepOf, dungeon, hp, g, latest, Those(init), now, last);
    }
  }

  lemma NothingPushed(waves: map<RoomId, Waves>, next: map<RoomId, (Waves, bool)>)
    ensures DungeonInstance.Pushed(waves, next, {}) == waves
  {
  }

  /** The next session's move comes out as it would have at the start. */
  lemma NextMoves(
    stepOf: (Movement, Position) -> Position, dungeon: DungeonInstance, hp: map<SessionId, UInt32>, g: Ground,
    latest: map<SessionId, Movement>, moved: set<SessionId>, now: Ground, s: SessionId)
    requires WavesFit(dungeon, g.waves) && s in latest && s !in moved && now.places.Keys == g.places.Keys
    requires s in g.places ==> now.places[s] == g.places[s]
    requires now.waves == DungeonInstance.Pushed(
      g.waves, NextOf(dungeon, g.waves), Entered(stepOf, dungeon, hp, g, latest, moved))
    ensures
      var after := MovedOne(stepOf, dungeon, hp, now, s, latest[s]);
      && after.places == (if s in g.places
           then now.places[s := Destination(stepOf, dungeon, hp, g, s, latest[s])] else now.places)
      && after.waves == DungeonInstance.Pushed(
           g.waves, NextOf(dungeon, g.waves), Entered(stepOf, dungeon, hp, g, latest, moved + {s}))
  {
    hide WavesFit, NextOf, DungeonInstance.Pushed, Free, PortalAt, Entered;
    var entered := Entered(stepOf, dungeon, hp, g, latest, moved);
    EnteredOneMore(stepOf, dungeon, hp, g, latest, moved, s);
    assert entered + {} == entered;
    if s in g.places && CanMove(stepOf, dungeon, hp, g.places, s, latest[s]) {
      var step := (g.places[s].0, stepOf(latest[s], g.places[s].1));
      SamePortal(dungeon, g.waves, entered, step);
      var portal := PortalAt(dungeon, g.waves, step);
      if portal.Some? {
        PortalLeadsToRoom(dungeon, g.waves, step);
        OfferedOnceMore(dungeon, g.waves, entered, portal.value.targetRoomId);
      }
      assert now.places[s := step][s := step] == now.places[s := step];
    } else if s in g.places {
      assert now.places[s := g.places[s]] == now.places;
    }
  }

  lemma EnteredOneMore(
    stepOf: (Movement, Position) -> Position, dungeon: DungeonInstance, hp: map<SessionId, UInt32>, g: Ground,
    latest: map<SessionId, Movement>, moved: set<SessionId>, s: SessionId)
    requires s in latest
    ensures
      var more :=
        if s !in g.places || !CanMove(stepOf, dungeon, hp, g.places, s, latest[s]) then None
        else PortalAt(dungeon, g.waves, (g.places[s].0, stepOf(latest[s], g.places[s].1)));
      Entered(stepOf, dungeon, hp, g, latest, moved + {s}) ==
        Entered(stepOf, dungeon, hp, g, latest, moved) + if more.Some? then {more.value.targetRoomId} else {}
  {
    hide CanMove, PortalAt;
  }

  lemma PortalLeadsToRoom(dungeon: DungeonInstance, waves: map<RoomId, Waves>, place: Place)
    ensures PortalAt(dungeon, waves, place).Some? ==> PortalAt(dungeon, waves, place).value.targetRoomId in dungeon.rooms
  {
  }

  /** Waves started in the meantime open no portal and shut none. */
  lemma SamePortal(dungeon: DungeonInstance, waves: map<RoomId, Waves>, entered: set<RoomId>, place: Place)
    requires WavesFit(dungeon, waves)
    ensures
      PortalAt(dungeon, DungeonInstance.Pushed(waves, NextOf(dungeon, waves), entered), place) ==
      PortalAt(dungeon, waves, place)
  {
    hide Free, AllDead;
    if place.0 in waves {
      var room := dungeon.rooms[place.0];
      SameDead(room.roomTemplate, room.enemyCatalog, waves[place.0]);
    }
  }

  lemma SameDead(t: RoomTemplate, catalog: EnemyCatalog, w: Waves)
    requires SpawnsAccepted(t.enemySpawns, catalog) && Populated(t, catalog, w)
    ensures AllDead(t.enemySpawns, Started(t, catalog, w).0) <==> AllDead(t.enemySpawns, w)
  {
    hide Started, Populated, RoomStates.Cleared, SpawnedAndKilled;
    StartKeepsRoll(t, catalog, w);
    StartingClearsNothing(t, catalog, w);
    ClearedMeansAllKilled(t, catalog, w);
    ClearedMeansAllKilled(t, catalog, Started(t, catalog, w).0);
  }

  /** One more room offered its wave, whether or not it has been offered one already. */
  lemma OfferedOnceMore(dungeon: DungeonInstance, waves: map<RoomId, Waves>, entered: set<RoomId>, id: RoomId)
    requires WavesFit(dungeon, waves) && id in dungeon.rooms
    ensures
      var now := DungeonInstance.Pushed(waves, NextOf(dungeon, waves), entered);
      DungeonInstance.Pushed(now, NextOf(dungeon, now), {id}) ==
        DungeonInstance.Pushed(waves, NextOf(dungeon, waves), entered + {id})
  {
    hide Populated, Started, SpawnsAccepted;
    var room := dungeon.rooms[id];
    StartedTwice(room.roomTemplate, room.enemyCatalog, waves[id]);
  }

  /** So two orders of the same sessions leave the same ground. */
  lemma AnyOrderWillDo(
    stepOf: (Movement, Position) -> Position, dungeon: DungeonInstance, hp: map<SessionId, UInt32>, g: Ground,
    latest: map<SessionId, Movement>, order: seq<SessionId>, other: seq<SessionId>)
    requires WavesFit(dungeon, g.waves)
    requires ListsOnce(order, latest.Keys) && ListsOnce(other, latest.Keys)
    ensures MovedAll(stepOf, dungeon, hp, g, latest, order) == MovedAll(stepOf, dungeon, hp, g, latest, other)
  {
    hide WavesFit, Destination, MovedAll, Entered, NextOf, DungeonInstance.Pushed;
    OrderDecidesNothing(stepOf, dungeon, hp, g, latest, order);
    OrderDecidesNothing(stepOf, dungeon, hp, g, latest, other);
    assert Those(order) == Those(other);
  }

  /** The movement part of a tick: of each session in the queue the newest movement is carried out,
      in some order, and everything is counted. */
  ghost predicate MovementTick(
    stepOf: (Movement, Position) -> Position, dungeon: DungeonInstance, hp: map<SessionId, UInt32>,
    queue: seq<Input<Movement>>, before: Ground, after: Ground, order: seq<SessionId>, result: MovementProcessResult)
    reads dungeon.rooms.Values`obstacles
  {
    var latest := Messages(Latest(queue));
    && result.receivedCount == |queue|
    && result.appliedCount == |Movers(stepOf, dungeon, hp, before.places, latest)|
    && result.appliedCount + result.rejectedCount == |latest.Keys|
    && ListsOnce(order, latest.Keys)
    && after == MovedAll(stepOf, dungeon, hp, before, latest, order)
  }

  // ---------------------------------------------------------------- the processor

  class DungeonMovementProcessor {
    const udpManager: DungeonUdpManager
    const stepOf: (Movement, Position) -> Position

    constructor (udpManager: DungeonUdpManager, stepOf: (Movement, Position) -> Position)
      ensures this.udpManager == udpManager && this.stepOf == stepOf
    {
      this.udpManager, this.stepOf := udpManager, stepOf;
    }

    /** The drain loop of Process. */
    method Drain(dungeonId: DungeonId) returns (latestMovements: map<SessionId, Movement>, receivedCount: nat)
      requires udpManager.Valid()
      modifies udpManager.sessions.Values`pendingMovements
      ensures udpManager.Valid() && udpManager.View() == WithMovements(old(udpManager.View()), dungeonId, [])
      ensures latestMovements == Messages(Latest(old(MovementQueue(udpManager.View(), dungeonId))))
      ensures receivedCount == |old(MovementQueue(udpManager.View(), dungeonId))|
    {
      hide DungeonUdpManager.Valid, DungeonUdpManager.View, MovementQueue, WithMovements, DrainedSoFar, Latest;
      ghost var queue := MovementQueue(udpManager.View(), dungeonId);
      QueuesReplaced(udpManager.View(), dungeonId);
      latestMovements, receivedCount := map[], 0;
      DrainBegins(queue);
      var next := Pop(dungeonId);
      while next.Some?
        invariant udpManager.Valid()
        invariant udpManager.View() ==
          WithMovements(old(udpManager.View()), dungeonId, MovementQueue(udpManager.View(), dungeonId))
        invariant DrainedSoFar(queue, receivedCount, latestMovements, next, MovementQueue(udpManager.View(), dungeonId))
        decreases TurnsLeft(next, queue, receivedCount)
      {
        DrainNext(queue, receivedCount, latestMovements, next, MovementQueue(udpManager.View(), dungeonId));
        latestMovements := latestMovements[next.value.sessionId := next.value.message];
        receivedCount := receivedCount + 1;
        next := Pop(dungeonId);
      }
      DrainEnds(queue, receivedCount, latestMovements, MovementQueue(udpManager.View(), dungeonId));
    }

    method Pop(dungeonId: DungeonId) returns (next: Option<Input<Movement>>)
      requires udpManager.Valid()
      modifies udpManager.sessions.Values`pendingMovements
      ensures udpManager.Valid() && next == FirstOf(old(MovementQueue(udpManager.View(), dungeonId)))
      ensures MovementQueue(udpManager.View(), dungeonId) == RestOf(old(MovementQueue(udpManager.View(), dungeonId)))
      ensures udpManager.View() ==
        WithMovements(old(udpManager.View()), dungeonId, MovementQueue(udpManager.View(), dungeonId))
    {
      hide DungeonUdpManager.Valid, DungeonUdpManager.View, MovementQueue, Carried, WithMovements;
      PoppedQueues(udpManager.View(), dungeonId);
      next := udpManager.TryPopMovement(dungeonId);
    }

    /** The drain leaves the dungeon alone. */
    method DrainFor(dungeonId: DungeonId, ghost dungeon: DungeonInstance)
      returns (latestMovements: map<SessionId, Movement>, receivedCount: nat)
      requires udpManager.Valid() && Ready(dungeon)
      modifies udpManager.sessions.Values`pendingMovements
      ensures udpManager.Valid() && udpManager.View() == WithMovements(old(udpManager.View()), dungeonId, [])
      ensures latestMovements == Messages(Latest(old(MovementQueue(udpManager.View(), dungeonId))))
      ensures receivedCount == |old(MovementQueue(udpManager.View(), dungeonId))|
      ensures Ready(dungeon) && GroundOf(dungeon) == old(GroundOf(dungeon)) && HitPoints(dungeon) == old(HitPoints(dungeon))
    {
      hide DungeonUdpManager.Valid, DungeonUdpManager.View, MovementQueue, Latest, Ready, GroundOf, HitPoints;
      hide Messages;
      latestMovements, receivedCount := Drain(dungeonId);
    }

    /** One movement part of a tick. On a dungeon that does not run nothing happens; otherwise the
        queue is drained, and the newest movement of each session is carried out, one session
        after the other in some order. */
    method Process(dungeonId: DungeonId, dungeon: Option<DungeonInstance>)
      returns (result: MovementProcessResult, ghost order: seq<SessionId>)
      requires udpManager.Valid() && (dungeon.Some? ==> Ready(dungeon.value))
      modifies udpManager.sessions.Values`pendingMovements
      modifies CharactersOf(dungeon)`position, CharactersOf(dungeon)`roomId
      modifies RoomsOf(dungeon)`currentWave, RoomsOf(dungeon)`enemies
      ensures udpManager.Valid() && (dungeon.Some? ==> Ready(dungeon.value))
      ensures !Runs(dungeon) ==>
        result == MovementProcessResult(0, 0, 0) && udpManager.View() == old(udpManager.View())
      ensures dungeon.Some? && !dungeon.value.state.Running? ==> GroundOf(dungeon.value) == old(GroundOf(dungeon.value))
      ensures Runs(dungeon) ==> WavesFit(dungeon.value, old(GroundOf(dungeon.value)).waves)
      ensures Runs(dungeon) ==>
        && udpManager.View() == WithMovements(old(udpManager.View()), dungeonId, [])
        && HitPoints(dungeon.value) == old(HitPoints(dungeon.value))
        && MovementTick(stepOf, dungeon.value, HitPoints(dungeon.value), old(MovementQueue(udpManager.View(), dungeonId)),
             old(GroundOf(dungeon.value)), GroundOf(dungeon.value), order, result)
    {
      hide Ready, GroundOf, HitPoints, Movers, MovedAll, MovementQueue, Messages, Latest, WavesFit;
      hide DungeonUdpManager.Valid, DungeonUdpManager.View;
      result, order := MovementProcessResult(0, 0, 0), [];
      if dungeon.None? || !dungeon.value.state.Running? {
        return;
      }
      GroundFits(dungeon.value);
      var latestMovements, receivedCount := DrainFor(dungeonId, dungeon.value);
      var appliedCount, rejectedCount;
      appliedCount, rejectedCount, order := MoveAll(dungeon.value, latestMovements);
      result := MovementProcessResult(receivedCount, appliedCount, rejectedCount);
    }

    /** The loop over the newest movements, in no particular order. */
    method MoveAll(dungeon: DungeonInstance, latest: map<SessionId, Movement>)
      returns (appliedCount: nat, rejectedCount: nat, ghost order: seq<SessionId>)
      requires Ready(dungeon) && dungeon.state.Running?
      modifies dungeon.players.Values`position, dungeon.players.Values`roomId
      modifies dungeon.rooms.Values`currentWave, dungeon.rooms.Values`enemies
      ensures Ready(dungeon) && HitPoints(dungeon) == old(HitPoints(dungeon)) && ListsOnce(order, latest.Keys)
      ensures appliedCount ==
        |Movers(stepOf, dungeon, HitPoints(dungeon), old(GroundOf(dungeon)).places, latest)|
      ensures appliedCount + rejectedCount == |latest.Keys|
      ensures GroundOf(dungeon) ==
        MovedAll(stepOf, dungeon, HitPoints(dungeon), old(GroundOf(dungeon)), latest, order)
    {
      hide Ready, Walk, HitPoints, GroundOf, MovedAll, MovedSoFar, Movers;
      ghost var hp, before := HitPoints(dungeon), GroundOf(dungeon);
      appliedCount, rejectedCount, order := 0, 0, [];
      var rest := latest.Keys;
      ghost var done: set<SessionId> := {};
      WalkBegins(latest.Keys);
      NobodyMoved(stepOf, dungeon, hp, before, latest);
      while rest != {}
        invariant Walk(latest.Keys, done, rest) && Ready(dungeon) && HitPoints(dungeon) == hp
        invariant MovedSoFar(stepOf, dungeon, hp, before, latest, order, done, GroundOf(dungeon), appliedCount, rejectedCount)
        decreases |rest|
      {
        var s :| s in rest;
        WalkOn(latest.Keys, done, rest, s);
        ghost var now := GroundOf(dungeon);
        var applied := MoveOne(dungeon, s, latest[s]);
        MovedNext(stepOf, dungeon, hp, before, latest, order, done, now, appliedCount, rejectedCount, s);
        appliedCount := appliedCount + if applied then 1 else 0;
        rejectedCount := rejectedCount + if applied then 0 else 1;
        order := order + [s];
        rest := rest - {s};
        done := done + {s};
      }
      WalkEnds(latest.Keys, done, rest);
      EverybodyMoved(stepOf, dungeon, hp, before, latest, order, GroundOf(dungeon), appliedCount, rejectedCount);
    }

    /** One session's move. */
    method MoveOne(dungeon: DungeonInstance, s: SessionId, movement: Movement) returns (applied: bool)
      requires Ready(dungeon) && dungeon.state.Running?
      modifies dungeon.players.Values`position, dungeon.players.Values`roomId
      modifies dungeon.rooms.Values`currentWave, dungeon.rooms.Values`enemies
      ensures Ready(dungeon) && HitPoints(dungeon) == old(HitPoints(dungeon))
      ensures applied == CanMove(stepOf, dungeon, HitPoints(dungeon), old(GroundOf(dungeon)).places, s, movement)
      ensures GroundOf(dungeon) == MovedOne(stepOf, dungeon, HitPoints(dungeon), old(GroundOf(dungeon)), s, movement)
    {
      hide Ready, Ported, Free, GroundOf, DungeonInstance.RoomWaves;
      applied := false;
      Standing(dungeon, s);
      if s !in dungeon.players || dungeon.players[s].roomId !in dungeon.rooms {
        return;
      }
      var player := dungeon.players[s];
      applied := Shift(dungeon, s, player, stepOf(movement, player.position));
      if applied {
        ThroughPortal(dungeon, s);
      }
    }

    static lemma Standing(dungeon: DungeonInstance, s: SessionId)
      ensures s in dungeon.players <==> s in GroundOf(dungeon).places
      ensures s in dungeon.players ==>
        && GroundOf(dungeon).places[s] == (dungeon.players[s].roomId, dungeon.players[s].position)
        && HitPoints(dungeon)[s] == dungeon.players[s].currentHp
        && (dungeon.players[s].roomId !in dungeon.rooms ==>
              forall p :: !Free(dungeon, (dungeon.players[s].roomId, p)))
    {
    }

    static method Shift(dungeon: DungeonInstance, s: SessionId, player: DungeonPlayerState, next: Position)
      returns (moved: bool)
      requires Ready(dungeon) && s in dungeon.players && player == dungeon.players[s] && player.roomId in dungeon.rooms
      modifies player`position
      ensures Ready(dungeon)
      ensures moved <==> player.currentHp > 0 && Free(dungeon, (player.roomId, next))
      ensures GroundOf(dungeon) == if !moved then old(GroundOf(dungeon)) else
        old(GroundOf(dungeon)).(places := old(GroundOf(dungeon)).places[s := (player.roomId, next)])
    {
      hide RoomState.Valid, DungeonPlayerState.Valid, RoomState.PositionResult;
      ObstaclesFit(dungeon.rooms[player.roomId]);
      var result := player.MoveTo(dungeon.rooms[player.roomId], next);
      moved := result.Moved?;
    }

    static lemma ObstaclesFit(room: RoomState)
      requires room.Valid()
      ensures |room.obstacles| == |room.roomTemplate.obstacles|
    {
    }

    /** In a running dungeon a living character gets through exactly the portals that are open. */
    static lemma PortalIs(dungeon: DungeonInstance, s: SessionId)
      requires dungeon.Furnished() && dungeon.state.Running? && s in dungeon.players && dungeon.players[s].currentHp > 0
      ensures
        var portal := PortalAt(dungeon, dungeon.RoomWaves(), Places(dungeon)[s]);
        && (dungeon.PortalOutcome(s).PortalUsed? <==> portal.Some?)
        && (portal.Some? ==> dungeon.OpenPortal(s) == portal)
    {
      hide RoomState.PositionResult;
      var roomId := dungeon.players[s].roomId;
      if roomId in dungeon.rooms {
        var room := dungeon.rooms[roomId];
        assert AllKilled(room) <==> AllDead(room.roomTemplate.enemySpawns, dungeon.RoomWaves()[roomId]);
      }
    }

    static lemma NextWavesAre(dungeon: DungeonInstance)
      requires dungeon.Furnished()
      ensures dungeon.NextWaves() == NextOf(dungeon, dungeon.RoomWaves())
    {
      hide Started;
    }

    static method ThroughPortal(dungeon: DungeonInstance, s: SessionId)
      requires Ready(dungeon) && dungeon.state.Running? && s in dungeon.players && dungeon.players[s].currentHp > 0
      modifies dungeon.players.Values`position, dungeon.players.Values`roomId
      modifies dungeon.rooms.Values`currentWave, dungeon.rooms.Values`enemies
      ensures Ready(dungeon) && s in old(GroundOf(dungeon)).places
      ensures GroundOf(dungeon) == Ported(dungeon, old(GroundOf(dungeon)), s)
    {
      hide RoomState.Valid, DungeonPlayerState.Valid, SeatIndex.Indexed, DungeonInstance.Furnished;
      hide DungeonInstance.PortalOutcome;
      hide DungeonInstance.OpenPortal, PortalAt, DungeonInstance.RoomWaves, DungeonInstance.NextWaves;
      hide DungeonInstance.Pushed, NextOf;
      PortalIs(dungeon, s);
      NextWavesAre(dungeon);
      var result := dungeon.TryUsePortal(s);
    }
  }

  /** In the middle of the loop: those in `done` have had their turn, in a given order. */
  ghost predicate MovedSoFar(
    stepOf: (Movement, Position) -> Position, dungeon: DungeonInstance, hp: map<SessionId, UInt32>, before: Ground,
    latest: map<SessionId, Movement>, order: seq<SessionId>, done: set<SessionId>, now: Ground, applied: nat, rejected: nat)
    reads dungeon.rooms.Values`obstacles
  {
    && ListsOnce(order, done) && (forall s | s in order :: s in latest)
    && now == MovedAll(stepOf, dungeon, hp, before, latest, order)
    && applied == |Movers(stepOf, dungeon, hp, before.places, latest) * done| && applied + rejected == |done|
  }

  lemma NobodyMoved(
    stepOf: (Movement, Position) -> Position, dungeon: DungeonInstance, hp: map<SessionId, UInt32>, before: Ground,
    latest: map<SessionId, Movement>)
    ensures MovedSoFar(stepOf, dungeon, hp, before, latest, [], {}, before, 0, 0)
  {
    hide Movers;
    assert Movers(stepOf, dungeon, hp, before.places, latest) * {} == {};
  }

  /** Whether the next movement takes effect was settled before anybody moved. */
  lemma MovedNext(
    stepOf: (Movement, Position) -> Position, dungeon: DungeonInstance, hp: map<SessionId, UInt32>, before: Ground,
    latest: map<SessionId, Movement>, order: seq<SessionId>, done: set<SessionId>, now: Ground, applied: nat,
    rejected: nat, s: SessionId)
    requires MovedSoFar(stepOf, dungeon, hp, before, latest, order, done, now, applied, rejected)
    requires s in latest && s !in done
    ensures
      var moves := CanMove(stepOf, dungeon, hp, now.places, s, latest[s]);
      MovedSoFar(stepOf, dungeon, hp, before, latest, order + [s], done + {s},
        MovedOne(stepOf, dungeon, hp, now, s, latest[s]),
        applied + (if moves then 1 else 0), rejected + (if moves then 0 else 1))
  {
    hide MovedOne, CanMove, Movers, ListsOnce;
    SettledBefore(stepOf, dungeon, hp, before, latest, order, done, s);
    ListOneMore(order, done, s);
    CountNext(Movers(stepOf, dungeon, hp, before.places, latest), done, s);
    assert (order + [s])[..|order|] == order;
  }

  lemma CountNext(movers: set<SessionId>, done: set<SessionId>, s: SessionId)
    requires s !in done
    ensures |movers * (done + {s})| == |movers * done| + if s in movers then 1 else 0
    ensures |done + {s}| == |done| + 1
  {
    assert movers * (done + {s}) == movers * done + if s in movers then {s} else {};
  }

  lemma SettledBefore(
    stepOf: (Movement, Position) -> Position, dungeon: DungeonInstance, hp: map<SessionId, UInt32>, before: Ground,
    latest: map<SessionId, Movement>, order: seq<SessionId>, done: set<SessionId>, s: SessionId)
    requires ListsOnce(order, done) && (forall t | t in order :: t in latest) && s in latest && s !in done
    ensures CanMove(stepOf, dungeon, hp, MovedAll(stepOf, dungeon, hp, before, latest, order).places, s, latest[s]) <==>
      s in Movers(stepOf, dungeon, hp, before.places, latest)
  {
    hide MovedOne, MovedAll, Landed, Free;
    OrderDecidesNoMove(stepOf, dungeon, hp, before, latest, order);
  }

  lemma EverybodyMoved(
    stepOf: (Movement, Position) -> Position, dungeon: DungeonInstance, hp: map<SessionId, UInt32>, before: Ground,
    latest: map<SessionId, Movement>, order: seq<SessionId>, now: Ground, applied: nat, rejected: nat)
    requires MovedSoFar(stepOf, dungeon, hp, before, latest, order, latest.Keys, now, applied, rejected)
    ensures now == MovedAll(stepOf, dungeon, hp, before, latest, order) && ListsOnce(order, latest.Keys)
    ensures applied == |Movers(stepOf, dungeon, hp, before.places, latest)| && applied + rejected == |latest.Keys|
  {
    hide MovedAll, CanMove;
    var movers := Movers(stepOf, dungeon, hp, before.places, latest);
    assert movers * latest.Keys == movers;
  }
}
