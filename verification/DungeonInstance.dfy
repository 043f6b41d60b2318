/** One dungeon run: its five participant containers, its state and its rooms
    (src/DungeonInstance.cpp). */
module DungeonInstances {
  import opened Common
  import opened DungeonRoom
  import opened RoomStates
  import opened PlayerState
  import opened SeatTable
  import opened SeatIndex

  datatype DungeonState = Waiting | Running | Finished

  datatype DungeonTemplate = DungeonTemplate(id: nat, rooms: seq<RoomTemplate>)

  /** What the dungeon catalog checks before it accepts a template. */
  ghost predicate TemplateAccepted(t: DungeonTemplate, catalog: EnemyCatalog) {
    && t.id != 0 && t.rooms != []
    && (forall i :: 0 <= i < |t.rooms| ==>
      && t.rooms[i].id != 0
      && t.rooms[i].playerSpawn.z >= 0.0
      && SpawnsAccepted(t.rooms[i].enemySpawns, catalog))
    && (forall i, j :: 0 <= i < j < |t.rooms| ==> t.rooms[i].id != t.rooms[j].id)
  }

  function RoomIds(templates: seq<RoomTemplate>): set<RoomId> {
    set i | 0 <= i < |templates| :: templates[i].id
  }

  /** The first portal whose trigger area holds a position; the number of portals if none does. */
  function PortalUnder(portals: seq<PortalTemplate>, position: Position, from: nat): (k: nat)
    requires from <= |portals|
    ensures from <= k <= |portals|
    ensures forall j :: from <= j < k ==> !IsInsideCollisionBox(portals[j].triggerArea, position)
    ensures k < |portals| ==> IsInsideCollisionBox(portals[k].triggerArea, position)
    decreases |portals| - from
  {
    if from == |portals| || IsInsideCollisionBox(portals[from].triggerArea, position) then from
    else PortalUnder(portals, position, from + 1)
  }

  /** The waves of a room after StartNextWave. */
  ghost function Advanced(room: RoomState): (Waves, bool)
    requires room.Valid()
    reads room
  {
    Started(room.roomTemplate, room.enemyCatalog, room.Progress())
  }

  ghost predicate AllKilled(room: RoomState) reads room {
    forall k :: 0 <= k < |room.roomTemplate.enemySpawns| ==>
      SpawnedAndKilled(room.Progress(), room.roomTemplate.enemySpawns[k])
  }

  /** What the constructor demands of a participant list. */
  ghost predicate ParticipantsAccepted(participants: seq<SessionId>) {
    && 1 <= |participants| <= MAX_PARTY_MEMBERS
    && Distinct(participants)
    && 0 !in participants
  }

  /** The default of DungeonPlayerState's maxMp and maxHp. */
  const MAX_POINTS: UInt32 := 100

  /** DungeonParticipantReconnect. */
  datatype Reconnect = Reconnect(replacedSessionId: SessionId, disconnectedAt: Time)

  datatype UsePortalResult =
    | PortalUsed | DungeonNotRunning | PlayerNotFound | NotInsidePortal | RoomNotCleared
    | TargetRoomNotFound | TargetPositionBlocked

  class DungeonInstance {
    const dungeonId: DungeonId
    const dungeonTemplate: DungeonTemplate
    const partyId: PartyId
    const createdAt: Time
    const rooms: map<RoomId, RoomState>
    var participants: seq<SessionId>
    var players: map<SessionId, DungeonPlayerState>
    var participantPlayerIds: map<SessionId, PlayerId>
    var playerSessions: map<PlayerId, SessionId>
    var disconnectedSince: map<SessionId, Time>
    var state: DungeonState

    ghost function Containers(): Index
      reads this`participants, this`players, this`participantPlayerIds, this`playerSessions, this`disconnectedSince
    {
      Index(participants, players, participantPlayerIds, playerSessions, disconnectedSince)
    }

    /** The five containers agree with each other. */
    ghost predicate Indexed()
      reads this`participants, this`players, this`participantPlayerIds, this`playerSessions, this`disconnectedSince
    {
      SeatIndex.Indexed(Containers())
    }

    /** The seat table the five containers stand for. */
    ghost function Seats(): Roster
      reads this`participants, this`players, this`participantPlayerIds, this`playerSessions, this`disconnectedSince
    {
      SeatsOf(Containers())
    }

    /** The characters carry the session they are seated under. */
    ghost predicate Labelled() reads this`players, players.Values {
      forall s :: s in players ==> players[s].sessionId == s
    }

    /** The rooms are those of the template, and in order. */
    ghost predicate Furnished() reads rooms.Values {
      && dungeonTemplate.rooms != []
      && rooms.Keys == RoomIds(dungeonTemplate.rooms)
      && (forall id :: id in rooms ==> rooms[id].Valid() && rooms[id].roomTemplate.id == id != 0)
      && (forall i :: 0 <= i < |dungeonTemplate.rooms| ==>
            && dungeonTemplate.rooms[i].id in rooms
            && rooms[dungeonTemplate.rooms[i].id].roomTemplate == dungeonTemplate.rooms[i])
    }

    ghost predicate Manned() reads this`players, players.Values {
      forall s :: s in players ==> players[s].Valid()
    }

    ghost predicate Crewed() reads this`players, players.Values {
      Manned() && Labelled()
    }

    /** The same characters, or fewer. */
    twostate predicate NobodyNew() reads this`players {
      players.Values <= old(players).Values
    }

    constructor (
      dungeonId: DungeonId, dungeonTemplate: DungeonTemplate, partyId: PartyId, participants: seq<SessionId>,
      enemyCatalog: EnemyCatalog, now: Time)
      requires dungeonId != 0 && partyId != 0
      requires TemplateAccepted(dungeonTemplate, enemyCatalog) && ParticipantsAccepted(participants)
      ensures Indexed() && Labelled() && Furnished() && Manned()
      ensures this.dungeonId == dungeonId && this.partyId == partyId && this.dungeonTemplate == dungeonTemplate
      ensures createdAt == now && state == Waiting
      ensures Seats().order == participants
      ensures forall s :: s in Seats().seats ==> Seats().seats[s].player == None && Seats().seats[s].since == None
      ensures forall s :: s in players ==>
        && fresh(players[s])
        && players[s].roomId == dungeonTemplate.rooms[0].id && players[s].View() == NewFighter(MAX_POINTS, MAX_POINTS)
        && players[s].position == dungeonTemplate.rooms[0].playerSpawn
      ensures fresh(rooms.Values)
      ensures forall id :: id in rooms ==>
        rooms[id].Progress() == Waves(0, []) && RoomState.Standing(rooms[id].roomTemplate.obstacles, rooms[id].obstacles)
    {
      hide RoomState.Valid, DungeonPlayerState.Valid;
      var made := MakeRooms(dungeonTemplate, enemyCatalog);
      var seated := MakePlayers(participants, dungeonTemplate.rooms[0].id, dungeonTemplate.rooms[0].playerSpawn);
      this.dungeonId, this.dungeonTemplate, this.partyId := dungeonId, dungeonTemplate, partyId;
      createdAt, state, rooms := now, Waiting, made;
      this.participants, players := participants, seated;
      participantPlayerIds, playerSessions, disconnectedSince := map[], map[], map[];
    }

    static method MakeRooms(t: DungeonTemplate, enemyCatalog: EnemyCatalog) returns (made: map<RoomId, RoomState>)
      requires TemplateAccepted(t, enemyCatalog)
      ensures forall id :: id in made ==>
        && fresh(made[id]) && made[id].Valid()
        && made[id].roomTemplate.id == id != 0 && made[id].Progress() == Waves(0, [])
        && RoomState.Standing(made[id].roomTemplate.obstacles, made[id].obstacles)
      ensures made.Keys == RoomIds(t.rooms)
      ensures forall i :: 0 <= i < |t.rooms| ==>
        t.rooms[i].id in made && made[t.rooms[i].id].roomTemplate == t.rooms[i]
    {
      made := map[];
      var i := 0;
      while i < |t.rooms|
        invariant 0 <= i <= |t.rooms|
        invariant forall id :: id in made ==>
          && fresh(made[id]) && made[id].Valid()
          && made[id].roomTemplate.id == id != 0 && made[id].Progress() == Waves(0, [])
          && RoomState.Standing(made[id].roomTemplate.obstacles, made[id].obstacles)
        invariant made.Keys <= RoomIds(t.rooms)
        invariant forall j :: 0 <= j < i ==>
          t.rooms[j].id in made && made[t.rooms[j].id].roomTemplate == t.rooms[j]
      {
        var room := new RoomState(t.rooms[i], enemyCatalog);
        made := made[t.rooms[i].id := room];
        i := i + 1;
      }
    }

    static method MakePlayers(participants: seq<SessionId>, firstRoom: RoomId, spawn: Position)
      returns (seated: map<SessionId, DungeonPlayerState>)
      requires 0 !in participants && firstRoom != 0 && spawn.z >= 0.0
      ensures forall s :: s in seated <==> s in participants
      ensures Injective(seated)
      ensures forall s :: s in seated ==>
        && fresh(seated[s]) && seated[s].Valid() && seated[s].sessionId == s
        && seated[s].roomId == firstRoom && seated[s].position == spawn
        && seated[s].View() == NewFighter(MAX_POINTS, MAX_POINTS)
    {
      seated := map[];
      var i := 0;
      while i < |participants|
        invariant 0 <= i <= |participants|
        invariant forall s :: s in seated <==> s in participants[..i]
        invariant Injective(seated)
        invariant forall s :: s in seated ==>
          && fresh(seated[s]) && seated[s].Valid() && seated[s].sessionId == s
          && seated[s].roomId == firstRoom && seated[s].position == spawn
          && seated[s].View() == NewFighter(MAX_POINTS, MAX_POINTS)
      {
        assert participants[i] in participants;
        var player := new DungeonPlayerState(participants[i], firstRoom, spawn, MAX_POINTS, MAX_POINTS);
        seated := seated[participants[i] := player];
        i := i + 1;
      }
      assert participants[..i] == participants;
    }

    // -------------------------------------------------------------- membership

    method BindParticipantPlayer(sessionId: SessionId, playerId: PlayerId) returns (bound: bool)
      requires Indexed()
      modifies this`participantPlayerIds, this`playerSessions
      ensures Indexed() && Seats() == Bound(old(Seats()), sessionId, playerId)
      ensures bound <==> CanBind(old(Seats()), sessionId, playerId)
      ensures bound <==>
        && sessionId != 0 && playerId != 0 && sessionId in players
        && (sessionId in old(participantPlayerIds) ==> old(participantPlayerIds)[sessionId] == playerId)
        && (playerId in old(playerSessions) ==> old(playerSessions)[playerId] == sessionId)
      ensures !bound ==> participantPlayerIds == old(participantPlayerIds) && playerSessions == old(playerSessions)
      ensures bound ==>
        && participantPlayerIds == old(participantPlayerIds)[sessionId := playerId]
        && playerSessions == old(playerSessions)[playerId := sessionId]
    {
      if sessionId == 0 || playerId == 0 {
        return false;
      }
      if sessionId !in players {
        return false;
      }
      BindDecision(Containers(), sessionId, playerId);
      if sessionId in participantPlayerIds {
        return participantPlayerIds[sessionId] == playerId;
      }
      if playerId in playerSessions {
        return playerSessions[playerId] == sessionId;
      }
      BindIndexed(Containers(), sessionId, playerId);
      participantPlayerIds := participantPlayerIds[sessionId := playerId];
      playerSessions := playerSessions[playerId := sessionId];
      bound := true;
    }

    method DisconnectParticipant(sessionId: SessionId, disconnectedAt: Time) returns (known: bool)
      requires Indexed()
      modifies this`disconnectedSince
      ensures Indexed() && Seats() == Vacated(old(Seats()), sessionId, disconnectedAt)
      ensures known <==> sessionId in players
      ensures disconnectedSince == if sessionId in players && sessionId !in old(disconnectedSince)
        then old(disconnectedSince)[sessionId := disconnectedAt] else old(disconnectedSince)
    {
      if sessionId !in players {
        return false;
      }
      VacateIndexed(Containers(), sessionId, disconnectedAt);
      if sessionId !in disconnectedSince {
        disconnectedSince := disconnectedSince[sessionId := disconnectedAt];
      }
      known := true;
    }

    /** What a relabelling does to the characters: one of them is rebound, none is replaced. */
    twostate predicate OnlyRebound(character: DungeonPlayerState, to: SessionId)
      reads this, players.Values
    {
      && players.Values == old(players).Values
      && forall c :: c in players.Values && c in old(players).Values ==>
           c.sessionId == if c == character then to else old(c.sessionId)
    }

    /** One player has moved from a session to another, in the containers that say who sits where. */
    twostate predicate Moved(from: SessionId, to: SessionId, playerId: PlayerId)
      reads this`participants, this`players, this`participantPlayerIds, this`playerSessions
    {
      && from in old(players) && players == (old(players) - {from})[to := old(players)[from]]
      && participantPlayerIds == (old(participantPlayerIds) - {from})[to := playerId]
      && playerSessions == old(playerSessions)[playerId := to]
      && |participants| == |old(participants)|
      && forall i :: 0 <= i < |participants| ==>
           participants[i] == if old(participants)[i] == from then to else old(participants)[i]
    }

    method ReconnectParticipant(playerId: PlayerId, newSessionId: SessionId, now: Time, reconnectGrace: Time)
      returns (reconnect: Option<Reconnect>)
      requires Indexed()
      modifies this`participants, this`players, this`participantPlayerIds, this`playerSessions, this`disconnectedSince
      modifies players.Values`sessionId
      ensures Indexed()
      ensures reconnect.Some? ==>
        && CanReclaim(old(Seats()), playerId, reconnect.value.replacedSessionId, newSessionId, now, reconnectGrace)
        && old(Seats()).seats[reconnect.value.replacedSessionId].since == Some(reconnect.value.disconnectedAt)
        && Seats() == Relabelled(old(Seats()), reconnect.value.replacedSessionId, newSessionId, None)
        && OnlyRebound(old(Seats()).seats[reconnect.value.replacedSessionId].character, newSessionId)
      ensures NobodyNew() && (old(Crewed()) ==> Crewed())
      ensures reconnect.None? ==>
        && Containers() == old(Containers())
        && (forall c :: c in old(players).Values ==> c.sessionId == old(c.sessionId))
        && forall s :: !CanReclaim(old(Seats()), playerId, s, newSessionId, now, reconnectGrace)
      ensures reconnect.Some? <==>
        && playerId != 0 && newSessionId != 0 && reconnectGrace > 0 && newSessionId !in old(players)
        && playerId in old(playerSessions) && old(playerSessions)[playerId] in old(disconnectedSince)
        && var since := old(disconnectedSince)[old(playerSessions)[playerId]];
           since <= now < since + reconnectGrace
      ensures reconnect.Some? ==>
        var replaced := old(playerSessions)[playerId];
        && reconnect.value == Reconnect(replaced, old(disconnectedSince)[replaced])
        && Moved(replaced, newSessionId, playerId) && disconnectedSince == old(disconnectedSince) - {replaced}
    {
      if playerId == 0 || newSessionId == 0 || reconnectGrace <= 0 {
        return None;
      }
      ReclaimDecision(Containers(), playerId, newSessionId, now, reconnectGrace);
      if playerId !in playerSessions {
        return None;
      }
      var oldSessionId := playerSessions[playerId];
      if oldSessionId !in disconnectedSince ||
         newSessionId in players ||
         now < disconnectedSince[oldSessionId] ||
         now - disconnectedSince[oldSessionId] >= reconnectGrace {
        return None;
      }
      reconnect := Some(Reconnect(oldSessionId, disconnectedSince[oldSessionId]));
      Reclaim(playerId, oldSessionId, newSessionId);
    }

    method Reclaim(playerId: PlayerId, oldSessionId: SessionId, newSessionId: SessionId)
      requires Indexed() && playerId in playerSessions && playerSessions[playerId] == oldSessionId
      requires newSessionId !in players && newSessionId != 0
      modifies this`participants, this`players, this`participantPlayerIds, this`playerSessions, this`disconnectedSince
      modifies players.Values`sessionId
      ensures Indexed()
      ensures oldSessionId in old(players) && Seats() == Relabelled(old(Seats()), oldSessionId, newSessionId, None)
      ensures OnlyRebound(old(players)[oldSessionId], newSessionId) && (old(Crewed()) ==> Crewed())
      ensures Moved(oldSessionId, newSessionId, playerId)
      ensures disconnectedSince == old(disconnectedSince) - {oldSessionId}
    {
      hide SeatIndex.Indexed, DungeonInstance.Crewed;
      RelabelIndexed(Containers(), playerId, oldSessionId, newSessionId, None);
      Relabel(playerId, oldSessionId, newSessionId);
      disconnectedSince := disconnectedSince - {oldSessionId};
    }

    /** The part reconnect and rollback share: move the character's node to a new key, rebind
        it, and rename the session in the other containers. */
    method Relabel(playerId: PlayerId, from: SessionId, to: SessionId)
      requires Indexed() && playerId in playerSessions && playerSessions[playerId] == from
      requires to !in players && to != 0
      modifies this`participants, this`players, this`participantPlayerIds, this`playerSessions
      modifies players.Values`sessionId
      ensures from in old(players) && Containers() == RelabelIndex(old(Containers()), playerId, from, to)
      ensures OnlyRebound(old(players)[from], to) && (old(Crewed()) ==> Crewed())
      ensures Moved(from, to, playerId)
    {
      hide SeatIndex.Indexed, DungeonInstance.Crewed;
      BoundSeat(Containers(), playerId);
      RenameParticipant(from, to);
      Rekey(from, to);
      participantPlayerIds := (participantPlayerIds - {from})[to := playerId];
      playerSessions := playerSessions[playerId := to];
    }

    /** The character's node moves to its new key, and the character takes the new label. */
    method Rekey(from: SessionId, to: SessionId)
      requires from in players && to !in players && to != 0
      requires forall s :: s in players && players[s] == players[from] ==> s == from
      modifies this`players, players.Values`sessionId
      ensures players == (old(players) - {from})[to := old(players)[from]]
      ensures OnlyRebound(old(players)[from], to) && (old(Crewed()) ==> Crewed())
    {
      hide DungeonPlayerState.Valid;
      var player := players[from];
      var rebound := player.RebindSession(to);
      players := (players - {from})[to := player];
      assert players[to] in players.Values;
      assert forall s :: s in old(players) && s != from ==> players[s] in players.Values;
      if old(Crewed()) {
        forall s | s in players
          ensures players[s].Valid() && players[s].sessionId == s
        {
          if s != to {
            assert old(players)[s] in old(players).Values && old(players)[s] != player;
            assert old(players[s].Valid());
          }
        }
      }
    }

    method RenameParticipant(from: SessionId, to: SessionId)
      requires Distinct(participants)
      modifies this`participants
      ensures participants == Renamed(old(participants), from, to)
    {
      var i := 0;
      while i < |participants| && participants[i] != from
        invariant 0 <= i <= |participants|
        invariant forall j :: 0 <= j < i ==> participants[j] != from
      {
        i := i + 1;
      }
      if i < |participants| {
        participants := participants[i := to];
      }
    }

    /** Puts a seat back under its old session. The containers survive it exactly when the new
        session has not been reported gone in the meantime. */
    method RollbackParticipantReconnect(playerId: PlayerId, newSessionId: SessionId, reconnect: Reconnect)
      returns (rolledBack: bool)
      requires Indexed()
      modifies this`participants, this`players, this`participantPlayerIds, this`playerSessions, this`disconnectedSince
      modifies players.Values`sessionId
      ensures rolledBack <==> CanRollback(old(Seats()), playerId, newSessionId, reconnect.replacedSessionId)
      ensures rolledBack <==>
        && playerId != 0 && newSessionId != 0 && reconnect.replacedSessionId != 0
        && Lookup(old(playerSessions), playerId) == Some(newSessionId) && reconnect.replacedSessionId !in old(players)
      ensures rolledBack ==>
        && Moved(newSessionId, reconnect.replacedSessionId, playerId)
        && disconnectedSince == old(disconnectedSince)[reconnect.replacedSessionId := reconnect.disconnectedAt]
      ensures NobodyNew() && (old(Crewed()) ==> Crewed())
      ensures !rolledBack ==> Containers() == old(Containers())
      ensures Indexed() <==> !(rolledBack && newSessionId in old(disconnectedSince))
      ensures rolledBack && Indexed() ==>
        && Seats() == Relabelled(old(Seats()), newSessionId, reconnect.replacedSessionId, Some(reconnect.disconnectedAt))
        && OnlyRebound(old(Seats()).seats[newSessionId].character, reconnect.replacedSessionId)
    {
      var oldSessionId := reconnect.replacedSessionId;
      if playerId == 0 || newSessionId == 0 || oldSessionId == 0 {
        return false;
      }
      RollbackDecision(Containers(), playerId, newSessionId, oldSessionId);
      if playerId !in playerSessions ||
         playerSessions[playerId] != newSessionId ||
         newSessionId !in players ||
         oldSessionId in players {
        return false;
      }
      ReturnSeat(playerId, newSessionId, oldSessionId, reconnect.disconnectedAt);
      rolledBack := true;
    }

    method ReturnSeat(playerId: PlayerId, newSessionId: SessionId, oldSessionId: SessionId, disconnectedAt: Time)
      requires Indexed() && playerId in playerSessions && playerSessions[playerId] == newSessionId
      requires oldSessionId !in players && oldSessionId !in disconnectedSince && oldSessionId != 0
      modifies this`participants, this`players, this`participantPlayerIds, this`playerSessions, this`disconnectedSince
      modifies players.Values`sessionId
      ensures newSessionId in old(players) && NobodyNew() && (old(Crewed()) ==> Crewed())
      ensures Moved(newSessionId, oldSessionId, playerId)
      ensures disconnectedSince == old(disconnectedSince)[oldSessionId := disconnectedAt]
      ensures Indexed() <==> newSessionId !in old(disconnectedSince)
      ensures Indexed() ==>
        && Seats() == Relabelled(old(Seats()), newSessionId, oldSessionId, Some(disconnectedAt))
        && OnlyRebound(old(players)[newSessionId], oldSessionId)
    {
      hide SeatIndex.Indexed, DungeonInstance.Crewed;
      RollbackIndexed(Containers(), playerId, newSessionId, oldSessionId, disconnectedAt);
      Relabel(playerId, newSessionId, oldSessionId);
      if oldSessionId !in disconnectedSince {
        disconnectedSince := disconnectedSince[oldSessionId := disconnectedAt];
      }
    }

    method RemoveExpiredDisconnectedParticipants(now: Time, reconnectGrace: Time)
      returns (removedSessions: seq<SessionId>)
      requires Indexed()
      modifies this`participants, this`players, this`participantPlayerIds, this`playerSessions, this`disconnectedSince
      ensures Indexed() && Seats() == Dropped(old(Seats()), Expired(old(Seats()), now, reconnectGrace))
      ensures ListsOnce(removedSessions, Expired(old(Seats()), now, reconnectGrace))
      ensures FewerSeated() && (old(Crewed()) ==> Crewed())
      ensures forall s :: s in removedSessions <==>
        s in old(disconnectedSince) && reconnectGrace > 0 && old(disconnectedSince)[s] + reconnectGrace <= now
      ensures forall s :: s in players <==> s in old(players) && s !in removedSessions
    {
      hide SeatIndex.Indexed, Expired, Dropped, DungeonInstance.Crewed, ListsOnce;
      ExpiredSessions(Containers(), now, reconnectGrace);
      removedSessions := EraseExpired(now, reconnectGrace);
      StillSeated(old(Containers()), Containers(), Expired(old(Seats()), now, reconnectGrace), removedSessions);
    }

    static lemma StillSeated(x: Index, x': Index, gone: set<SessionId>, removed: seq<SessionId>)
      requires SeatsOf(x') == Dropped(SeatsOf(x), gone) && ListsOnce(removed, gone)
      ensures forall s :: s in removed <==> s in gone
      ensures forall s :: s in x'.players <==> s in x.players && s !in gone
    {
      assert SeatsOf(x').seats.Keys == x'.players.Keys && SeatsOf(x).seats.Keys == x.players.Keys;
    }

    /** The expiry loop. */
    method EraseExpired(now: Time, reconnectGrace: Time) returns (removedSessions: seq<SessionId>)
      requires Indexed()
      modifies this`participants, this`players, this`participantPlayerIds, this`playerSessions, this`disconnectedSince
      ensures Indexed() && Seats() == Dropped(old(Seats()), Expired(old(Seats()), now, reconnectGrace))
      ensures ListsOnce(removedSessions, Expired(old(Seats()), now, reconnectGrace))
      ensures FewerSeated() && (old(Crewed()) ==> Crewed())
    {
      hide SeatIndex.Indexed, DungeonPlayerState.Valid;
      removedSessions := [];
      ghost var before := Seats();
      ghost var gone: set<SessionId> := {};
      NobodyDropped(before);
      if reconnectGrace <= 0 {
        FewerCrewed();
        return;
      }
      var rest := disconnectedSince.Keys;
      while rest != {}
        invariant Indexed() && Seats() == Dropped(before, gone)
        invariant rest <= disconnectedSince.Keys && ListsOnce(removedSessions, gone)
        invariant forall s :: s in gone ==> s in before.seats && s !in rest
        invariant forall s :: s in before.seats && s !in rest ==>
          (s in gone <==> Overdue(before.seats[s], now, reconnectGrace))
        decreases |rest|
      {
        var sessionId :| sessionId in rest;
        rest := rest - {sessionId};
        SeatUntouched(before, gone, Containers(), sessionId);
        if now >= disconnectedSince[sessionId] && now - disconnectedSince[sessionId] >= reconnectGrace {
          ListOneMore(removedSessions, gone, sessionId);
          removedSessions := removedSessions + [sessionId];
          DroppedTwice(before, gone, sessionId);
          gone := gone + {sessionId};
          RemoveSeat(sessionId);
        }
      }
      assert gone == Expired(before, now, reconnectGrace);
      DroppedCharacters(old(Containers()), Containers(), gone);
      FewerCrewed();
    }

    static lemma ExpiredSessions(x: Index, now: Time, grace: Time)
      requires SeatIndex.Indexed(x)
      ensures forall s :: s in Expired(SeatsOf(x), now, grace) <==> s in x.since && grace > 0 && x.since[s] + grace <= now
    {
    }

    static lemma DroppedCharacters(x: Index, x': Index, gone: set<SessionId>)
      requires SeatsOf(x') == Dropped(SeatsOf(x), gone)
      ensures x'.players.Keys <= x.players.Keys
      ensures forall s :: s in x'.players ==> x'.players[s] == x.players[s]
    {
      assert SeatsOf(x').seats.Keys == x'.players.Keys && SeatsOf(x).seats.Keys == x.players.Keys;
      forall s | s in x'.players
        ensures s in x.players && x'.players[s] == x.players[s]
      {
        assert SeatsOf(x').seats[s] == SeatsOf(x).seats[s];
      }
    }

    /** Characters may be gone, none is new or sits elsewhere. */
    twostate predicate FewerSeated() reads this`players {
      players.Keys <= old(players).Keys && forall s :: s in players ==> players[s] == old(players)[s]
    }

    twostate predicate CrewUntouched() reads this`players, players.Values {
      forall s :: s in players && s in old(players) && players[s] == old(players)[s] ==> unchanged(players[s])
    }

    /** Leaving takes nobody's label. */
    twostate lemma FewerCrewed()
      requires FewerSeated() && CrewUntouched()
      ensures NobodyNew() && (old(Crewed()) ==> Crewed())
    {
      hide DungeonPlayerState.Valid;
      forall s | s in players
        ensures players[s] in old(players).Values && unchanged(players[s])
      {
        assert old(players)[s] in old(players).Values;
      }
    }

    static lemma NobodyDropped(r: Roster)
      ensures Dropped(r, {}) == r
    {
      ExcludingNobody(r.order);
      assert r.seats - {} == r.seats;
    }

    static lemma SeatUntouched(before: Roster, gone: set<SessionId>, x: Index, s: SessionId)
      requires SeatIndex.Indexed(x) && SeatsOf(x) == Dropped(before, gone) && s in x.since
      ensures s in before.seats && s !in gone && before.seats[s].since == Some(x.since[s])
    {
      assert SeatsOf(x).seats[s] == SeatAt(x, s);
    }

    /** The body of the expiry loop: one session out of all five containers. */
    method RemoveSeat(sessionId: SessionId)
      requires Indexed()
      modifies this`participants, this`players, this`participantPlayerIds, this`playerSessions, this`disconnectedSince
      ensures Indexed() && Seats() == Dropped(old(Seats()), {sessionId})
      ensures disconnectedSince == old(disconnectedSince) - {sessionId} && players == old(players) - {sessionId}
    {
      RemoveIndexed(Containers(), sessionId);
      if sessionId in participantPlayerIds {
        playerSessions := playerSessions - {participantPlayerIds[sessionId]};
        participantPlayerIds := participantPlayerIds - {sessionId};
      }
      players := players - {sessionId};
      participants := WithoutSession(participants, sessionId);
      disconnectedSince := disconnectedSince - {sessionId};
    }

    method RemoveAllParticipants() returns (removedSessions: seq<SessionId>)
      requires Indexed()
      modifies this`participants, this`players, this`participantPlayerIds, this`playerSessions, this`disconnectedSince
      ensures Indexed() && Seats() == Roster([], map[])
      ensures removedSessions == old(participants) && ListsOnce(removedSessions, old(players).Keys) && players == map[]
    {
      removedSessions := participants;
      participants := [];
      players, participantPlayerIds, playerSessions, disconnectedSince := map[], map[], map[], map[];
    }

    predicate HasDisconnectedParticipants(): (some: bool)
      requires Indexed()
      reads this`participants, this`players, this`participantPlayerIds, this`playerSessions, this`disconnectedSince
      ensures some <==> exists s :: s in Seats().seats && Seats().seats[s].since.Some?
    {
      SomebodySince(Containers());
      assert Seats() == SeatsOf(Containers());
      assert disconnectedSince == map[] <==> Containers().since == map[];
      disconnectedSince != map[]
    }

    static lemma SomebodySince(x: Index)
      requires SeatIndex.Indexed(x)
      ensures x.since != map[] <==> exists s :: s in SeatsOf(x).seats && SeatsOf(x).seats[s].since.Some?
    {
      if x.since != map[] {
        var s :| s in x.since;
        assert SeatsOf(x).seats[s].since.Some?;
      }
    }

    /** The difference of two sizes counts the connected seats. */
    method ConnectedParticipantCount() returns (count: nat)
      requires Indexed()
      ensures count == |set s | s in players && s !in disconnectedSince|
    {
      assert (set s | s in players && s !in disconnectedSince) == players.Keys - disconnectedSince.Keys;
      DifferenceSize(players.Keys, disconnectedSince.Keys);
      MapSize(players);
      MapSize(disconnectedSince);
      count := |players| - |disconnectedSince|;
    }

    // -------------------------------------------------------------- the run itself

    ghost function FirstRoom(): RoomState
      requires Furnished()
      reads rooms.Values
    {
      rooms[dungeonTemplate.rooms[0].id]
    }

    method Start() returns (started: bool)
      requires Furnished()
      modifies this`state, FirstRoom()`currentWave, FirstRoom()`enemies
      ensures Furnished() && (started <==> old(state).Waiting?)
      ensures state == if started then Running else old(state)
      ensures FirstRoom().Progress() == old(if state.Waiting? then Advanced(FirstRoom()).0 else FirstRoom().Progress())
    {
      if !state.Waiting? {
        return false;
      }
      state := Running;
      var wave := rooms[dungeonTemplate.rooms[0].id].StartNextWave();
      started := true;
    }

    method Finish() returns (finished: bool)
      modifies this`state
      ensures finished <==> old(state).Running?
      ensures state == if finished then Finished else old(state)
    {
      if !state.Running? {
        return false;
      }
      state := Finished;
      finished := true;
    }

    /** The rooms connected players stand in. */
    ghost function OccupiedRooms(): set<RoomId> reads this`players, this`disconnectedSince, players.Values {
      set s | s in players && s !in disconnectedSince :: players[s].roomId
    }

    method FindOccupiedRooms() returns (occupied: set<RoomId>)
      ensures occupied == OccupiedRooms()
    {
      occupied := {};
      var rest := players.Keys;
      ghost var done: set<SessionId> := {};
      while rest != {}
        invariant done + rest == players.Keys
        invariant occupied == set s | s in done && s in players && s !in disconnectedSince :: players[s].roomId
        decreases |rest|
      {
        var s :| s in rest;
        if s !in disconnectedSince {
          occupied := occupied + {players[s].roomId};
        }
        rest := rest - {s};
        done := done + {s};
      }
      assert done == players.Keys;
    }

    /** What the rooms hold, and what each would hold after one more StartNextWave. */
    ghost function RoomWaves(): map<RoomId, Waves> reads rooms.Values {
      map id | id in rooms :: rooms[id].Progress()
    }

    ghost function NextWaves(): map<RoomId, (Waves, bool)>
      requires Furnished()
      reads rooms.Values
    {
      map id | id in rooms :: Advanced(rooms[id])
    }

    /** While the dungeon runs, exactly the rooms with a connected player in them are offered
        their next wave, each of them once. */
    method AdvanceRoomWaves() returns (startedWaveCount: nat)
      requires Furnished()
      modifies rooms.Values`currentWave, rooms.Values`enemies
      ensures Furnished()
      ensures RoomWaves() ==
        if state.Running? then Pushed(old(RoomWaves()), old(NextWaves()), OccupiedRooms()) else old(RoomWaves())
      ensures startedWaveCount == if state.Running? then |Startable(old(NextWaves()), OccupiedRooms())| else 0
      ensures forall id :: id in rooms && state.Running? && Inhabited(id) ==>
        rooms[id].Progress() == old(Advanced(rooms[id])).0
      ensures forall id :: id in rooms && !(state.Running? && Inhabited(id)) ==>
        rooms[id].Progress() == old(rooms[id].Progress())
    {
      hide RoomState.Valid, Started, Furnished, Startable, Pushed;
      WavesOfRooms();
      PushedRooms(RoomWaves(), NextWaves(), OccupiedRooms());
      RoomsInhabited();
      startedWaveCount := 0;
      if !state.Running? {
        return;
      }
      var occupied := FindOccupiedRooms();
      startedWaveCount := OfferWaves(occupied);
    }

    /** Somebody who is connected stands in a room. */
    ghost predicate Inhabited(id: RoomId) reads this`players, this`disconnectedSince, players.Values {
      exists s :: s in players && s !in disconnectedSince && players[s].roomId == id
    }

    lemma RoomsInhabited()
      ensures forall id :: id in OccupiedRooms() <==> Inhabited(id)
    {
    }

    lemma WavesOfRooms()
      requires Furnished()
      ensures RoomWaves().Keys == NextWaves().Keys == rooms.Keys
      ensures forall id :: id in rooms ==>
        rooms[id].Valid() && RoomWaves()[id] == rooms[id].Progress() && NextWaves()[id] == Advanced(rooms[id])
    {
      hide RoomState.Valid, Started;
    }

    static lemma PushedRooms(was: map<RoomId, Waves>, next: map<RoomId, (Waves, bool)>, ids: set<RoomId>)
      requires was.Keys == next.Keys
      ensures Pushed(was, next, ids).Keys == was.Keys
      ensures forall id :: id in was ==> Pushed(was, next, ids)[id] == if id in ids then next[id].0 else was[id]
    {
    }

    method OfferWaves(roomIds: set<RoomId>) returns (startedWaveCount: nat)
      requires Furnished()
      modifies rooms.Values`currentWave, rooms.Values`enemies
      ensures Furnished() && RoomWaves() == Pushed(old(RoomWaves()), old(NextWaves()), roomIds)
      ensures startedWaveCount == |Startable(old(NextWaves()), roomIds)|
    {
      WalkBegins(roomIds);
      PushedNowhere(RoomWaves(), NextWaves());
      hide RoomState.Valid, Started, Startable, Pushed, Walk;
      ghost var was, next := RoomWaves(), NextWaves();
      startedWaveCount := 0;
      var rest := roomIds;
      ghost var done: set<RoomId> := {};
      while rest != {}
        invariant Walk(roomIds, done, rest)
        invariant Furnished() && RoomWaves() == Pushed(was, next, done)
        invariant startedWaveCount == |Startable(next, done)|
        decreases |rest|
      {
        var roomId :| roomId in rest;
        WalkOn(roomIds, done, rest, roomId);
        PushedOneMore(was, next, done, roomId);
        rest := rest - {roomId};
        done := done + {roomId};
        if roomId in rooms {
          assert rooms[roomId].Progress() == was[roomId];
          var started := Offer(roomId, rooms[roomId]);
          startedWaveCount := startedWaveCount + if started then 1 else 0;
        }
      }
      WalkEnds(roomIds, done, rest);
    }

    /** The rooms of a set that have a wave left to start. */
    static ghost function Startable(next: map<RoomId, (Waves, bool)>, ids: set<RoomId>): set<RoomId> {
      set id | id in ids && id in next && next[id].1
    }

    /** Some rooms offered their next wave, the others as they were. */
    static ghost function Pushed(was: map<RoomId, Waves>, next: map<RoomId, (Waves, bool)>, ids: set<RoomId>)
      : map<RoomId, Waves>
    {
      map id | id in was :: if id in ids && id in next then next[id].0 else was[id]
    }

    static lemma PushedNowhere(was: map<RoomId, Waves>, next: map<RoomId, (Waves, bool)>)
      ensures Pushed(was, next, {}) == was && Startable(next, {}) == {}
    {
    }

    static lemma PushedOnce(was: map<RoomId, Waves>, next: map<RoomId, (Waves, bool)>, id: RoomId)
      requires id in was && id in next
      ensures Pushed(was, next, {id}) == was[id := next[id].0]
    {
    }

    static lemma PushedOneMore(was: map<RoomId, Waves>, next: map<RoomId, (Waves, bool)>, ids: set<RoomId>, id: RoomId)
      requires id !in ids && was.Keys == next.Keys
      ensures id in was ==> Pushed(was, next, ids)[id] == was[id]
      ensures Pushed(was, next, ids + {id}) ==
        if id in was then Pushed(was, next, ids)[id := next[id].0] else Pushed(was, next, ids)
      ensures |Startable(next, ids + {id})| == |Startable(next, ids)| + if id in next && next[id].1 then 1 else 0
    {
      assert Startable(next, ids + {id}) == Startable(next, ids) + if id in next && next[id].1 then {id} else {};
    }

    method Offer(roomId: RoomId, room: RoomState) returns (started: bool)
      requires Furnished() && roomId in rooms && room == rooms[roomId]
      modifies room`currentWave, room`enemies
      ensures Furnished() && started == old(Advanced(room).1)
      ensures RoomWaves() == old(RoomWaves())[roomId := old(Advanced(room).0)]
    {
      hide RoomState.Valid, Started;
      started := room.StartNextWave();
    }

    /** Where the portal under a player's feet leads, or what keeps it shut. */
    ghost function PortalOutcome(sessionId: SessionId): UsePortalResult
      requires Furnished()
      reads this, players.Values, rooms.Values
    {
      if !state.Running? then DungeonNotRunning
      else if sessionId !in players then PlayerNotFound
      else if players[sessionId].roomId !in rooms then TargetRoomNotFound
      else
        var player := players[sessionId];
        var portals := rooms[player.roomId].roomTemplate.portals;
        var k := PortalUnder(portals, player.position, 0);
        if k == |portals| then NotInsidePortal
        else if portals[k].requiresRoomClear && !AllKilled(rooms[player.roomId]) then RoomNotCleared
        else if portals[k].targetRoomId !in rooms then TargetRoomNotFound
        else if player.currentHp == 0 ||
          !rooms[portals[k].targetRoomId].PositionResult(portals[k].targetPosition).Valid? then TargetPositionBlocked
        else PortalUsed
    }

    /** Portal k is the first one of the player's room whose trigger area holds the player. */
    ghost predicate StandsUnder(sessionId: SessionId, k: nat)
      reads this`players, players.Values
    {
      && sessionId in players && players[sessionId].roomId in rooms
      && var portals := rooms[players[sessionId].roomId].roomTemplate.portals;
      && k < |portals| && IsInsideCollisionBox(portals[k].triggerArea, players[sessionId].position)
      && forall j :: 0 <= j < k ==> !IsInsideCollisionBox(portals[j].triggerArea, players[sessionId].position)
    }

    /** A player gets through a portal exactly when the dungeon runs, the player lives and stands under
        it, it asks for no cleared room or every spawn of the room has been killed, and its far end is
        there and free; an uncleared room keeps shut exactly the portals that ask for a cleared one. */
    lemma PortalOutcomeMeans(sessionId: SessionId, k: nat)
      requires Furnished() && StandsUnder(sessionId, k)
      ensures
        var room := rooms[players[sessionId].roomId];
        var portal := room.roomTemplate.portals[k];
        var killed := forall n :: 0 <= n < |room.roomTemplate.enemySpawns| ==>
          SpawnedAndKilled(room.Progress(), room.roomTemplate.enemySpawns[n]);
        var shut := portal.requiresRoomClear && !killed;
        && (PortalOutcome(sessionId).PortalUsed? <==>
              && state.Running? && !shut && players[sessionId].currentHp > 0 && portal.targetRoomId in rooms
              && rooms[portal.targetRoomId].PositionResult(portal.targetPosition).Valid?)
        && (PortalOutcome(sessionId).RoomNotCleared? <==> state.Running? && shut)
        && OpenPortal(sessionId) == if state.Running? && !shut then Some(portal) else None
    {
      hide RoomState.PositionResult, SpawnedAndKilled;
      var portals := rooms[players[sessionId].roomId].roomTemplate.portals;
      assert PortalUnder(portals, players[sessionId].position, 0) == k;
    }

    /** Who stands under no portal uses none. */
    lemma NoPortalNoPassage(sessionId: SessionId)
      requires Furnished() && forall k: nat :: !StandsUnder(sessionId, k)
      ensures !PortalOutcome(sessionId).PortalUsed? && OpenPortal(sessionId).None?
    {
      hide RoomState.PositionResult;
      if sessionId in players && players[sessionId].roomId in rooms {
        var portals := rooms[players[sessionId].roomId].roomTemplate.portals;
        assert !StandsUnder(sessionId, PortalUnder(portals, players[sessionId].position, 0));
      }
    }

    /** The portal under a player's feet, unless something keeps the player from it. */
    method FindOpenPortal(sessionId: SessionId) returns (refusal: Option<UsePortalResult>, portal: PortalTemplate)
      requires Furnished()
      ensures refusal.Some? ==> refusal.value != PortalUsed && PortalOutcome(sessionId) == refusal.value
      ensures refusal.None? ==>
        && OpenPortal(sessionId) == Some(portal) && portal.targetRoomId in rooms
        && PortalOutcome(sessionId) == if players[sessionId].currentHp == 0 ||
          !rooms[portal.targetRoomId].PositionResult(portal.targetPosition).Valid? then TargetPositionBlocked
        else PortalUsed
    {
      portal := PortalTemplate(CollisionBox(Position(0.0, 0.0, 0.0), Position(0.0, 0.0, 0.0)), 0, Position(0.0, 0.0, 0.0), false);
      if !state.Running? {
        return Some(DungeonNotRunning), portal;
      }
      if sessionId !in players {
        return Some(PlayerNotFound), portal;
      }
      var player := players[sessionId];
      if player.roomId !in rooms {
        return Some(TargetRoomNotFound), portal;
      }
      var index := FindTemplate(player.roomId);
      var portals := dungeonTemplate.rooms[index].portals;
      var k := FindPortal(portals, player.position);
      if k == |portals| {
        return Some(NotInsidePortal), portal;
      }
      portal := portals[k];
      if portal.requiresRoomClear {
        var cleared := rooms[player.roomId].IsCleared();
        if !cleared {
          return Some(RoomNotCleared), portal;
        }
      }
      if portal.targetRoomId !in rooms {
        return Some(TargetRoomNotFound), portal;
      }
      refusal := None;
    }

    /** The portal a player may step through: the first one under its feet, and if that asks
        for a cleared room then every spawn of the room has been spawned and killed. */
    ghost function OpenPortal(sessionId: SessionId): (p: Option<PortalTemplate>)
      requires Furnished()
      reads this, players.Values, rooms.Values
    {
      if !state.Running? || sessionId !in players || players[sessionId].roomId !in rooms then None
      else
        var room := rooms[players[sessionId].roomId];
        var portals := room.roomTemplate.portals;
        var k := PortalUnder(portals, players[sessionId].position, 0);
        if k == |portals| || (portals[k].requiresRoomClear && !AllKilled(room)) then None else Some(portals[k])
    }

    /** A portal that asks for a cleared room opens only when every spawn of the room has been
        spawned and killed; using it moves this player and nobody else, and offers the target
        room, and no other, its next wave. */
    method TryUsePortal(sessionId: SessionId) returns (result: UsePortalResult)
      requires Indexed() && Furnished() && Manned()
      modifies players.Values`position, players.Values`roomId, rooms.Values`currentWave, rooms.Values`enemies
      ensures Furnished() && Manned() && result == old(PortalOutcome(sessionId))
      ensures forall s :: s in players && !(s == sessionId && result.PortalUsed?) ==>
        players[s].roomId == old(players[s].roomId) && players[s].position == old(players[s].position)
      ensures !result.PortalUsed? ==> RoomWaves() == old(RoomWaves())
      ensures result.PortalUsed? ==>
        var portal := old(OpenPortal(sessionId));
        && portal.Some?
        && players[sessionId].roomId == portal.value.targetRoomId
        && players[sessionId].position == portal.value.targetPosition
        && RoomWaves() == Pushed(old(RoomWaves()), old(NextWaves()), {portal.value.targetRoomId})
    {
      hide RoomState.Valid, DungeonPlayerState.Valid, Started, OpenPortal, PortalOutcome, RoomState.PositionResult;
      hide Pushed;
      var refusal, portal := FindOpenPortal(sessionId);
      if refusal.Some? {
        return refusal.value;
      }
      Occupant(sessionId);
      var moved := StepThrough(players[sessionId], portal, rooms[portal.targetRoomId]);
      result := if moved then PortalUsed else TargetPositionBlocked;
    }

    method StepThrough(player: DungeonPlayerState, portal: PortalTemplate, targetRoom: RoomState) returns (moved: bool)
      requires Furnished() && portal.targetRoomId in rooms && targetRoom == rooms[portal.targetRoomId]
      requires player.Valid() && targetRoom.Valid() && targetRoom.roomTemplate.id == portal.targetRoomId != 0
      modifies player`position, player`roomId, targetRoom`currentWave, targetRoom`enemies
      ensures Furnished() && player.Valid()
      ensures moved <==> old(player.currentHp) > 0 && old(targetRoom.PositionResult(portal.targetPosition)).Valid?
      ensures player.roomId == if moved then portal.targetRoomId else old(player.roomId)
      ensures player.position == if moved then portal.targetPosition else old(player.position)
      ensures RoomWaves() ==
        if moved then Pushed(old(RoomWaves()), old(NextWaves()), {portal.targetRoomId}) else old(RoomWaves())
    {
      hide RoomState.Valid, DungeonPlayerState.Valid, RoomState.PositionResult, Pushed, Furnished, RoomWaves;
      hide NextWaves;
      var entered := player.EnterRoom(targetRoom, portal.targetPosition);
      moved := entered.Moved?;
      if moved {
        OfferTarget(portal, targetRoom);
      }
    }

    method OfferTarget(portal: PortalTemplate, room: RoomState)
      requires Furnished() && portal.targetRoomId in rooms && room == rooms[portal.targetRoomId]
      modifies room`currentWave, room`enemies
      ensures Furnished()
      ensures RoomWaves() == Pushed(old(RoomWaves()), old(NextWaves()), {portal.targetRoomId})
    {
      PushedOnce(RoomWaves(), NextWaves(), portal.targetRoomId);
      hide RoomState.Valid, Started, Pushed;
      var started := Offer(portal.targetRoomId, room);
    }

    lemma Occupant(sessionId: SessionId)
      requires Furnished() && OpenPortal(sessionId).Some?
      ensures sessionId in players && players[sessionId].roomId in rooms
    {
    }

    method FindTemplate(roomId: RoomId) returns (index: nat)
      requires Furnished() && roomId in rooms
      ensures index < |dungeonTemplate.rooms| && dungeonTemplate.rooms[index] == rooms[roomId].roomTemplate
    {
      assert roomId in RoomIds(dungeonTemplate.rooms);
      index := 0;
      while index < |dungeonTemplate.rooms| && dungeonTemplate.rooms[index].id != roomId
        invariant index <= |dungeonTemplate.rooms|
        invariant forall j :: 0 <= j < index ==> dungeonTemplate.rooms[j].id != roomId
      {
        index := index + 1;
      }
    }

    static method FindPortal(portals: seq<PortalTemplate>, position: Position) returns (k: nat)
      ensures k == PortalUnder(portals, position, 0)
    {
      k := 0;
      while k < |portals| && !IsInsideCollisionBox(portals[k].triggerArea, position)
        invariant k <= |portals|
        invariant PortalUnder(portals, position, 0) == PortalUnder(portals, position, k)
      {
        k := k + 1;
      }
    }

    /** Everybody stands in the last room, and every spawn of every room has come and died. */
    ghost predicate Cleared()
      requires Furnished()
      reads this`players, players.Values, rooms.Values
    {
      && players != map[]
      && (forall s :: s in players ==> players[s].roomId == dungeonTemplate.rooms[|dungeonTemplate.rooms| - 1].id)
      && (forall id :: id in rooms ==> AllKilled(rooms[id]))
    }

    /** A running dungeon finishes exactly when it is cleared. */
    method TryFinishIfCleared() returns (finished: bool)
      requires Furnished()
      modifies this`state
      ensures finished <==> old(state).Running? && Cleared()
      ensures finished <==>
        && old(state).Running? && players != map[]
        && (forall s :: s in players ==> players[s].roomId == dungeonTemplate.rooms[|dungeonTemplate.rooms| - 1].id)
        && (forall id, k :: id in rooms && 0 <= k < |rooms[id].roomTemplate.enemySpawns| ==>
              SpawnedAndKilled(rooms[id].Progress(), rooms[id].roomTemplate.enemySpawns[k]))
      ensures state == if finished then Finished else old(state)
    {
      if !state.Running? || players == map[] {
        return false;
      }
      var together := EverybodyInRoom(dungeonTemplate.rooms[|dungeonTemplate.rooms| - 1].id);
      if !together {
        return false;
      }
      var cleared := EveryRoomCleared();
      if !cleared {
        return false;
      }
      finished := Finish();
    }

    method EverybodyInRoom(roomId: RoomId) returns (all: bool)
      ensures all <==> forall s :: s in players ==> players[s].roomId == roomId
    {
      var sessions := players.Keys;
      while sessions != {}
        invariant sessions <= players.Keys
        invariant forall s :: s in players && s !in sessions ==> players[s].roomId == roomId
        decreases |sessions|
      {
        var s :| s in sessions;
        if players[s].roomId != roomId {
          return false;
        }
        sessions := sessions - {s};
      }
      all := true;
    }

    method EveryRoomCleared() returns (all: bool)
      requires Furnished()
      ensures all <==> forall id :: id in rooms ==> AllKilled(rooms[id])
    {
      hide RoomState.Valid;
      var ids := rooms.Keys;
      while ids != {}
        invariant ids <= rooms.Keys
        invariant forall id :: id in rooms && id !in ids ==> AllKilled(rooms[id])
        decreases |ids|
      {
        var id :| id in ids;
        var cleared := rooms[id].IsCleared();
        if !cleared {
          return false;
        }
        ids := ids - {id};
      }
      all := true;
    }
  }

  // ---------------------------------------------------------------- views of a dungeon

  /** Where the characters stand. */
  ghost function Places(dungeon: DungeonInstance): map<SessionId, (RoomId, Position)>
    reads dungeon`players, dungeon.players.Values
  {
    map s | s in dungeon.players :: (dungeon.players[s].roomId, dungeon.players[s].position)
  }

  /** Everybody is seated, alive or dead, each session with its own character. */
  ghost predicate Ready(dungeon: DungeonInstance)
    reads dungeon, dungeon.players.Values, dungeon.rooms.Values
  {
    dungeon.Indexed() && dungeon.Manned() && dungeon.Furnished()
  }

  /** A dungeon that was looked up: whether it runs, and the objects a tick of it may change. */
  predicate Runs(dungeon: Option<DungeonInstance>)
    reads if dungeon.Some? then {dungeon.value} else {}
  {
    dungeon.Some? && dungeon.value.state.Running?
  }

  function CharactersOf(dungeon: Option<DungeonInstance>): set<DungeonPlayerState>
    reads if dungeon.Some? then {dungeon.value} else {}
  {
    if dungeon.Some? then dungeon.value.players.Values else {}
  }

  function RoomsOf(dungeon: Option<DungeonInstance>): set<RoomState> {
    if dungeon.Some? then dungeon.value.rooms.Values else {}
  }
}
