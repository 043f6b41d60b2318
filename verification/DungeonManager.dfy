/** The dungeon manager of src/DungeonManager.cpp, over live dungeon objects. */
module DungeonManagers {
  import opened Common
  import opened DungeonRoom
  import opened PlayerState
  import opened RoomStates
  import opened SeatTable
  import SeatIndex
  import opened PartyManagers
  import opened DungeonInstances
  import opened DungeonRegistry

  type DungeonTemplateId = nat

  datatype CreateDungeonResult =
    | Created(dungeonId: DungeonId)
    | NoSuchParty
    | NoSuchTemplate
    | PartyAlreadyInDungeon
    | ServerStopping

  /** DungeonAbandonmentSweep. */
  datatype AbandonmentSweep = AbandonmentSweep(removedParticipants: seq<(DungeonId, SessionId)>, releasedDungeons: seq<DungeonId>)

  class DungeonManager {
    const partyManager: PartyManager
    const dungeonCatalog: map<DungeonTemplateId, DungeonTemplate>
    const enemyCatalog: EnemyCatalog
    var nextDungeonId: DungeonId
    var dungeons: map<DungeonId, DungeonInstance>
    var partyDungeons: map<PartyId, DungeonId>
    var authenticatedPlayers: map<SessionId, PlayerId>
    var activePlayerSessions: map<PlayerId, SessionId>
    var stopping: bool

    static ghost function ViewOf(d: DungeonInstance): Dungeon reads d {
      Dungeon(d.partyId, d.createdAt, d.state, d.Seats())
    }

    ghost function Dungeons(): map<DungeonId, Dungeon> reads this`dungeons, dungeons.Values {
      map id | id in dungeons :: ViewOf(dungeons[id])
    }

    ghost function View(): Registry reads this, dungeons.Values {
      Registry(nextDungeonId, Dungeons(), partyDungeons, authenticatedPlayers, activePlayerSessions, stopping)
    }

    /** Each dungeon is its own object with its own containers in order. */
    ghost predicate Housed() reads this`dungeons, dungeons.Values {
      && (forall id :: id in dungeons ==> dungeons[id].dungeonId == id && dungeons[id].Indexed())
      && (forall id, other :: id in dungeons && other in dungeons && id != other ==> dungeons[id] != dungeons[other])
    }

    ghost function Rooms(): set<RoomState> reads this`dungeons {
      set id, r | id in dungeons && r in dungeons[id].rooms.Values :: r
    }

    ghost function Characters(): set<DungeonPlayerState> reads this`dungeons, dungeons.Values`players {
      set id, c | id in dungeons && c in dungeons[id].players.Values :: c
    }

    ghost predicate Catalogued() {
      forall id :: id in dungeonCatalog ==> TemplateAccepted(dungeonCatalog[id], enemyCatalog)
    }

    /** No two dungeons share a room. */
    ghost predicate RoomsApart() reads this`dungeons {
      forall id, other :: id in dungeons && other in dungeons && id != other ==>
        dungeons[id].rooms.Values !! dungeons[other].rooms.Values
    }

    /** Each dungeon has its rooms in order, and for itself. */
    ghost predicate Equipped() reads this`dungeons, Rooms() {
      && RoomsApart()
      && forall id :: id in dungeons ==> dungeons[id].rooms.Values <= Rooms() && dungeons[id].Furnished()
    }

    /** The characters are in order, labelled with their sessions, and each sits in one dungeon. */
    ghost predicate Staffed() reads this`dungeons, dungeons.Values`players, Characters() {
      && (forall id :: id in dungeons ==> dungeons[id].players.Values <= Characters() && dungeons[id].Crewed())
      && (forall id, other :: id in dungeons && other in dungeons && id != other ==>
            dungeons[id].players.Values !! dungeons[other].players.Values)
    }

    ghost predicate Valid() reads this, dungeons.Values {
      Sound(View()) && Housed() && Catalogued()
    }

    constructor (
      partyManager: PartyManager, dungeonCatalog: map<DungeonTemplateId, DungeonTemplate>, enemyCatalog: EnemyCatalog)
      requires forall id :: id in dungeonCatalog ==> TemplateAccepted(dungeonCatalog[id], enemyCatalog)
      ensures Valid() && View() == NEW_REGISTRY && this.partyManager == partyManager
    {
      this.partyManager, this.dungeonCatalog, this.enemyCatalog := partyManager, dungeonCatalog, enemyCatalog;
      nextDungeonId, dungeons, partyDungeons := 1, map[], map[];
      authenticatedPlayers, activePlayerSessions, stopping := map[], map[], false;
    }

    // -------------------------------------------------------------- disconnect

    method DisconnectPlayerSession(sessionId: SessionId, disconnectedAt: Time) returns (found: Option<DungeonId>)
      requires Valid()
      modifies this`authenticatedPlayers, this`activePlayerSessions, dungeons.Values`disconnectedSince
      ensures Valid() && CanReport(old(View()), sessionId, found)
      ensures View() == Departed(old(View()), sessionId, disconnectedAt, found)
      ensures sessionId != 0 ==> DepartedExactly(old(View()), View(), sessionId, disconnectedAt, found)
      ensures sessionId == 0 ==> View() == old(View()) && found.None?
      ensures old(Staffed()) ==> Staffed()
    {
      hide Sound, Staffed, Housed, Dungeons, LoggedOut, Vacated, DepartedExactly;
      if sessionId == 0 {
        LeftStaffed();
        return None;
      }
      LogOut(sessionId);
      found := Report(sessionId, disconnectedAt);
      ReportIgnoresLogins(old(View()), sessionId, found);
      DepartureMeans(old(View()), sessionId, disconnectedAt, found);
      DepartedIsSound(old(View()), sessionId, disconnectedAt, found);
    }

    static lemma ReportIgnoresLogins(m: Registry, s: SessionId, found: Option<DungeonId>)
      ensures LoggedOut(m, s).dungeons == m.dungeons
      ensures CanReport(LoggedOut(m, s), s, found) <==> CanReport(m, s, found)
    {
    }

    method Report(sessionId: SessionId, disconnectedAt: Time) returns (found: Option<DungeonId>)
      requires Housed() && sessionId != 0
      modifies dungeons.Values`disconnectedSince
      ensures Housed() && CanReport(old(View()), sessionId, found) && (old(Staffed()) ==> Staffed())
      ensures View() == if found.None? then old(View()) else
        Updated(old(View()), found.value, Vacated(old(View()).dungeons[found.value].roster, sessionId, disconnectedAt))
    {
      hide Staffed, Housed, Dungeons, Vacated;
      found := ReportGone(sessionId, disconnectedAt);
      LeftStaffed();
    }

    method LogOut(sessionId: SessionId)
      requires Housed()
      modifies this`authenticatedPlayers, this`activePlayerSessions
      ensures Housed() && View() == LoggedOut(old(View()), sessionId) && (old(Staffed()) ==> Staffed())
    {
      hide Staffed, Dungeons;
      if sessionId in authenticatedPlayers {
        var playerId := authenticatedPlayers[sessionId];
        if playerId in activePlayerSessions && activePlayerSessions[playerId] == sessionId {
          activePlayerSessions := activePlayerSessions - {playerId};
        }
        authenticatedPlayers := authenticatedPlayers - {sessionId};
      }
      LeftStaffed();
    }

    /** The first dungeon that knows the session takes the report. */
    method ReportGone(sessionId: SessionId, disconnectedAt: Time) returns (found: Option<DungeonId>)
      requires Housed() && sessionId != 0
      modifies dungeons.Values`disconnectedSince
      ensures Housed() && CanReport(old(View()), sessionId, found)
      ensures View() == if found.None? then old(View()) else
        Updated(old(View()), found.value, Vacated(old(View()).dungeons[found.value].roster, sessionId, disconnectedAt))
    {
      var rest := dungeons.Keys;
      while rest != {}
        invariant rest <= dungeons.Keys
        invariant Housed() && View() == old(View())
        invariant forall id :: id in dungeons && id !in rest ==> sessionId !in View().dungeons[id].roster.seats
        decreases |rest|
      {
        var id :| id in rest;
        rest := rest - {id};
        var known := ReportTo(id, dungeons[id], sessionId, disconnectedAt);
        if known {
          return Some(id);
        }
      }
      found := None;
    }

    method ReportTo(id: DungeonId, dungeon: DungeonInstance, sessionId: SessionId, disconnectedAt: Time)
      returns (known: bool)
      requires Housed() && id in dungeons && dungeon == dungeons[id]
      modifies dungeon`disconnectedSince
      ensures Housed() && (known <==> sessionId in old(dungeon.Seats()).seats)
      ensures View() ==
        Updated(old(View()), id, Vacated(old(View()).dungeons[id].roster, sessionId, disconnectedAt))
      ensures !known ==> View() == old(View())
    {
      hide Housed, Dungeons, SeatIndex.Indexed, Vacated;
      Held(id);
      Apart(id);
      VacatedNobody(dungeon.Seats(), sessionId, disconnectedAt);
      known := dungeon.DisconnectParticipant(sessionId, disconnectedAt);
      OneChanged(id);
    }

    static lemma VacatedNobody(r: Roster, s: SessionId, at: Time)
      ensures s !in r.seats ==> Vacated(r, s, at) == r
    {
    }

    // -------------------------------------------------------------- registration and rollback

    /** The first dungeon with the session in it decides, by binding the player or refusing. */
    method BindSomewhere(sessionId: SessionId, playerId: PlayerId) returns (found: Option<DungeonId>, bound: bool)
      requires Housed()
      modifies dungeons.Values`participantPlayerIds, dungeons.Values`playerSessions
      ensures Housed()
      ensures found.None? ==> SeatedNowhere(old(View()), sessionId) && View() == old(View())
      ensures found.Some? ==>
        && Seated(old(View()), found.value, sessionId)
        && (bound <==> CanBind(old(View()).dungeons[found.value].roster, sessionId, playerId))
        && View() == if !bound then old(View()) else
          Updated(old(View()), found.value, Bound(old(View()).dungeons[found.value].roster, sessionId, playerId))
    {
      hide Housed, CanBind, Bound;
      found, bound := None, false;
      var rest := dungeons.Keys;
      while rest != {}
        invariant rest <= dungeons.Keys
        invariant Housed() && View() == old(View())
        invariant forall id :: id in dungeons && id !in rest ==> sessionId !in View().dungeons[id].roster.seats
        decreases |rest|
      {
        var id :| id in rest;
        rest := rest - {id};
        if sessionId in dungeons[id].players {
          found := Some(id);
          bound := BindIn(id, dungeons[id], sessionId, playerId);
          return;
        }
      }
    }

    method BindIn(id: DungeonId, dungeon: DungeonInstance, sessionId: SessionId, playerId: PlayerId)
      returns (bound: bool)
      requires Housed() && id in dungeons && dungeon == dungeons[id]
      modifies dungeon`participantPlayerIds, dungeon`playerSessions
      ensures Housed() && (bound <==> CanBind(old(View()).dungeons[id].roster, sessionId, playerId))
      ensures View() == if !bound then old(View()) else
        Updated(old(View()), id, Bound(old(View()).dungeons[id].roster, sessionId, playerId))
    {
      hide CanBind, Bound, SeatIndex.Indexed;
      RefusedBind(dungeon.Seats(), sessionId, playerId);
      bound := dungeon.BindParticipantPlayer(sessionId, playerId);
      OneChanged(id);
    }

    /** Offers the player's seat to every unfinished dungeon until one gives it back. */
    method ReclaimSomewhere(sessionId: SessionId, playerId: PlayerId, now: Time, reconnectGrace: Time)
      returns (found: Option<DungeonId>, reconnect: Reconnect)
      requires Housed()
      modifies Characters()`sessionId
      modifies dungeons.Values`participants, dungeons.Values`players, dungeons.Values`participantPlayerIds
      modifies dungeons.Values`playerSessions, dungeons.Values`disconnectedSince
      ensures Housed() && Characters() <= old(Characters())
      ensures found.None? ==> View() == old(View())
      ensures found.None? ==>
        forall id :: id in View().dungeons ==> NothingToReclaim(View(), id, playerId, sessionId, now, reconnectGrace)
      ensures found.Some? ==>
        var id, old_ := found.value, reconnect.replacedSessionId;
        && Reclaimable(old(View()), id, playerId, old_, sessionId, now, reconnectGrace)
        && old(View()).dungeons[id].roster.seats[old_].since == Some(reconnect.disconnectedAt)
        && View() == Updated(old(View()), id, Relabelled(old(View()).dungeons[id].roster, old_, sessionId, None))
      ensures old(Staffed()) ==> Staffed()
    {
      hide Staffed, Housed, Characters, Reclaimable, NothingToReclaim, Relabelled, Updated;
      found, reconnect := None, Reconnect(0, 0);
      var rest := dungeons.Keys;
      while rest != {}
        invariant rest <= dungeons.Keys
        invariant old(Staffed()) ==> Staffed()
        invariant Housed() && View() == old(View()) && Characters() <= old(Characters())
        invariant forall id :: id in dungeons && id !in rest ==>
          NothingToReclaim(View(), id, playerId, sessionId, now, reconnectGrace)
        decreases |rest|
      {
        var id :| id in rest;
        rest := rest - {id};
        CharactersHeld(id);
        OverMeansNothing(View(), id, playerId, sessionId, now, reconnectGrace);
        if !dungeons[id].state.Finished? {
          var outcome := ReclaimIn(id, dungeons[id], sessionId, playerId, now, reconnectGrace);
          if outcome.Some? {
            return Some(id), outcome.value;
          }
        }
      }
    }

    static lemma OverMeansNothing(m: Registry, id: DungeonId, p: PlayerId, s: SessionId, now: Time, grace: Time)
      ensures id in m.dungeons && m.dungeons[id].state.Finished? ==> NothingToReclaim(m, id, p, s, now, grace)
    {
    }

    method ReclaimIn(
      id: DungeonId, dungeon: DungeonInstance, sessionId: SessionId, playerId: PlayerId, now: Time, reconnectGrace: Time)
      returns (reconnect: Option<Reconnect>)
      requires Housed() && id in dungeons && dungeon == dungeons[id] && !dungeon.state.Finished?
      modifies dungeon`participants, dungeon`players, dungeon`participantPlayerIds, dungeon`playerSessions
      modifies dungeon`disconnectedSince, dungeon.players.Values`sessionId
      ensures Housed() && Characters() <= old(Characters())
      ensures reconnect.None? ==>
        && View() == old(View()) && dungeon.players == old(dungeon.players)
        && NothingToReclaim(View(), id, playerId, sessionId, now, reconnectGrace)
      ensures reconnect.Some? ==>
        var old_ := reconnect.value.replacedSessionId;
        && Reclaimable(old(View()), id, playerId, old_, sessionId, now, reconnectGrace)
        && old(View()).dungeons[id].roster.seats[old_].since == Some(reconnect.value.disconnectedAt)
        && View() == Updated(old(View()), id, Relabelled(old(View()).dungeons[id].roster, old_, sessionId, None))
      ensures old(Staffed()) ==> Staffed()
    {
      hide Staffed, Housed, Dungeons, CanReclaim, Relabelled, SeatIndex.Indexed, DungeonInstance.Seats;
      Held(id);
      Apart(id);
      reconnect := dungeon.ReconnectParticipant(playerId, sessionId, now, reconnectGrace);
      OneChanged(id);
      SameCharacters(id);
      OneRecrewed(id);
      if reconnect.None? {
        assert dungeon.Seats() == old(dungeon.Seats()) by { SameContainers(dungeon); }
      }
    }

    /** A session registers while it is not reported gone; see the strand in src/TcpSession.cpp. */
    method RegisterPlayerSession(sessionId: SessionId, playerId: PlayerId, now: Time, reconnectGrace: Time)
      returns (registration: Registration)
      requires Valid() && Present(View(), sessionId)
      modifies this`authenticatedPlayers, this`activePlayerSessions, Characters()`sessionId
      modifies dungeons.Values`participants, dungeons.Values`players, dungeons.Values`participantPlayerIds
      modifies dungeons.Values`playerSessions, dungeons.Values`disconnectedSince
      ensures Valid() && Characters() <= old(Characters())
      ensures CanAnswer(old(View()), sessionId, playerId, now, reconnectGrace, registration)
      ensures View() == Answered(old(View()), sessionId, playerId, reconnectGrace, registration)
      ensures RegisteredExactly(old(View()), View(), sessionId, playerId, now, reconnectGrace, registration)
      ensures old(Staffed()) ==> Staffed()
    {
      hide RegisteredExactly;
      hide Staffed, Sound, Housed, Characters, CanBind, CanReclaim, Relabelled, Bound, Outcome, Placed, Identified;
      hide LoginsInverse, Present;
      SoundLogins(View());
      registration := InvalidIdentity;
      var identified := LogIn(sessionId, playerId, reconnectGrace);
      LeftStaffed();
      if identified {
        registration := TakeSeat(sessionId, playerId, now, reconnectGrace);
      }
      OutcomeIgnoresLogins(old(View()), sessionId, playerId, now, reconnectGrace, registration);
      AnsweredIsSound(old(View()), sessionId, playerId, now, reconnectGrace, registration);
      RegistrationMeans(old(View()), sessionId, playerId, now, reconnectGrace, registration);
    }

    method LogIn(sessionId: SessionId, playerId: PlayerId, reconnectGrace: Time) returns (identified: bool)
      requires LoginsInverse(authenticatedPlayers, activePlayerSessions)
      modifies this`authenticatedPlayers, this`activePlayerSessions
      ensures identified <==> Identified(old(View()), sessionId, playerId, reconnectGrace)
      ensures View() == if identified then LoggedIn(old(View()), sessionId, playerId) else old(View())
    {
      if sessionId == 0 || playerId == 0 || reconnectGrace <= 0 || stopping {
        return false;
      }
      if sessionId in authenticatedPlayers && authenticatedPlayers[sessionId] != playerId {
        return false;
      }
      if playerId in activePlayerSessions && activePlayerSessions[playerId] != sessionId {
        return false;
      }
      if sessionId !in authenticatedPlayers {
        authenticatedPlayers := authenticatedPlayers[sessionId := playerId];
      }
      if playerId !in activePlayerSessions {
        activePlayerSessions := activePlayerSessions[playerId := sessionId];
      }
      identified := true;
    }

    /** The two loops of a registration, once the session is logged in. */
    method TakeSeat(sessionId: SessionId, playerId: PlayerId, now: Time, reconnectGrace: Time)
      returns (registration: Registration)
      requires Housed() && Lookup(authenticatedPlayers, sessionId) == Some(playerId)
      requires Lookup(activePlayerSessions, playerId) == Some(sessionId)
      modifies this`authenticatedPlayers, this`activePlayerSessions, Characters()`sessionId
      modifies dungeons.Values`participants, dungeons.Values`players, dungeons.Values`participantPlayerIds
      modifies dungeons.Values`playerSessions, dungeons.Values`disconnectedSince
      ensures Housed() && Characters() <= old(Characters()) && Outcome(old(View()), sessionId, playerId, now, reconnectGrace, registration)
      ensures View() == Placed(old(View()), sessionId, playerId, registration)
      ensures old(Staffed()) ==> Staffed()
    {
      hide Staffed, Housed, Dungeons, Characters, CanBind, CanReclaim, Relabelled, Bound;
      var seat, bound := BindSomewhere(sessionId, playerId);
      LeftStaffed();
      if seat.Some? {
        if !bound {
          authenticatedPlayers := authenticatedPlayers - {sessionId};
          activePlayerSessions := activePlayerSessions - {playerId};
          return InvalidIdentity;
        }
        return Registered(seat);
      }
      var found, reconnect := ReclaimSomewhere(sessionId, playerId, now, reconnectGrace);
      if found.Some? {
        ReclaimableIsSeated(
          old(View()), found.value, playerId, reconnect.replacedSessionId, sessionId, now, reconnectGrace);
        authenticatedPlayers := authenticatedPlayers - {reconnect.replacedSessionId};
        return Reconnected(found.value, reconnect.replacedSessionId, reconnect.disconnectedAt);
      }
      registration := Registered(None);
    }

    /** Accepted or not, the manager stays sound when the new session has not been reported
        gone in between and the old one has stayed logged out. */
    method RollbackPlayerReconnect(
      dungeonId: DungeonId, playerId: PlayerId, newSessionId: SessionId, replacedSessionId: SessionId,
      disconnectedAt: Time)
      returns (rolledBack: bool)
      requires Valid() && Returnable(View(), dungeonId, playerId, newSessionId, replacedSessionId)
      modifies this`authenticatedPlayers, this`activePlayerSessions, Characters()`sessionId
      modifies dungeons.Values`participants, dungeons.Values`players, dungeons.Values`participantPlayerIds
      modifies dungeons.Values`playerSessions, dungeons.Values`disconnectedSince
      ensures Valid() && (rolledBack <==> CanReturn(old(View()), dungeonId, playerId, newSessionId, replacedSessionId))
      ensures View() == if !rolledBack then old(View()) else
        Returned(old(View()), dungeonId, playerId, newSessionId, replacedSessionId, disconnectedAt)
      ensures old(Staffed()) ==> Staffed()
    {
      hide Staffed, Sound, LoginsInverse, Housed, CanRollback, Relabelled, Dungeons;
      Held(dungeonId);
      if dungeonId !in dungeons {
        return false;
      }
      rolledBack := ReturnIn(dungeonId, dungeons[dungeonId], playerId, newSessionId, replacedSessionId, disconnectedAt);
      if !rolledBack {
        return;
      }
      EraseLogin(playerId, newSessionId);
      ReturnedIsSound(old(View()), dungeonId, playerId, newSessionId, replacedSessionId, disconnectedAt);
    }

    method EraseLogin(playerId: PlayerId, sessionId: SessionId)
      requires Housed()
      modifies this`authenticatedPlayers, this`activePlayerSessions
      ensures Housed() && (old(Staffed()) ==> Staffed())
      ensures View() == old(View()).(
        authenticated := old(authenticatedPlayers) - {sessionId},
        active := if Lookup(old(activePlayerSessions), playerId) == Some(sessionId)
                  then old(activePlayerSessions) - {playerId} else old(activePlayerSessions))
    {
      hide Staffed, Dungeons;
      authenticatedPlayers := authenticatedPlayers - {sessionId};
      if playerId in activePlayerSessions && activePlayerSessions[playerId] == sessionId {
        activePlayerSessions := activePlayerSessions - {playerId};
      }
      LeftStaffed();
    }

    lemma HeldIds()
      ensures View().dungeons.Keys == dungeons.Keys
    {
    }

    lemma Held(id: DungeonId)
      ensures id in dungeons <==> id in View().dungeons
      ensures id in dungeons ==> View().dungeons[id] == ViewOf(dungeons[id])
    {
    }

    method ReturnIn(
      id: DungeonId, dungeon: DungeonInstance, playerId: PlayerId, newSessionId: SessionId, oldSessionId: SessionId,
      at: Time)
      returns (rolledBack: bool)
      requires Housed() && id in dungeons && dungeon == dungeons[id]
      requires newSessionId in dungeon.Seats().seats ==> dungeon.Seats().seats[newSessionId].since.None?
      modifies dungeon`participants, dungeon`players, dungeon`participantPlayerIds, dungeon`playerSessions
      modifies dungeon`disconnectedSince, dungeon.players.Values`sessionId
      ensures Housed()
      ensures rolledBack <==> CanRollback(old(View()).dungeons[id].roster, playerId, newSessionId, oldSessionId)
      ensures View() == if !rolledBack then old(View()) else
        Updated(old(View()), id, Relabelled(old(View()).dungeons[id].roster, newSessionId, oldSessionId, Some(at)))
      ensures old(Staffed()) ==> Staffed()
    {
      hide Staffed, Housed, Dungeons, CanRollback, Relabelled, SeatIndex.Indexed, DungeonInstance.Crewed;
      Held(id);
      Apart(id);
      SinceInSeats(dungeon.Containers(), newSessionId);
      rolledBack := dungeon.RollbackParticipantReconnect(playerId, newSessionId, Reconnect(oldSessionId, at));
      OneChanged(id);
      OneRecrewed(id);
    }

    static lemma SinceInSeats(x: SeatIndex.Index, s: SessionId)
      requires SeatIndex.Indexed(x)
      ensures s in x.since ==> s in SeatIndex.SeatsOf(x).seats && SeatIndex.SeatsOf(x).seats[s].since.Some?
    {
    }

    // -------------------------------------------------------------- sweep

    /** The report lists every dropped seat and every released dungeon once, and nothing else. */
    method SweepAbandonedParticipants(now: Time, reconnectGrace: Time, maxDungeonLifetime: Time) returns (sweep: AbandonmentSweep)
      requires Valid()
      modifies this`dungeons, this`partyDungeons
      modifies dungeons.Values`participants, dungeons.Values`players, dungeons.Values`participantPlayerIds
      modifies dungeons.Values`playerSessions, dungeons.Values`disconnectedSince
      ensures Valid()
      ensures
        var all := if reconnectGrace <= 0 || maxDungeonLifetime <= 0 then {} else old(View()).dungeons.Keys;
        && View() == Swept(old(View()), all, now, reconnectGrace, maxDungeonLifetime)
        && ListsOnce(sweep.releasedDungeons,
             ReleasedIds(old(View()), all, now, reconnectGrace, maxDungeonLifetime))
        && ListsOnce(sweep.removedParticipants,
             RemovedSeats(old(View()), all, now, reconnectGrace, maxDungeonLifetime))
      ensures reconnectGrace > 0 && maxDungeonLifetime > 0 ==>
        && SweptExactly(old(View()), View(), now, reconnectGrace, maxDungeonLifetime)
        && ReportsExactly(old(View()), View(), sweep.releasedDungeons, sweep.removedParticipants,
             now, reconnectGrace, maxDungeonLifetime)
      ensures reconnectGrace <= 0 || maxDungeonLifetime <= 0 ==>
        View() == old(View()) && sweep == AbandonmentSweep([], [])
      ensures NothingNew() && (old(Equipped()) ==> Equipped()) && (old(Staffed()) ==> Staffed())
      ensures Characters() <= old(Characters())
    {
      hide CrewsWithin, Crews, Staffed, Sound, Housed, Dungeons, Equipped, Swept, ReleasedIds, RemovedSeats;
      hide SweptExactly, ReportsExactly;
      NothingSwept(View(), now, reconnectGrace, maxDungeonLifetime);
      SweptIsSound(View(), View().dungeons.Keys, now, reconnectGrace, maxDungeonLifetime);
      sweep := AbandonmentSweep([], []);
      if reconnectGrace <= 0 || maxDungeonLifetime <= 0 {
        LeftStaffed();
        return;
      }
      sweep := SweepAll(now, reconnectGrace, maxDungeonLifetime);
      SweepLeavesNothingOverdue(old(View()), now, reconnectGrace, maxDungeonLifetime);
      SweepReportsExactly(
        old(View()), sweep.releasedDungeons, sweep.removedParticipants, now, reconnectGrace, maxDungeonLifetime);
      WithinOld(old(Crews()));
      FewerEquipped();
      LeftStaffed();
      FewerCharacters();
    }

    method SweepAll(now: Time, grace: Time, lifetime: Time) returns (sweep: AbandonmentSweep)
      requires Sound(View()) && Housed() && grace > 0
      modifies this`dungeons, this`partyDungeons
      modifies dungeons.Values`participants, dungeons.Values`players, dungeons.Values`participantPlayerIds
      modifies dungeons.Values`playerSessions, dungeons.Values`disconnectedSince
      ensures Housed() && SweptSoFar(old(View()), old(View()).dungeons.Keys, sweep, now, grace, lifetime)
      ensures NothingNew() && CrewsWithin(old(Crews()))
    {
      hide Sound, Housed, Dungeons, Walk, SweptSoFar, CrewsWithin, Crews, NothingNew, LeftOf;
      ghost var crews, all := Crews(), dungeons;
      AllLeft();
      OwnCrews();
      ghost var m := View();
      var rest := dungeons.Keys;
      ghost var done: set<DungeonId> := {};
      HeldIds();
      WalkBegins(m.dungeons.Keys);
      sweep := AbandonmentSweep([], []);
      SweepBegins(m, now, grace, lifetime);
      while rest != {}
        invariant Walk(m.dungeons.Keys, done, rest)
        invariant Housed() && SweptSoFar(m, done, sweep, now, grace, lifetime)
        invariant LeftOf(all) && CrewsWithin(crews)
        decreases |rest|
      {
        var id :| id in rest;
        WalkOn(m.dungeons.Keys, done, rest, id);
        OldObjects(all);
        sweep := SweepTurn(m, done, crews, all, sweep, id, now, grace, lifetime);
        rest := rest - {id};
        done := done + {id};
      }
      WalkEnds(m.dungeons.Keys, done, rest);
      LeftMeansNothingNew();
    }

    ghost predicate LeftOf(all: map<DungeonId, DungeonInstance>) reads this`dungeons {
      dungeons.Keys <= all.Keys && forall id :: id in dungeons ==> dungeons[id] == all[id]
    }

    lemma AllLeft()
      ensures LeftOf(dungeons)
    {
    }

    lemma OldObjects(all: map<DungeonId, DungeonInstance>)
      requires LeftOf(all)
      ensures dungeons.Values <= all.Values
    {
    }

    twostate lemma LeftMeansNothingNew()
      requires LeftOf(old(dungeons))
      ensures NothingNew()
    {
    }

    method SweepTurn(
      ghost m: Registry, ghost done: set<DungeonId>, ghost crews: map<DungeonId, map<SessionId, DungeonPlayerState>>,
      ghost all: map<DungeonId, DungeonInstance>, before: AbandonmentSweep, id: DungeonId, now: Time, grace: Time, lifetime: Time)
      returns (sweep: AbandonmentSweep)
      requires Sound(m) && SweptSoFar(m, done, before, now, grace, lifetime) && id !in done && id in m.dungeons
      requires Housed() && grace > 0 && CrewsWithin(crews) && LeftOf(all)
      modifies this`dungeons, this`partyDungeons
      modifies dungeons.Values`participants, dungeons.Values`players, dungeons.Values`participantPlayerIds
      modifies dungeons.Values`playerSessions, dungeons.Values`disconnectedSince
      ensures Housed() && SweptSoFar(m, done + {id}, sweep, now, grace, lifetime) && CrewsWithin(crews) && LeftOf(all)
    {
      hide CrewsWithin, Sound, Housed, Dungeons, SweptSoFar;
      StillThere(m, done, id, before, now, grace, lifetime);
      sweep := SweepNext(m, done, crews, before, id, dungeons[id], now, grace, lifetime);
    }

    lemma Alone(id: DungeonId)
      requires Housed() && id in dungeons
      ensures forall other :: other in dungeons && other != id ==> dungeons[other] != dungeons[id]
    {
    }

    ghost function Crews(): map<DungeonId, map<SessionId, DungeonPlayerState>>
      reads this`dungeons, dungeons.Values`players
    {
      map id | id in dungeons :: dungeons[id].players
    }

    lemma OwnCrews()
      ensures CrewsWithin(Crews())
    {
    }

    /** Nobody sits in a dungeon who has not sat there before. */
    ghost predicate CrewsWithin(crews: map<DungeonId, map<SessionId, DungeonPlayerState>>)
      reads this`dungeons, dungeons.Values`players
    {
      forall id :: id in dungeons ==>
        id in crews && dungeons[id].players.Keys <= crews[id].Keys &&
        forall s :: s in dungeons[id].players ==> dungeons[id].players[s] == crews[id][s]
    }

    twostate lemma StillWithin(crews: map<DungeonId, map<SessionId, DungeonPlayerState>>)
      requires old(CrewsWithin(crews)) && NothingNew()
      requires forall id :: id in dungeons ==> dungeons[id].FewerSeated()
      ensures CrewsWithin(crews)
    {
      forall id | id in dungeons
        ensures dungeons[id].players.Keys <= old(dungeons[id].players).Keys
      {
        assert dungeons[id].FewerSeated();
      }
    }

    twostate lemma WithinOld(crews: map<DungeonId, map<SessionId, DungeonPlayerState>>)
      requires NothingNew() && crews == old(Crews()) && CrewsWithin(crews)
      ensures forall id :: id in dungeons ==> dungeons[id].FewerSeated()
    {
    }

    /** What holds in the middle of a sweep that has been through the dungeons `done`. */
    ghost predicate SweptSoFar(m: Registry, done: set<DungeonId>, sweep: AbandonmentSweep, now: Time, grace: Time, lifetime: Time)
      reads this, dungeons.Values
    {
      && View() == Swept(m, done, now, grace, lifetime)
      && ListsOnce(sweep.releasedDungeons, ReleasedIds(m, done, now, grace, lifetime))
      && ListsOnce(sweep.removedParticipants, RemovedSeats(m, done, now, grace, lifetime))
    }

    lemma SweepBegins(m: Registry, now: Time, grace: Time, lifetime: Time)
      requires View() == m
      ensures SweptSoFar(m, {}, AbandonmentSweep([], []), now, grace, lifetime)
    {
      NothingSwept(m, now, grace, lifetime);
    }

    lemma StillThere(m: Registry, done: set<DungeonId>, id: DungeonId, sweep: AbandonmentSweep, now: Time, grace: Time, lifetime: Time)
      requires Sound(m) && SweptSoFar(m, done, sweep, now, grace, lifetime) && id !in done && id in m.dungeons
      ensures id in dungeons && Lookup(View().dungeons, id) == Some(m.dungeons[id])
    {
      hide Dungeons;
      SweptOneMore(m, done, id, now, grace, lifetime);
      Held(id);
    }

    /** The body of the sweep loop. */
    method SweepNext(
      ghost m: Registry, ghost done: set<DungeonId>, ghost crews: map<DungeonId, map<SessionId, DungeonPlayerState>>,
      before: AbandonmentSweep, id: DungeonId, dungeon: DungeonInstance,
      now: Time, grace: Time, lifetime: Time)
      returns (sweep: AbandonmentSweep)
      requires Sound(m) && SweptSoFar(m, done, before, now, grace, lifetime) && id !in done && id in m.dungeons
      requires Housed() && id in dungeons && dungeon == dungeons[id] && grace > 0
      requires Lookup(View().dungeons, id) == Some(m.dungeons[id])
      modifies this`dungeons, this`partyDungeons, dungeon`participants, dungeon`players
      modifies dungeon`participantPlayerIds, dungeon`playerSessions, dungeon`disconnectedSince
      ensures Housed() && SweptSoFar(m, done + {id}, sweep, now, grace, lifetime)
      ensures dungeons == old(dungeons) || dungeons == old(dungeons) - {id}
      ensures old(CrewsWithin(crews)) ==> CrewsWithin(crews)
    {
      hide CrewsWithin, Sound, Housed, Dungeons, Swept, ReleasedIds, RemovedSeats, ListsOnce, ToRelease, Leaving;
      hide SweptDungeon, SeatsIn;
      SweptOneMore(m, done, id, now, grace, lifetime);
      ReportedOneMore(m, done, id, now, grace, lifetime);
      ghost var leaving := Leaving(m.dungeons[id], now, grace, lifetime);
      var sessions, gone := SweepOne(id, dungeon, crews, now, grace, lifetime);
      var pairs := Pairs(id, sessions, leaving);
      ListMore(before.removedParticipants, RemovedSeats(m, done, now, grace, lifetime), pairs, SeatsIn(id, leaving));
      ListMaybe(before.releasedDungeons, ReleasedIds(m, done, now, grace, lifetime), id, gone);
      sweep := AbandonmentSweep(before.removedParticipants + pairs, before.releasedDungeons + if gone then [id] else []);
    }

    /** The report entries of one dungeon. */
    static method Pairs(id: DungeonId, list: seq<SessionId>, ghost members: set<SessionId>)
      returns (pairs: seq<(DungeonId, SessionId)>)
      requires ListsOnce(list, members)
      ensures ListsOnce(pairs, SeatsIn(id, members))
    {
      pairs := [];
      var i := 0;
      while i < |list|
        invariant 0 <= i == |pairs| <= |list|
        invariant forall j :: 0 <= j < i ==> pairs[j] == (id, list[j])
      {
        pairs := pairs + [(id, list[i])];
        i := i + 1;
      }
      forall x | x in SeatsIn(id, members)
        ensures x in pairs
      {
        var j :| 0 <= j < |list| && list[j] == x.1;
        assert pairs[j] == x;
      }
    }

    method SweepOne(
      id: DungeonId, dungeon: DungeonInstance, ghost crews: map<DungeonId, map<SessionId, DungeonPlayerState>>,
      now: Time, grace: Time, lifetime: Time)
      returns (sessions: seq<SessionId>, gone: bool)
      requires Housed() && id in dungeons && dungeon == dungeons[id] && grace > 0 && id in View().dungeons
      modifies this`dungeons, this`partyDungeons, dungeon`participants, dungeon`players
      modifies dungeon`participantPlayerIds, dungeon`playerSessions, dungeon`disconnectedSince
      ensures Housed() && dungeons == if gone then old(dungeons) - {id} else old(dungeons)
      ensures ListsOnce(sessions, Leaving(old(View()).dungeons[id], now, grace, lifetime))
      ensures gone <==> ToRelease(old(View()).dungeons[id], now, grace, lifetime)
      ensures View() == if gone then Closed(old(View()), id) else
        Updated(old(View()), id, SweptDungeon(old(View()).dungeons[id], now, grace).roster)
      ensures old(CrewsWithin(crews)) ==> CrewsWithin(crews)
    {
      hide CrewsWithin, Housed, Dungeons, Equipped, Leaving, ToRelease, Expired, Dropped;
      Held(id);
      ghost var m := View();
      var aged := now >= dungeon.createdAt && now - dungeon.createdAt >= lifetime;
      sessions := DropSeatsOf(id, dungeon, crews, aged, now, grace, lifetime);
      gone := aged || dungeon.participants == [];
      if gone {
        ClosedForgets(m, id, dungeon.Seats());
        EraseFrom(id, crews);
      }
    }

    method EraseFrom(id: DungeonId, ghost crews: map<DungeonId, map<SessionId, DungeonPlayerState>>)
      requires Housed() && id in dungeons && id in View().dungeons
      modifies this`dungeons, this`partyDungeons
      ensures Housed() && dungeons == old(dungeons) - {id} && View() == Closed(old(View()), id)
      ensures old(CrewsWithin(crews)) ==> CrewsWithin(crews)
    {
      hide Housed, Dungeons, Equipped, Closed;
      Erase(id);
    }

    method DropSeatsOf(
      id: DungeonId, dungeon: DungeonInstance, ghost crews: map<DungeonId, map<SessionId, DungeonPlayerState>>,
      aged: bool, now: Time, grace: Time, lifetime: Time)
      returns (sessions: seq<SessionId>)
      requires Housed() && id in dungeons && dungeon == dungeons[id] && grace > 0
      requires aged <==> Aged(ViewOf(dungeon), now, lifetime)
      modifies dungeon`participants, dungeon`players
      modifies dungeon`participantPlayerIds, dungeon`playerSessions, dungeon`disconnectedSince
      ensures Housed() && ListsOnce(sessions, Leaving(old(ViewOf(dungeon)), now, grace, lifetime))
      ensures aged || dungeon.participants == [] <==> ToRelease(old(ViewOf(dungeon)), now, grace, lifetime)
      ensures View() == Updated(old(View()), id, dungeon.Seats())
      ensures !aged ==> dungeon.Seats() == SweptDungeon(old(ViewOf(dungeon)), now, grace).roster
      ensures old(CrewsWithin(crews)) ==> CrewsWithin(crews)
    {
      Alone(id);
      hide CrewsWithin, Housed, Dungeons, Leaving, ToRelease, Expired, Dropped, ListsOnce, DungeonInstance.Seats;
      sessions := DropSeats(id, dungeon, aged, now, grace, lifetime);
      if old(CrewsWithin(crews)) {
        StillWithin(crews);
      }
    }

    method DropSeats(
      id: DungeonId, dungeon: DungeonInstance, aged: bool, now: Time, grace: Time, lifetime: Time)
      returns (sessions: seq<SessionId>)
      requires Housed() && id in dungeons && dungeon == dungeons[id] && grace > 0
      requires aged <==> Aged(ViewOf(dungeon), now, lifetime)
      modifies dungeon`participants, dungeon`players
      modifies dungeon`participantPlayerIds, dungeon`playerSessions, dungeon`disconnectedSince
      ensures Housed() && ListsOnce(sessions, Leaving(old(ViewOf(dungeon)), now, grace, lifetime))
      ensures aged || dungeon.participants == [] <==> ToRelease(old(ViewOf(dungeon)), now, grace, lifetime)
      ensures View() == Updated(old(View()), id, dungeon.Seats())
      ensures !aged ==> dungeon.Seats() == SweptDungeon(old(ViewOf(dungeon)), now, grace).roster
      ensures dungeon.FewerSeated()
    {
      hide SeatIndex.Indexed, Expired, Dropped, ToRelease, WellSeated;
      if aged {
        AgedMeansReleased(ViewOf(dungeon), now, grace, lifetime);
        sessions := dungeon.RemoveAllParticipants();
      } else {
        SeatIndex.IndexedMeansWellSeated(dungeon.Containers());
        EmptiedMeansReleased(ViewOf(dungeon), now, grace, lifetime);
        sessions := dungeon.RemoveExpiredDisconnectedParticipants(now, grace);
      }
      OneChanged(id);
    }

    /** A dungeon and its party's entry out of the tables. */
    method Erase(id: DungeonId)
      requires Housed() && id in dungeons && id in View().dungeons
      modifies this`dungeons, this`partyDungeons
      ensures Housed() && dungeons == old(dungeons) - {id} && View() == Closed(old(View()), id)
      ensures old(Equipped()) ==> Equipped()
    {
      hide Housed, Dungeons, Equipped;
      Held(id);
      partyDungeons := partyDungeons - {dungeons[id].partyId};
      dungeons := dungeons - {id};
      OneErased(id);
      FewerEquipped();
    }

    twostate lemma OldRooms(id: DungeonId)
      requires id in old(dungeons)
      ensures forall room :: room in old(dungeons)[id].rooms ==> old(dungeons)[id].rooms[room] in old(Rooms())
    {
      forall room | room in old(dungeons)[id].rooms
        ensures old(dungeons)[id].rooms[room] in old(Rooms())
      {
        assert old(dungeons)[id].rooms[room] in old(dungeons)[id].rooms.Values;
      }
    }

    /** Dungeons may be gone from the table, none is new or another one. */
    twostate predicate NothingNew() reads this`dungeons {
      && dungeons.Keys <= old(dungeons).Keys
      && forall id :: id in dungeons ==> dungeons[id] == old(dungeons)[id]
    }

    /** With fewer dungeons there are fewer objects to change. */
    twostate lemma FewerObjects()
      requires NothingNew()
      ensures dungeons.Values <= old(dungeons).Values && Rooms() <= old(Rooms())
    {
    }

    twostate lemma FewerEquipped()
      requires NothingNew()
      requires forall r :: r in old(Rooms()) ==> unchanged(r)
      ensures old(Equipped()) ==> Equipped()
    {
      hide Rooms;
      if old(Equipped()) {
        forall other | other in dungeons
          ensures dungeons[other].rooms.Values <= Rooms() && dungeons[other].Furnished()
        {
          OldRooms(other);
          forall room | room in dungeons[other].rooms
            ensures unchanged(dungeons[other].rooms[room])
          {
            assert dungeons[other].rooms[room] in old(Rooms());
          }
          StillFurnished(dungeons[other]);
        }
      }
    }

    /** Where nobody has been seated, the characters are in order as before. */
    twostate lemma LeftStaffed()
      requires NothingNew() && forall id :: id in dungeons ==> dungeons[id].FewerSeated() && dungeons[id].CrewUntouched()
      ensures old(Staffed()) ==> Staffed()
    {
      hide DungeonInstance.Crewed, Characters;
      if old(Staffed()) {
        forall id | id in dungeons
          ensures dungeons[id].players.Values <= Characters() && dungeons[id].Crewed()
          ensures dungeons[id].players.Values <= old(dungeons[id].players).Values
        {
          CharactersHeld(id);
          OldCharacters(id);
          assert old(dungeons[id].Crewed());
          dungeons[id].FewerCrewed();
        }
      }
    }

    twostate lemma FewerCharacters()
      requires NothingNew() && forall id :: id in dungeons ==> dungeons[id].FewerSeated()
      ensures Characters() <= old(Characters())
    {
      forall id, c | id in dungeons && c in dungeons[id].players.Values
        ensures c in old(Characters())
      {
        var s :| s in dungeons[id].players && dungeons[id].players[s] == c;
        assert old(dungeons[id].players)[s] == c;
        OldCharacters(id);
      }
    }

    lemma CharactersHeld(id: DungeonId)
      requires id in dungeons
      ensures dungeons[id].players.Values <= Characters()
    {
    }

    twostate lemma OldCharacters(id: DungeonId)
      requires id in old(dungeons)
      ensures old(dungeons[id].players).Values <= old(Characters())
    {
    }

    /** One dungeon has relabelled its characters, the others have kept theirs. */
    twostate lemma OneRecrewed(id: DungeonId)
      requires dungeons == old(dungeons) && id in dungeons
      requires forall other :: other in dungeons && other != id ==> dungeons[other].players == old(dungeons[other].players)
      requires dungeons[id].NobodyNew() && (old(dungeons[id].Crewed()) ==> dungeons[id].Crewed())
      requires forall c :: c in old(Characters()) && c !in old(dungeons[id].players).Values ==> unchanged(c)
      ensures old(Staffed()) ==> Staffed()
    {
      hide DungeonInstance.Crewed, Characters;
      if old(Staffed()) {
        forall other | other in dungeons
          ensures dungeons[other].players.Values <= Characters() && dungeons[other].Crewed()
        {
          CharactersHeld(other);
          if other != id {
            OldCharacters(other);
            assert old(dungeons[other].Crewed());
            dungeons[other].FewerCrewed();
          }
        }
      }
    }

    /** The objects of one dungeon are in order, and among those of all. */
    lemma InOrderAt(id: DungeonId)
      requires Housed() && Equipped() && Staffed() && id in dungeons
      ensures Ready(dungeons[id])
      ensures dungeons[id].players.Values <= Characters() && dungeons[id].rooms.Values <= Rooms()
    {
      hide SeatIndex.Indexed, DungeonInstance.Labelled;
      Apart(id);
    }

    /** Dungeons share neither rooms nor characters. */
    lemma NothingShared(id: DungeonId)
      requires Equipped() && Staffed() && Housed() && id in dungeons
      ensures forall other :: other in dungeons && other != id ==>
        && dungeons[other] != dungeons[id]
        && dungeons[other].players.Values !! dungeons[id].players.Values
        && dungeons[other].rooms.Values !! dungeons[id].rooms.Values
    {
      hide DungeonInstance.Crewed, DungeonInstance.Furnished, Characters, Rooms, DungeonInstance.Indexed;
    }

    /** The characters of one dungeon have been at work, and nobody has got another label. */
    twostate lemma OneCrewWorked(id: DungeonId)
      requires dungeons == old(dungeons) && id in dungeons && dungeons[id].Manned()
      requires forall other :: other in dungeons ==> dungeons[other].players == old(dungeons[other].players)
      requires forall c :: c in old(Characters()) ==> c.sessionId == old(c.sessionId)
      requires forall c :: c in old(Characters()) && c !in dungeons[id].players.Values ==> unchanged(c)
      ensures old(Staffed()) ==> Staffed()
    {
      hide DungeonInstance.Manned, DungeonInstance.Labelled;
      if old(Staffed()) {
        OldCharacters(id);
        StillLabelled(id);
        OneRecrewed(id);
      }
    }

    twostate lemma StillLabelled(id: DungeonId)
      requires dungeons == old(dungeons) && id in dungeons && dungeons[id].players == old(dungeons[id].players)
      requires forall c :: c in dungeons[id].players.Values ==> c.sessionId == old(c.sessionId)
      ensures old(dungeons[id].Labelled()) ==> dungeons[id].Labelled()
      ensures dungeons[id].NobodyNew()
    {
    }

    /** The rooms of one dungeon have been at work. */
    twostate lemma OneRoomsetWorked(id: DungeonId)
      requires dungeons == old(dungeons) && id in dungeons && dungeons[id].Furnished()
      requires forall r :: r in old(Rooms()) && r !in dungeons[id].rooms.Values ==> unchanged(r)
      ensures old(Equipped()) ==> Equipped()
    {
      hide RoomState.Valid, Rooms;
      if old(Equipped()) {
        forall other | other in dungeons
          ensures dungeons[other].rooms.Values <= Rooms() && dungeons[other].Furnished()
        {
          RoomsHeld(other);
          OldRooms(other);
          assert old(dungeons[other].Furnished());
          forall room | room in dungeons[other].rooms
            ensures dungeons[other].rooms[room].Valid()
          {
            var r := dungeons[other].rooms[room];
            assert old(r.Valid());
            if r in dungeons[id].rooms.Values {
              var own :| own in dungeons[id].rooms && dungeons[id].rooms[own] == r;
              assert dungeons[id].rooms[own].Valid();
            } else {
              assert unchanged(r);
            }
          }
        }
      }
    }

    /** A new dungeon brings its own characters. */
    twostate lemma MoreStaffed(id: DungeonId, new dungeon: DungeonInstance)
      requires id !in old(dungeons) && dungeons == old(dungeons)[id := dungeon] && dungeon.Crewed()
      requires forall other :: other in old(dungeons) ==> dungeons[other].players == old(dungeons[other].players)
      requires forall c :: c in dungeon.players.Values ==> fresh(c)
      requires forall c :: c in old(Characters()) ==> unchanged(c)
      ensures old(Staffed()) ==> Staffed()
    {
      hide DungeonInstance.Crewed, Characters;
      if old(Staffed()) {
        forall other | other in dungeons
          ensures dungeons[other].players.Values <= Characters() && dungeons[other].Crewed()
          ensures other != id ==> dungeons[other].players.Values <= old(Characters())
        {
          CharactersHeld(other);
          if other != id {
            OldCharacters(other);
            assert old(dungeons[other].Crewed());
            dungeons[other].FewerCrewed();
          }
        }
      }
    }

    /** A new dungeon brings its own rooms. */
    twostate lemma MoreEquipped(id: DungeonId, new dungeon: DungeonInstance)
      requires id !in old(dungeons) && dungeons == old(dungeons)[id := dungeon] && dungeon.Furnished()
      requires fresh(dungeon.rooms.Values)
      requires forall r :: r in old(Rooms()) ==> unchanged(r)
      ensures old(Equipped()) ==> Equipped()
    {
      hide Rooms, DungeonInstance.Furnished, RoomsApart;
      if old(Equipped()) {
        StillApart(id, dungeon);
        forall other | other in dungeons
          ensures dungeons[other].rooms.Values <= Rooms() && dungeons[other].Furnished()
        {
          RoomsHeld(other);
          if other != id {
            OldRooms(other);
            forall room | room in dungeons[other].rooms
              ensures unchanged(dungeons[other].rooms[room])
            {
              assert dungeons[other].rooms[room] in old(Rooms());
            }
            StillFurnished(dungeons[other]);
          }
        }
      }
    }

    twostate lemma StillApart(id: DungeonId, new dungeon: DungeonInstance)
      requires id !in old(dungeons) && dungeons == old(dungeons)[id := dungeon] && fresh(dungeon.rooms.Values)
      ensures old(RoomsApart()) ==> RoomsApart()
    {
    }

    lemma RoomsHeld(id: DungeonId)
      requires id in dungeons
      ensures dungeons[id].rooms.Values <= Rooms()
    {
    }

    twostate lemma StillFurnished(dungeon: DungeonInstance)
      requires old(dungeon.Furnished()) && dungeon in dungeons.Values
      requires forall room :: room in dungeon.rooms ==> unchanged(dungeon.rooms[room])
      ensures dungeon.rooms.Values <= Rooms() && dungeon.Furnished()
    {
      hide RoomState.Valid;
    }

    lemma Apart(id: DungeonId)
      requires Housed() && id in dungeons
      ensures dungeons[id].Indexed()
      ensures forall other :: other in dungeons && other != id ==> dungeons[other] != dungeons[id]
    {
    }

    twostate lemma SameCharacters(id: DungeonId)
      requires dungeons == old(dungeons) && id in dungeons
      requires forall other :: other in dungeons && other != id ==> dungeons[other].players == old(dungeons[other].players)
      requires dungeons[id].players.Values <= old(dungeons[id].players).Values
      ensures Characters() <= old(Characters())
    {
    }

    /** Rooms that have not changed are in order as before. */
    twostate lemma RoomsUntouched()
      requires dungeons == old(dungeons)
      requires forall r :: r in Rooms() ==> unchanged(r)
      ensures old(Equipped()) ==> Equipped()
    {
      hide Rooms;
      assert Rooms() == old(Rooms());
      FewerEquipped();
    }

    static twostate lemma SameContainers(dungeon: DungeonInstance)
      requires dungeon.Containers() == old(dungeon.Containers())
      ensures dungeon.Seats() == old(dungeon.Seats())
    {
    }

    /** When one dungeon object has changed and been erased, the others are seen as before. */
    twostate lemma OneErased(id: DungeonId)
      requires old(Housed()) && dungeons == old(dungeons) - {id}
      requires forall other :: other in dungeons ==> unchanged(dungeons[other])
      ensures Housed()
      ensures View().dungeons == old(View()).dungeons - {id}
    {
      hide SeatIndex.Indexed, DungeonInstance.Seats;
      forall other | other in dungeons
        ensures dungeons[other].Indexed()
      {
        assert old(dungeons[other].Indexed());
      }
    }

    /** When only one dungeon object has changed, the view differs at its id only. */
    twostate lemma OneChanged(id: DungeonId)
      requires old(Housed()) && dungeons == old(dungeons) && id in dungeons
      requires forall other :: other in dungeons && other != id ==> unchanged(dungeons[other])
      requires dungeons[id].Indexed()
      ensures Housed()
      ensures View().dungeons == old(View()).dungeons[id := ViewOf(dungeons[id])]
    {
      hide SeatIndex.Indexed, DungeonInstance.Seats;
      forall other | other in dungeons
        ensures dungeons[other].Indexed()
      {
        assert old(dungeons[other].Indexed());
      }
    }

    /** When one dungeon object has been added, the others are seen as before. */
    twostate lemma OneAdded(id: DungeonId, new dungeon: DungeonInstance)
      requires old(Housed()) && id !in old(dungeons) && dungeons == old(dungeons)[id := dungeon]
      requires dungeon !in old(dungeons).Values && dungeon.dungeonId == id && dungeon.Indexed()
      requires forall other :: other in old(dungeons) ==> unchanged(old(dungeons)[other])
      ensures Housed()
    {
      hide SeatIndex.Indexed;
      forall other | other in old(dungeons)
        ensures dungeons[other].Indexed() && dungeons[other] != dungeon
      {
        assert old(dungeons[other].Indexed());
        assert old(dungeons)[other] in old(dungeons).Values;
      }
    }

    twostate lemma OneAddedView(id: DungeonId, new dungeon: DungeonInstance)
      requires id !in old(dungeons) && dungeons == old(dungeons)[id := dungeon]
      requires forall other :: other in old(dungeons) ==> unchanged(old(dungeons)[other])
      ensures View().dungeons == old(View()).dungeons[id := ViewOf(dungeon)]
    {
      hide DungeonInstance.Seats;
      forall other | other in old(dungeons)
        ensures ViewOf(dungeons[other]) == old(ViewOf(dungeons[other]))
      {
      }
    }

    // -------------------------------------------------------------- creation, start, end

    method CreateDungeon(partyId: PartyId, templateId: DungeonTemplateId, now: Time) returns (result: CreateDungeonResult)
      requires Valid() && partyManager.Valid()
      modifies this`nextDungeonId, this`dungeons, this`partyDungeons
      ensures Valid()
      ensures result ==
        if stopping then ServerStopping
        else if partyId !in partyManager.parties then NoSuchParty
        else if templateId !in dungeonCatalog then NoSuchTemplate
        else if partyId in old(partyDungeons) then PartyAlreadyInDungeon
        else Created(old(nextDungeonId))
      ensures !result.Created? ==> View() == old(View()) && dungeons == old(dungeons)
      ensures result.Created? ==>
        && result.dungeonId in dungeons && dungeons == old(dungeons)[result.dungeonId := dungeons[result.dungeonId]]
        && fresh(dungeons[result.dungeonId]) && dungeons[result.dungeonId].dungeonTemplate == dungeonCatalog[templateId]
        && FreshRoster(old(View()), partyManager.parties[partyId].members, dungeons[result.dungeonId].Seats())
        && View() == Opened(old(View()), partyId, now, dungeons[result.dungeonId].Seats())
        && OpenedExactly(old(View()), View(), partyId, now, partyManager.parties[partyId].members)
      ensures (old(Equipped()) ==> Equipped()) && (old(Staffed()) ==> Staffed())
    {
      hide Equipped, Staffed, Sound, Housed, Dungeons, Opened, FreshRoster, TemplateAccepted, OpenedExactly;
      if stopping {
        return ServerStopping;
      }
      var party := FindParty(partyId);
      if party.None? {
        return NoSuchParty;
      }
      if templateId !in dungeonCatalog {
        return NoSuchTemplate;
      }
      if partyId in partyDungeons {
        return PartyAlreadyInDungeon;
      }
      result := Created(nextDungeonId);
      OpenDungeon(partyId, dungeonCatalog[templateId], party.value.members, now);
      CreationMeans(old(View()), partyId, now, party.value.members, dungeons[result.dungeonId].Seats());
    }

    method FindParty(partyId: PartyId) returns (party: Option<PartyInfo>)
      requires Valid() && partyManager.Valid()
      ensures Valid() && View() == old(View()) && party == Lookup(partyManager.parties, partyId)
      ensures party.Some? ==> GoodParty(party.value)
      ensures (old(Equipped()) ==> Equipped()) && (old(Staffed()) ==> Staffed())
    {
      hide Equipped, Staffed, Sound, Dungeons;
      party := partyManager.GetParty(partyId);
      FewerEquipped();
      LeftStaffed();
    }

    method OpenDungeon(partyId: PartyId, dungeonTemplate: DungeonTemplate, members: seq<SessionId>, now: Time)
      requires Valid() && Creatable(View(), partyId) && partyId != 0
      requires ParticipantsAccepted(members) && TemplateAccepted(dungeonTemplate, enemyCatalog)
      modifies this`nextDungeonId, this`dungeons, this`partyDungeons
      ensures Valid() && old(nextDungeonId) in dungeons
      ensures dungeons == old(dungeons)[old(nextDungeonId) := dungeons[old(nextDungeonId)]]
      ensures fresh(dungeons[old(nextDungeonId)]) && dungeons[old(nextDungeonId)].dungeonTemplate == dungeonTemplate
      ensures FreshRoster(old(View()), members, dungeons[old(nextDungeonId)].Seats())
      ensures View() == Opened(old(View()), partyId, now, dungeons[old(nextDungeonId)].Seats())
      ensures (old(Equipped()) ==> Equipped()) && (old(Staffed()) ==> Staffed())
    {
      hide Equipped, Staffed, DungeonInstance.Crewed, DungeonInstance.Furnished, Sound, LoginsInverse, FreshRoster;
      hide TemplateAccepted, Housed, Dungeons, Catalogued, DungeonInstance.Seats;
      hide DungeonInstance.Indexed, ParticipantsAccepted;
      NextIsNew(View());
      HeldIds();
      SomeMember(members);
      var dungeonId := nextDungeonId;
      var dungeon := MakeDungeon(dungeonId, dungeonTemplate, partyId, members, now);
      OpenedIsSound(View(), partyId, now, members, dungeon.Seats());
      nextDungeonId := nextDungeonId + 1;
      AddDungeon(partyId, dungeonId, dungeon);
      MoreEquipped(dungeonId, dungeon);
      MoreStaffed(dungeonId, dungeon);
    }

    static lemma SomeMember(members: seq<SessionId>)
      requires ParticipantsAccepted(members)
      ensures members != []
    {
    }

    method MakeDungeon(
      dungeonId: DungeonId, dungeonTemplate: DungeonTemplate, partyId: PartyId, members: seq<SessionId>, now: Time)
      returns (dungeon: DungeonInstance)
      requires dungeonId != 0 && partyId != 0 && LoginsInverse(authenticatedPlayers, activePlayerSessions)
      requires ParticipantsAccepted(members) && TemplateAccepted(dungeonTemplate, enemyCatalog)
      ensures fresh(dungeon) && dungeon.dungeonId == dungeonId && dungeon.dungeonTemplate == dungeonTemplate
      ensures dungeon.Crewed() && forall c :: c in dungeon.players.Values ==> fresh(c)
      ensures fresh(dungeon.rooms.Values)
      ensures dungeon.Indexed() && dungeon.Furnished() && FreshRoster(View(), members, dungeon.Seats())
      ensures ViewOf(dungeon) == Dungeon(partyId, now, Waiting, dungeon.Seats())
    {
      hide LoginsInverse, FreshRoster, TemplateAccepted, Dungeons, DungeonInstance.Seats, DungeonInstance.Indexed;
      hide DungeonInstance.Labelled, DungeonInstance.Furnished, DungeonInstance.Manned, ParticipantsAccepted;
      dungeon := new DungeonInstance(dungeonId, dungeonTemplate, partyId, members, enemyCatalog, now);
      BindMembers(dungeon, members);
    }

    method AddDungeon(partyId: PartyId, dungeonId: DungeonId, dungeon: DungeonInstance)
      requires Housed() && dungeonId !in dungeons && dungeon !in dungeons.Values
      requires dungeon.dungeonId == dungeonId && dungeon.Indexed()
      modifies this`dungeons, this`partyDungeons
      ensures Housed() && dungeons == old(dungeons)[dungeonId := dungeon]
      ensures View() == old(View()).(
        dungeons := old(View()).dungeons[dungeonId := ViewOf(dungeon)],
        partyDungeons := old(partyDungeons)[partyId := dungeonId])
    {
      dungeons := dungeons[dungeonId := dungeon];
      partyDungeons := partyDungeons[partyId := dungeonId];
      OneAdded(dungeonId, dungeon);
      OneAddedView(dungeonId, dungeon);
    }

    /** Binds the members who are logged in; nobody is logged in twice, so every bind succeeds. */
    method BindMembers(dungeon: DungeonInstance, members: seq<SessionId>)
      requires dungeon.Indexed() && dungeon.Seats().order == members
      requires forall s :: s in dungeon.Seats().seats ==>
        dungeon.Seats().seats[s].player.None? && dungeon.Seats().seats[s].since.None?
      requires LoginsInverse(authenticatedPlayers, activePlayerSessions)
      modifies dungeon`participantPlayerIds, dungeon`playerSessions
      ensures dungeon.Indexed() && FreshRoster(View(), members, dungeon.Seats())
    {
      hide SeatIndex.Indexed, LoginsInverse, LoggedInSeats, FreshRoster, WellSeated, Bound, CanBind, Dungeons;
      SeatIndex.IndexedMeansWellSeated(dungeon.Containers());
      ghost var empty := dungeon.Seats();
      NobodyBound(empty, authenticatedPlayers);
      var i := 0;
      while i < |members|
        invariant 0 <= i <= |members|
        invariant dungeon.Indexed() && dungeon.Seats() == LoggedInSeats(empty, members[..i], authenticatedPlayers)
      {
        var s := members[i];
        LoggedInSeatsNext(empty, members, i, authenticatedPlayers, activePlayerSessions);
        if s in authenticatedPlayers {
          var bound := dungeon.BindParticipantPlayer(s, authenticatedPlayers[s]);
        }
        i := i + 1;
      }
      assert members[..i] == members;
      SeatIndex.IndexedMeansWellSeated(dungeon.Containers());
      EverybodyBound(View(), empty, members);
    }

    static lemma NobodyBound(r: Roster, authenticated: map<SessionId, PlayerId>)
      ensures LoggedInSeats(r, [], authenticated) == r
    {
    }

    static lemma EverybodyBound(m: Registry, r: Roster, members: seq<SessionId>)
      requires r.order == members && WellSeated(LoggedInSeats(r, members, m.authenticated))
      requires forall s :: s in r.seats ==> r.seats[s].since.None?
      ensures FreshRoster(m, members, LoggedInSeats(r, members, m.authenticated))
    {
    }

    /** Empty seats, with the players bound who are logged in and among `bound`. */
    static ghost function LoggedInSeats(r: Roster, bound: seq<SessionId>, authenticated: map<SessionId, PlayerId>): Roster {
      r.(seats := map s | s in r.seats ::
        if s in bound then r.seats[s].(player := Lookup(authenticated, s)) else r.seats[s])
    }

    static lemma LoggedInSeatsNext(
      r: Roster, members: seq<SessionId>, i: nat, authenticated: map<SessionId, PlayerId>, active: map<PlayerId, SessionId>)
      requires WellSeated(r) && r.order == members && i < |members| && LoginsInverse(authenticated, active)
      requires forall s :: s in r.seats ==> r.seats[s].player.None?
      ensures
        var before := LoggedInSeats(r, members[..i], authenticated);
        LoggedInSeats(r, members[..i + 1], authenticated) ==
          if members[i] in authenticated then Bound(before, members[i], authenticated[members[i]]) else before
    {
      hide WellSeated, LoginsInverse, CanBind, Bound, LoggedInSeats;
      NextMember(r, members, i);
      assert members[..i + 1] == members[..i] + [members[i]];
      if members[i] in authenticated {
        PlayerIsNew(r, members[..i], members[i], authenticated, active);
        OneMoreBound(r, members[..i], members[i], authenticated);
      } else {
        NoneMoreBound(r, members[..i], members[i], authenticated);
      }
    }

    static lemma NextMember(r: Roster, members: seq<SessionId>, i: nat)
      requires WellSeated(r) && r.order == members && i < |members|
      ensures members[i] in r.seats && members[i] !in members[..i]
    {
    }

    /** Nobody seated so far has the player of a session that is logged in. */
    static lemma PlayerIsNew(
      r: Roster, earlier: seq<SessionId>, s: SessionId, authenticated: map<SessionId, PlayerId>,
      active: map<PlayerId, SessionId>)
      requires LoginsInverse(authenticated, active) && s in authenticated && s in r.seats && s !in earlier
      requires forall t :: t in r.seats ==> r.seats[t].player.None?
      ensures CanBind(LoggedInSeats(r, earlier, authenticated), s, authenticated[s])
    {
    }

    static lemma OneMoreBound(r: Roster, earlier: seq<SessionId>, s: SessionId, authenticated: map<SessionId, PlayerId>)
      requires s in authenticated && s in r.seats && s !in earlier
      requires CanBind(LoggedInSeats(r, earlier, authenticated), s, authenticated[s])
      ensures LoggedInSeats(r, earlier + [s], authenticated) ==
        Bound(LoggedInSeats(r, earlier, authenticated), s, authenticated[s])
    {
      hide CanBind;
      assert LoggedInSeats(r, earlier + [s], authenticated).seats ==
        Bound(LoggedInSeats(r, earlier, authenticated), s, authenticated[s]).seats;
    }

    static lemma NoneMoreBound(r: Roster, earlier: seq<SessionId>, s: SessionId, authenticated: map<SessionId, PlayerId>)
      requires s !in authenticated && s in r.seats && s !in earlier && r.seats[s].player.None?
      ensures LoggedInSeats(r, earlier + [s], authenticated) == LoggedInSeats(r, earlier, authenticated)
    {
      assert LoggedInSeats(r, earlier + [s], authenticated).seats == LoggedInSeats(r, earlier, authenticated).seats;
    }

    /** A started dungeon's first room gets its first wave; no other room changes. */
    method StartDungeon(dungeonId: DungeonId) returns (started: bool)
      requires Valid() && Equipped()
      modifies dungeons.Values`state, Rooms()`currentWave, Rooms()`enemies
      ensures Valid() && Equipped() && (started <==> Cancellable(old(View()), dungeonId))
      ensures started <==> dungeonId in dungeons && old(dungeons[dungeonId].state).Waiting?
      ensures started ==> dungeons[dungeonId].state.Running?
      ensures View() == if started then WithState(old(View()), dungeonId, Running) else old(View())
      ensures dungeons == old(dungeons) && (started ==> dungeonId in dungeons && FirstWave(dungeons[dungeonId]))
      ensures forall r :: r in Rooms() && !(started && r in dungeons[dungeonId].rooms.Values) ==> unchanged(r)
      ensures old(Staffed()) ==> Staffed()
    {
      hide Staffed, Sound, LoginsInverse, FirstWave, Equipped, Housed;
      Held(dungeonId);
      if dungeonId !in dungeons {
        return false;
      }
      started := StartIn(dungeonId, dungeons[dungeonId]);
      if started {
        WithStateIsSound(old(View()), dungeonId, Running);
      }
    }

    /** The first room of a dungeon has got its next wave, the others are as they were. */
    twostate predicate FirstWave(dungeon: DungeonInstance)
      reads dungeon.rooms.Values
    {
      && old(dungeon.Furnished()) && dungeon.Furnished()
      && dungeon.FirstRoom().Progress() == old(Advanced(dungeon.FirstRoom()).0)
      && forall r :: r in dungeon.rooms.Values && r != dungeon.FirstRoom() ==> unchanged(r)
    }

    method StartIn(id: DungeonId, dungeon: DungeonInstance) returns (started: bool)
      requires Housed() && Equipped() && id in dungeons && dungeon == dungeons[id]
      modifies dungeon`state, dungeon.rooms.Values`currentWave, dungeon.rooms.Values`enemies
      ensures Housed() && Equipped()
      ensures started <==> old(View()).dungeons[id].state.Waiting?
      ensures if started then FirstWave(dungeon) else forall r :: r in dungeon.rooms.Values ==> unchanged(r)
      ensures View() == if started then WithState(old(View()), id, Running) else old(View())
      ensures old(Staffed()) ==> Staffed()
    {
      hide Equipped, Staffed, Housed, Dungeons, SeatIndex.Indexed, DungeonInstance.Seats, FirstWave;
      Held(id);
      Apart(id);
      started := StartRooms(id, dungeon);
      OneChanged(id);
      LeftStaffed();
    }

    method StartRooms(id: DungeonId, dungeon: DungeonInstance) returns (started: bool)
      requires Equipped() && id in dungeons && dungeon == dungeons[id]
      modifies dungeon`state, dungeon.rooms.Values`currentWave, dungeon.rooms.Values`enemies
      ensures if started then FirstWave(dungeon) else forall r :: r in dungeon.rooms.Values ==> unchanged(r)
      ensures Equipped() && (started <==> old(dungeon.state).Waiting?)
      ensures dungeon.state == if started then Running else old(dungeon.state)
    {
      hide RoomState.Valid, Started;
      assert dungeon.Furnished();
      started := dungeon.Start();
      OneRoomsetWorked(id);
    }

    method CancelDungeon(dungeonId: DungeonId) returns (cancelled: bool)
      requires Valid()
      modifies this`dungeons, this`partyDungeons
      ensures Valid()
      ensures (old(Equipped()) ==> Equipped()) && (old(Staffed()) ==> Staffed())
      ensures cancelled <==> Cancellable(old(View()), dungeonId)
      ensures cancelled <==> dungeonId in old(dungeons) && old(dungeons[dungeonId].state).Waiting?
      ensures partyDungeons ==
        if cancelled then old(partyDungeons) - {old(dungeons[dungeonId].partyId)} else old(partyDungeons)
      ensures dungeons == if cancelled then old(dungeons) - {dungeonId} else old(dungeons)
      ensures View() == if cancelled then Closed(old(View()), dungeonId) else old(View())
    {
      hide Sound, Housed, Dungeons, Equipped, Staffed;
      Held(dungeonId);
      if dungeonId !in dungeons || !dungeons[dungeonId].state.Waiting? {
        return false;
      }
      ClosedIsSound(View(), dungeonId);
      Erase(dungeonId);
      LeftStaffed();
      cancelled := true;
    }

    method FinishDungeon(dungeonId: DungeonId) returns (finished: bool)
      requires Valid()
      modifies this`dungeons, this`partyDungeons, dungeons.Values`state
      ensures Valid()
      ensures (old(Equipped()) ==> Equipped()) && (old(Staffed()) ==> Staffed())
      ensures finished <==> Finishable(old(View()), dungeonId)
      ensures finished <==> dungeonId in old(dungeons) && !old(dungeons[dungeonId].state).Waiting?
      ensures partyDungeons ==
        if finished then old(partyDungeons) - {old(dungeons[dungeonId].partyId)} else old(partyDungeons)
      ensures dungeons == if finished then old(dungeons) - {dungeonId} else old(dungeons)
      ensures View() == if finished then Closed(old(View()), dungeonId) else old(View())
    {
      hide Sound, Housed, Dungeons, Equipped, Staffed;
      Held(dungeonId);
      if dungeonId !in dungeons {
        return false;
      }
      if dungeons[dungeonId].state.Running? {
        FinishIn(dungeonId, dungeons[dungeonId]);
      }
      Held(dungeonId);
      if !dungeons[dungeonId].state.Finished? {
        FewerEquipped();
        LeftStaffed();
        return false;
      }
      ClosedForgetsState(old(View()), dungeonId, Finished);
      ClosedIsSound(old(View()), dungeonId);
      Erase(dungeonId);
      FewerEquipped();
      LeftStaffed();
      finished := true;
    }

    method FinishIn(id: DungeonId, dungeon: DungeonInstance)
      requires Housed() && id in dungeons && dungeon == dungeons[id] && dungeon.state.Running?
      requires id in View().dungeons
      modifies dungeon`state
      ensures Housed() && View() == WithState(old(View()), id, Finished)
    {
      var finished := dungeon.Finish();
      OneChanged(id);
    }

    method Stop()
      requires Valid()
      modifies this
      ensures Valid() && View() == Stopped(old(View()))
      ensures stopping && nextDungeonId == old(nextDungeonId)
      ensures dungeons == map[] && authenticatedPlayers == map[]
      ensures !old(stopping) ==> partyDungeons == map[] && activePlayerSessions == map[]
    {
      if stopping {
        return;
      }
      StoppedIsSound(View());
      stopping := true;
      partyDungeons, authenticatedPlayers, activePlayerSessions, dungeons := map[], map[], map[], map[];
    }

    // -------------------------------------------------------------- queries

    /** The lookup by party never misses: the table and the dungeons are inverse. */
    method FindDungeonByParty(partyId: PartyId) returns (dungeon: Option<DungeonInstance>)
      requires Valid()
      ensures dungeon.Some? <==> exists id :: id in View().dungeons && View().dungeons[id].party == partyId
      ensures dungeon.Some? ==> dungeon.value in dungeons.Values && dungeon.value.partyId == partyId
    {
      if partyId !in partyDungeons {
        return None;
      }
      assert View().dungeons[partyDungeons[partyId]].party == partyId;
      dungeon := Some(dungeons[partyDungeons[partyId]]);
    }

    /** Those of some dungeons that are in a state. */
    ghost function IdsIn(ids: set<DungeonId>, state: DungeonState): set<DungeonId>
      reads this`dungeons, dungeons.Values
    {
      set id | id in ids && id in dungeons && dungeons[id].state == state
    }

    lemma IdsInOneMore(ids: set<DungeonId>, id: DungeonId, state: DungeonState)
      requires id in dungeons && id !in ids
      ensures id !in IdsIn(ids, state)
      ensures IdsIn(ids + {id}, state) == IdsIn(ids, state) + if dungeons[id].state == state then {id} else {}
    {
    }

    /** WaitingDungeonIds, RunningDungeonIds and FinishedDungeonIds. */
    method DungeonIdsIn(state: DungeonState) returns (ids: seq<DungeonId>)
      ensures ListsOnce(ids, IdsIn(dungeons.Keys, state))
    {
      hide IdsIn, ListsOnce, Walk;
      ids := [];
      var rest := dungeons.Keys;
      ghost var done: set<DungeonId> := {};
      assert IdsIn(done, state) == {} by { NoIdsIn(state); }
      ListNothing<DungeonId>();
      WalkBegins(rest);
      while rest != {}
        invariant Walk(dungeons.Keys, done, rest) && ListsOnce(ids, IdsIn(done, state))
        decreases |rest|
      {
        var id :| id in rest;
        WalkOn(dungeons.Keys, done, rest, id);
        IdsInOneMore(done, id, state);
        ListMaybe(ids, IdsIn(done, state), id, dungeons[id].state == state);
        ids := ids + if dungeons[id].state == state then [id] else [];
        rest := rest - {id};
        done := done + {id};
      }
      WalkEnds(dungeons.Keys, done, rest);
    }

    lemma NoIdsIn(state: DungeonState)
      ensures IdsIn({}, state) == {}
    {
    }
  }
}
