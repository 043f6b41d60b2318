/** The tick service of src/DungeonTickService.cpp: its deadlines, its sweep, and its passes over
    the dungeons that wait to be started, those that run, and those that are finished. */
module DungeonTickServices {
  import opened Common
  import opened SeatTable
  import SeatIndex
  import opened DungeonInstances
  import opened DungeonRegistry
  import opened DungeonManagers
  import opened UdpSession
  import opened DungeonUdpManagers
  import opened LifecycleRuns
  import opened DungeonLifecycleServices
  import TickClock
  import opened StartGate
  import opened RunningPass
  import opened TickBooks
  import opened DungeonMovementProcessors
  import opened DungeonCombatProcessors
  import opened DungeonTurns

  lemma StartRun(w: World, id: DungeonId, now: Time)
    requires Invariant(w) && Cancellable(w.registry, id) && !SomebodyGone(w.registry.dungeons[id])
    requires EndpointsComplete(w, id) && w == AtRest(w.registry, w.udp, w.registered, w.absent)
    ensures id in w.registry.dungeons && Invariant(StartedWorld(w, id, now))
    ensures After(w, StartSteps(id, now)) == Some(StartedWorld(w, id, now))
    ensures StartedWorld(w, id, now) ==
      AtRest(WithState(w.registry, id, Running), Carried(w.udp, id, Refresh(now)), w.registered, w.absent)
  {
    hide Invariant, WithState, Handled, SomebodyGone, EndpointsComplete, Carried, Enabled, Next, After;
    ChecksPass(w, id);
    StartIs(w, id, now);
    AfterOne(w, SeePresent(id));
    AfterOneMore(w, [SeePresent(id)], SeeReady(id));
    AfterOneMore(w, [SeePresent(id)] + [SeeReady(id)], Start(id));
    AfterOneMore(w, [SeePresent(id)] + [SeeReady(id)] + [Start(id)], Datagram(id, Refresh(now)));
    assert [SeePresent(id)] + [SeeReady(id)] + [Start(id)] + [Datagram(id, Refresh(now))] == StartSteps(id, now);
    StepsKeep(w, StartSteps(id, now));
  }

  lemma ChecksPass(w: World, id: DungeonId)
    requires Cancellable(w.registry, id) && !SomebodyGone(w.registry.dungeons[id]) && EndpointsComplete(w, id)
    ensures Enabled(w, SeePresent(id)) && Enabled(Next(w, SeePresent(id)), SeeReady(id))
    ensures Next(Next(w, SeePresent(id)), SeeReady(id)) == w.(judging := w.judging[id := Judging(true)])
  {
    hide SomebodyGone;
    assert w.judging[id := Judging(false)][id := Judging(true)] == w.judging[id := Judging(true)];
  }

  lemma StartIs(w: World, id: DungeonId, now: Time)
    requires Cancellable(w.registry, id) && EndpointsComplete(w, id) && w.judging == map[]
    ensures
      var judged := w.(judging := w.judging[id := Judging(true)]);
      && Enabled(judged, Start(id)) && Enabled(Next(judged, Start(id)), Datagram(id, Refresh(now)))
      && Next(Next(judged, Start(id)), Datagram(id, Refresh(now))) == StartedWorld(w, id, now)
  {
    hide WithState, Handled;
    assert w.judging[id := Judging(true)] - {id} == w.judging;
  }

  /** The two checks of a tick, and the start they lead to. */
  ghost function StartSteps(id: DungeonId, now: Time): seq<Event> {
    [SeePresent(id), SeeReady(id), Start(id), Datagram(id, Refresh(now))]
  }

  /** How the wait for the next deadline ended. */
  datatype TimerResult = Elapsed | Aborted | Failed

  class DungeonTickService {
    const lifecycle: DungeonLifecycleService
    const movement: DungeonMovementProcessor
    const combat: DungeonCombatProcessor
    const udpIdleTimeout: Time
    const readyTimeout: Time
    const reconnectGrace: Time
    const maxDungeonLifetime: Time
    var running: bool
    var nextTick: Time
    var processedTickCount: nat
    var missedTickCount: nat
    var waitingSince: map<DungeonId, Time>
    var finishedSince: map<DungeonId, Time>

    ghost function Clock(): TickClock.Clock
      reads this`nextTick, this`processedTickCount, this`missedTickCount
    {
      TickClock.Clock(nextTick, processedTickCount, missedTickCount)
    }

    ghost function View(): Gate
      reads this`waitingSince, lifecycle, lifecycle.dungeonManager, lifecycle.dungeonManager.dungeons.Values,
        lifecycle.udpManager, lifecycle.udpManager.sessions.Values
    {
      Gate(lifecycle.View(), waitingSince)
    }

    /** The finished dungeons and since when they have been shown. */
    ghost function Fading(): Gate
      reads this`finishedSince, lifecycle, lifecycle.dungeonManager, lifecycle.dungeonManager.dungeons.Values,
        lifecycle.udpManager, lifecycle.udpManager.sessions.Values
    {
      Gate(lifecycle.View(), finishedSince)
    }

    /** All dungeons, seen from inside. */
    ghost function Insides(): map<DungeonId, Interior>
      reads combat`pendingHits, lifecycle.dungeonManager`dungeons, lifecycle.dungeonManager.dungeons.Values`players,
        lifecycle.dungeonManager.Characters(), lifecycle.dungeonManager.Rooms()
    {
      Interiors(lifecycle.dungeonManager, combat.pendingHits)
    }

    ghost function Ledger(): Books
      reads this`waitingSince, this`finishedSince, lifecycle, lifecycle.dungeonManager,
        lifecycle.dungeonManager.dungeons.Values, lifecycle.udpManager, lifecycle.udpManager.sessions.Values
    {
      Books(lifecycle.View(), waitingSince, finishedSince)
    }

    constructor (
      lifecycle: DungeonLifecycleService, movement: DungeonMovementProcessor, combat: DungeonCombatProcessor,
      readyTimeout: Time, udpIdleTimeout: Time, reconnectGrace: Time, maxDungeonLifetime: Time)
      requires readyTimeout > 0 && udpIdleTimeout > 0 && reconnectGrace > 0 && maxDungeonLifetime > 0
      requires movement.udpManager == lifecycle.udpManager && combat.udpManager == lifecycle.udpManager
      ensures Configured() && this.lifecycle == lifecycle && this.movement == movement && this.combat == combat
      ensures this.readyTimeout == readyTimeout && this.udpIdleTimeout == udpIdleTimeout
      ensures this.reconnectGrace == reconnectGrace && this.maxDungeonLifetime == maxDungeonLifetime
      ensures waitingSince == finishedSince == map[] && processedTickCount == missedTickCount == 0 && !running
    {
      running := false;
      this.lifecycle, this.movement, this.combat := lifecycle, movement, combat;
      this.readyTimeout, this.udpIdleTimeout := readyTimeout, udpIdleTimeout;
      this.reconnectGrace, this.maxDungeonLifetime := reconnectGrace, maxDungeonLifetime;
      nextTick, processedTickCount, missedTickCount, waitingSince, finishedSince := 0, 0, 0, map[], map[];
    }

    /** A start sets the first deadline; the counters of earlier starts go on. A second start does
        nothing. */
    method Start(now: Time)
      modifies this`running, this`nextTick
      ensures running
      ensures Clock() == if old(running) then old(Clock()) else
        TickClock.Clock(now + TickClock.TICK_INTERVAL, processedTickCount, missedTickCount)
    {
      if running {
        return;
      }
      running := true;
      nextTick := now + TickClock.TICK_INTERVAL;
    }

    /** A stop forgets the times of all dungeons, once. */
    method Stop()
      modifies this`running, this`waitingSince, this`finishedSince
      ensures !running
      ensures waitingSince == (if old(running) then map[] else old(waitingSince))
      ensures finishedSince == (if old(running) then map[] else old(finishedSince))
    {
      if !running {
        return;
      }
      running := false;
      waitingSince, finishedSince := map[], map[];
    }

    method AdvanceDeadline(now: Time)
      modifies this`nextTick, this`missedTickCount
      ensures Clock() == TickClock.Advanced(old(Clock()), now)
    {
      nextTick := nextTick + TickClock.TICK_INTERVAL;
      if nextTick > now {
        return;
      }
      var overdueTickCount := (now - nextTick) / TickClock.TICK_INTERVAL + 1;
      if overdueTickCount <= TickClock.MAX_DUNGEON_CATCH_UP_TICKS {
        return;
      }
      var skippedTickCount := overdueTickCount - TickClock.MAX_DUNGEON_CATCH_UP_TICKS;
      nextTick := nextTick + TickClock.TICK_INTERVAL * skippedTickCount;
      missedTickCount := missedTickCount + skippedTickCount;
    }

    /** The frame of a tick: it is counted, and its deadline moves on. */
    method CountTick(now: Time)
      modifies this`nextTick, this`processedTickCount, this`missedTickCount
      ensures Clock() == TickClock.Ticked(old(Clock()), now)
    {
      processedTickCount := processedTickCount + 1;
      AdvanceDeadline(now);
    }

    // -------------------------------------------------------------- the waiting dungeons

    ghost predicate Ready()
      reads lifecycle, lifecycle.dungeonManager, lifecycle.dungeonManager.dungeons.Values, lifecycle.udpManager,
        lifecycle.udpManager.sessions.Values, lifecycle.dungeonManager.Rooms(), lifecycle.dungeonManager.Characters()
    {
      lifecycle.Valid() && lifecycle.dungeonManager.Equipped() && lifecycle.dungeonManager.Staffed() && Configured()
    }

    /** The processors work on the service's own UDP sessions, and every timeout is positive. */
    ghost predicate Configured() {
      && movement.udpManager == lifecycle.udpManager && combat.udpManager == lifecycle.udpManager
      && readyTimeout > 0 && udpIdleTimeout > 0 && reconnectGrace > 0 && maxDungeonLifetime > 0
    }

    /** A complete dungeon starts, and nobody in it counts as idle. */
    method StartDungeon(dungeonId: DungeonId, now: Time)
      requires Ready() && Cancellable(lifecycle.View().registry, dungeonId)
      requires !SomebodyGone(lifecycle.View().registry.dungeons[dungeonId]) && EndpointsComplete(lifecycle.View(), dungeonId)
      modifies lifecycle.dungeonManager.dungeons.Values`state
      modifies lifecycle.dungeonManager.Rooms()`currentWave, lifecycle.dungeonManager.Rooms()`enemies
      modifies lifecycle.udpManager.sessions.Values`lastActivity
      ensures Ready() && lifecycle.View() == StartedWorld(old(lifecycle.View()), dungeonId, now)
      ensures After(old(lifecycle.View()), StartSteps(dungeonId, now)) == Some(lifecycle.View())
    {
      hide Invariant, DungeonManager.Valid, DungeonManager.View, DungeonManager.Equipped, DungeonManager.Staffed;
      hide DungeonUdpManager.Valid, DungeonUdpManager.View, WithState, Carried, StartedWorld;
      hide SomebodyGone, EndpointsComplete, StartSteps, After;
      StartRun(lifecycle.View(), dungeonId, now);
      StartInBoth(dungeonId, now);
    }

    method StartInBoth(dungeonId: DungeonId, now: Time)
      requires lifecycle.dungeonManager.Valid() && lifecycle.udpManager.Valid()
      requires lifecycle.dungeonManager.Equipped() && lifecycle.dungeonManager.Staffed()
      requires Cancellable(lifecycle.dungeonManager.View(), dungeonId)
      modifies lifecycle.dungeonManager.dungeons.Values`state
      modifies lifecycle.dungeonManager.Rooms()`currentWave, lifecycle.dungeonManager.Rooms()`enemies
      modifies lifecycle.udpManager.sessions.Values`lastActivity
      ensures lifecycle.dungeonManager.Valid() && lifecycle.udpManager.Valid()
      ensures lifecycle.dungeonManager.Equipped() && lifecycle.dungeonManager.Staffed()
      ensures lifecycle.dungeonManager.View() == WithState(old(lifecycle.dungeonManager.View()), dungeonId, Running)
      ensures lifecycle.udpManager.View() == Carried(old(lifecycle.udpManager.View()), dungeonId, Refresh(now))
    {
      hide DungeonManager.Valid, DungeonManager.View, DungeonManager.Equipped, DungeonManager.Staffed;
      hide DungeonManager.FirstWave;
      hide DungeonUdpManager.Valid, DungeonUdpManager.View, WithState, Carried;
      var started := lifecycle.dungeonManager.StartDungeon(dungeonId);
      if started {
        RefreshActivity(dungeonId, now);
      }
    }

    /** The UDP side of a start leaves the dungeons alone. */
    method RefreshActivity(dungeonId: DungeonId, now: Time)
      requires lifecycle.dungeonManager.Valid() && lifecycle.udpManager.Valid()
      requires lifecycle.dungeonManager.Equipped() && lifecycle.dungeonManager.Staffed()
      modifies lifecycle.udpManager.sessions.Values`lastActivity
      ensures lifecycle.dungeonManager.Valid() && lifecycle.udpManager.Valid()
      ensures lifecycle.dungeonManager.Equipped() && lifecycle.dungeonManager.Staffed()
      ensures lifecycle.dungeonManager.View() == old(lifecycle.dungeonManager.View())
      ensures lifecycle.udpManager.View() == Carried(old(lifecycle.udpManager.View()), dungeonId, Refresh(now))
    {
      hide DungeonManager.Valid, DungeonManager.View, DungeonManager.Equipped, DungeonManager.Staffed;
      hide DungeonUdpManager.Valid, DungeonUdpManager.View, Carried;
      lifecycle.udpManager.RefreshAllActivity(dungeonId, now);
      lifecycle.dungeonManager.RoomsUntouched();
      lifecycle.dungeonManager.LeftStaffed();
    }

    /** One waiting dungeon: while somebody is gone the ready timeout does not run; a complete
        dungeon starts; one that stays incomplete too long is cancelled. */
    method Consider(dungeonId: DungeonId, now: Time)
      requires Ready() && dungeonId in WaitingIds(lifecycle.View())
      modifies this`waitingSince
      modifies lifecycle.dungeonManager`dungeons, lifecycle.dungeonManager`partyDungeons
      modifies lifecycle.dungeonManager.dungeons.Values`state
      modifies lifecycle.dungeonManager.Rooms()`currentWave, lifecycle.dungeonManager.Rooms()`enemies
      modifies lifecycle.udpManager`sessions, lifecycle.udpManager.sessions.Values`lastActivity
      ensures Ready() && View() == Considered(old(View()), dungeonId, now, readyTimeout)
      ensures Fewer(dungeonId)
    {
      hide Ready, DungeonLifecycleService.View, DungeonManager.Valid, DungeonUdpManager.Valid;
      hide DungeonInstance.Indexed;
      hide Considered, Judged, At, SinceAfter, StartedWorld, CancelledWorld, WaitingIds;
      IsWaiting(lifecycle.View(), dungeonId);
      ReadyParts();
      ConsideredIs(View(), dungeonId, now, readyTimeout);
      var verdict := VerdictOn(dungeonId, now);
      NoteWaiting(SinceAfter(verdict, waitingSince, dungeonId, now));
      CarryOut(verdict, dungeonId, now);
    }

    method CarryOut(verdict: Verdict, dungeonId: DungeonId, now: Time)
      requires Ready() && dungeonId in WaitingIds(lifecycle.View())
      requires verdict.Complete? ==>
        && EndpointsComplete(lifecycle.View(), dungeonId)
        && !SomebodyGone(lifecycle.View().registry.dungeons[dungeonId])
      modifies lifecycle.dungeonManager`dungeons, lifecycle.dungeonManager`partyDungeons
      modifies lifecycle.dungeonManager.dungeons.Values`state
      modifies lifecycle.dungeonManager.Rooms()`currentWave, lifecycle.dungeonManager.Rooms()`enemies
      modifies lifecycle.udpManager`sessions, lifecycle.udpManager.sessions.Values`lastActivity
      ensures Ready() && Fewer(dungeonId)
      ensures lifecycle.View() ==
        if verdict.Complete? then StartedWorld(old(lifecycle.View()), dungeonId, now)
        else if verdict.TooLate? then CancelledWorld(old(lifecycle.View()), dungeonId)
        else old(lifecycle.View())
    {
      hide Ready, DungeonLifecycleService.View, StartedWorld, CancelledWorld, WaitingIds, SomebodyGone;
      hide EndpointsComplete;
      if verdict.Complete? {
        StartWaiting(dungeonId, now);
      } else if verdict.TooLate? {
        CancelWaiting(dungeonId);
      }
    }

    /** At most one dungeon is gone from the tables. */
    twostate predicate Fewer(dungeonId: DungeonId)
      reads lifecycle.dungeonManager`dungeons, lifecycle.udpManager`sessions
    {
      && (lifecycle.dungeonManager.dungeons == old(lifecycle.dungeonManager.dungeons) ||
          lifecycle.dungeonManager.dungeons == old(lifecycle.dungeonManager.dungeons) - {dungeonId})
      && (lifecycle.udpManager.sessions == old(lifecycle.udpManager.sessions) ||
          lifecycle.udpManager.sessions == old(lifecycle.udpManager.sessions) - {dungeonId})
    }

    /** What is left of the tables since a pass began. */
    twostate predicate NothingNew()
      reads lifecycle.dungeonManager`dungeons, lifecycle.udpManager`sessions
    {
      lifecycle.dungeonManager.NothingNew() && lifecycle.udpManager.NothingNew()
    }

    /** WaitingDungeonIds, RunningDungeonIds or FinishedDungeonIds, and nothing moves. */
    method ListIn(state: DungeonState) returns (ids: seq<DungeonId>)
      requires Ready()
      ensures Ready() && lifecycle.View() == old(lifecycle.View()) && Insides() == old(Insides())
      ensures state.Waiting? ==> ListsOnce(ids, WaitingIds(lifecycle.View()))
      ensures state.Running? ==> ListsOnce(ids, RunningIds(lifecycle.View()))
      ensures state.Finished? ==> ListsOnce(ids, FinishedIds(lifecycle.View()))
    {
      hide Ready, DungeonLifecycleService.View, Interiors, InteriorOf, HitsAt, ListsOnce, WaitingIds, RunningIds;
      hide FinishedIds, DungeonManager.Characters, DungeonManager.Rooms;
      InteriorsOfAll(lifecycle.dungeonManager, combat.pendingHits);
      ids := ListOnly(state);
      InteriorsOfAll(lifecycle.dungeonManager, combat.pendingHits);
    }

    method ListOnly(state: DungeonState) returns (ids: seq<DungeonId>)
      requires Ready()
      ensures Ready() && lifecycle.View() == old(lifecycle.View())
      ensures state.Waiting? ==> ListsOnce(ids, WaitingIds(lifecycle.View()))
      ensures state.Running? ==> ListsOnce(ids, RunningIds(lifecycle.View()))
      ensures state.Finished? ==> ListsOnce(ids, FinishedIds(lifecycle.View()))
    {
      hide DungeonManager.Valid, DungeonManager.Equipped, DungeonManager.Staffed, DungeonUdpManager.View;
      hide DungeonUdpManager.Valid, Invariant;
      hide ListsOnce, Sound;
      ids := lifecycle.dungeonManager.DungeonIdsIn(state);
      lifecycle.dungeonManager.RoomsUntouched();
      lifecycle.dungeonManager.LeftStaffed();
      ghost var listed := lifecycle.dungeonManager.IdsIn(lifecycle.dungeonManager.dungeons.Keys, state);
      assert state.Waiting? ==> listed == WaitingIds(lifecycle.View());
      assert state.Running? ==> listed == RunningIds(lifecycle.View());
      assert state.Finished? ==> listed == FinishedIds(lifecycle.View());
    }

    /** The pass of a tick over the waiting dungeons, in the order of some list of them. */
    method HandleWaiting(now: Time) returns (ghost ids: seq<DungeonId>)
      requires Ready()
      modifies this`waitingSince
      modifies lifecycle.dungeonManager`dungeons, lifecycle.dungeonManager`partyDungeons
      modifies lifecycle.dungeonManager.dungeons.Values`state
      modifies lifecycle.dungeonManager.Rooms()`currentWave, lifecycle.dungeonManager.Rooms()`enemies
      modifies lifecycle.udpManager`sessions, lifecycle.udpManager.sessions.Values`lastActivity
      ensures Ready() && NothingNew() && ListsOnce(ids, WaitingIds(old(lifecycle.View())))
      ensures lifecycle.dungeonManager.Characters() <= old(lifecycle.dungeonManager.Characters())
      ensures View() ==
        Tidied(ConsideredAll(old(View()), ids, now, readyTimeout), WaitingIds(old(lifecycle.View())))
    {
      hide Ready, DungeonLifecycleService.View, ListsOnce, ConsideredAll, WaitingIds, DungeonManager.Rooms;
      hide DungeonManager.Characters;
      var waitingDungeonIds := ListOnly(Waiting);
      ids := waitingDungeonIds;
      ListedWaiting(ids, WaitingIds(lifecycle.View()));
      PassOver(waitingDungeonIds, now);
      ForgetOthers(waitingDungeonIds);
      lifecycle.dungeonManager.FewerCharacters();
    }

    method PassOver(ids: seq<DungeonId>, now: Time)
      requires Ready() && ListsOnce(ids, WaitingIds(lifecycle.View()))
      modifies this`waitingSince
      modifies lifecycle.dungeonManager`dungeons, lifecycle.dungeonManager`partyDungeons
      modifies lifecycle.dungeonManager.dungeons.Values`state
      modifies lifecycle.dungeonManager.Rooms()`currentWave, lifecycle.dungeonManager.Rooms()`enemies
      modifies lifecycle.udpManager`sessions, lifecycle.udpManager.sessions.Values`lastActivity
      ensures Ready() && NothingNew() && View() == ConsideredAll(old(View()), ids, now, readyTimeout)
    {
      hide Ready, DungeonLifecycleService.View, ListsOnce, ConsideredAll, Considered, WaitingIds;
      hide DungeonManager.Rooms;
      ghost var g := View();
      PassBegins(g, ids, now, readyTimeout);
      var i := 0;
      while i < |ids|
        invariant 0 <= i <= |ids| && Ready() && NothingNew()
        invariant View() == ConsideredAll(g, ids[..i], now, readyTimeout)
      {
        PassNext(g, ids, i, now, readyTimeout);
        lifecycle.dungeonManager.FewerObjects();
        Consider(ids[i], now);
        i := i + 1;
      }
      assert ids[..i] == ids;
    }

    /** Only the dungeons of this pass are remembered. */
    method ForgetOthers(ids: seq<DungeonId>)
      requires Ready()
      modifies this`waitingSince
      ensures Ready() && lifecycle.View() == old(lifecycle.View())
      ensures waitingSince == map id | id in old(waitingSince) && id in ids :: old(waitingSince)[id]
    {
      hide Ready, DungeonLifecycleService.View;
      NoteWaiting(map id | id in waitingSince && id in ids :: waitingSince[id]);
    }

    /** The service's own tables are nobody else's business. */
    method NoteWaiting(waiting: map<DungeonId, Time>)
      requires Ready()
      modifies this`waitingSince
      ensures Ready() && lifecycle.View() == old(lifecycle.View()) && waitingSince == waiting
    {
      hide DungeonManager.Valid, DungeonManager.Equipped, DungeonManager.Staffed, DungeonManager.View;
      hide DungeonUdpManager.View;
      hide DungeonUdpManager.Valid, Invariant;
      waitingSince := waiting;
      lifecycle.dungeonManager.RoomsUntouched();
      lifecycle.dungeonManager.LeftStaffed();
    }

    // -------------------------------------------------------------- the sweep and the finished dungeons

    /** The sweep at the head of a tick, with the times of the released dungeons forgotten. */
    method SweepAway(now: Time) returns (sweep: AbandonmentSweep)
      requires Ready()
      modifies this`waitingSince, this`finishedSince
      modifies lifecycle.dungeonManager`dungeons, lifecycle.dungeonManager`partyDungeons
      modifies lifecycle.dungeonManager.dungeons.Values`participants, lifecycle.dungeonManager.dungeons.Values`players
      modifies lifecycle.dungeonManager.dungeons.Values`participantPlayerIds
      modifies lifecycle.dungeonManager.dungeons.Values`playerSessions
      modifies lifecycle.dungeonManager.dungeons.Values`disconnectedSince
      modifies lifecycle.udpManager`sessions, lifecycle.udpManager.sessions.Values
      ensures Ready() && NothingNew()
      ensures lifecycle.dungeonManager.Characters() <= old(lifecycle.dungeonManager.Characters())
      ensures waitingSince == Without(old(waitingSince), sweep.releasedDungeons)
      ensures finishedSince == Without(old(finishedSince), sweep.releasedDungeons)
      ensures SweptAway(old(lifecycle.View()), lifecycle.View(), sweep, now)
    {
      hide Ready, DungeonLifecycleService.View, SweptAway, DungeonManager.Characters;
      sweep := SweepLifecycle(now);
      Note(map id | id in waitingSince && id !in sweep.releasedDungeons :: waitingSince[id],
           map id | id in finishedSince && id !in sweep.releasedDungeons :: finishedSince[id]);
    }

    method Note(waiting: map<DungeonId, Time>, finished: map<DungeonId, Time>)
      requires Ready()
      modifies this`waitingSince, this`finishedSince
      ensures Ready() && lifecycle.View() == old(lifecycle.View())
      ensures waitingSince == waiting && finishedSince == finished
    {
      hide DungeonManager.Valid, DungeonManager.Equipped, DungeonManager.Staffed, DungeonManager.View;
      hide DungeonUdpManager.View, DungeonUdpManager.Valid;
      hide Invariant;
      waitingSince, finishedSince := waiting, finished;
      lifecycle.dungeonManager.RoomsUntouched();
      lifecycle.dungeonManager.LeftStaffed();
    }

    method SweepLifecycle(now: Time) returns (sweep: AbandonmentSweep)
      requires Ready()
      modifies lifecycle.dungeonManager`dungeons, lifecycle.dungeonManager`partyDungeons
      modifies lifecycle.dungeonManager.dungeons.Values`participants, lifecycle.dungeonManager.dungeons.Values`players
      modifies lifecycle.dungeonManager.dungeons.Values`participantPlayerIds
      modifies lifecycle.dungeonManager.dungeons.Values`playerSessions
      modifies lifecycle.dungeonManager.dungeons.Values`disconnectedSince
      modifies lifecycle.udpManager`sessions, lifecycle.udpManager.sessions.Values
      ensures Ready() && NothingNew() && SweptAway(old(lifecycle.View()), lifecycle.View(), sweep, now)
      ensures lifecycle.dungeonManager.Characters() <= old(lifecycle.dungeonManager.Characters())
    {
      hide DungeonLifecycleService.View, DungeonLifecycleService.Valid, DungeonManager.Equipped;
      hide DungeonManager.Staffed;
      hide After, Reports, Swept, SweepSteps, DungeonManager.Characters;
      sweep := lifecycle.SweepAbandonedParticipants(now, reconnectGrace, maxDungeonLifetime);
      lifecycle.dungeonManager.FewerEquipped();
    }

    /** From one world at rest to the next by the steps of a sweep. */
    ghost predicate SweptAway(w: World, w': World, sweep: AbandonmentSweep, now: Time) {
      && After(w, SweepSteps(now, reconnectGrace, maxDungeonLifetime, sweep)) == Some(w')
      && w'.registry == Swept(w.registry, w.registry.dungeons.Keys, now, reconnectGrace, maxDungeonLifetime)
      && Reports(w.registry, now, reconnectGrace, maxDungeonLifetime, sweep)
      && SweptExactly(w.registry, w'.registry, now, reconnectGrace, maxDungeonLifetime)
      && ReportsExactly(w.registry, w'.registry, sweep.releasedDungeons, sweep.removedParticipants,
           now, reconnectGrace, maxDungeonLifetime)
    }

    /** One turn of a running dungeon. In the eyes of the two managers it is a run of their locked
        sections; inside the dungeon it is a movement tick, a combat tick, and what they lead to, and
        no other dungeon feels it; the time at which the dungeon was found cleared is noted, once. */
    method RunDungeon(dungeonId: DungeonId, now: Time) returns (ghost turn: Turn, cleared: bool)
      requires Ready() && dungeonId in RunningIds(lifecycle.View())
      modifies this`finishedSince, combat`pendingHits, lifecycle.udpManager.sessions.Values
      modifies lifecycle.dungeonManager.dungeons.Values`state
      modifies lifecycle.dungeonManager.Characters()`position, lifecycle.dungeonManager.Characters()`roomId
      modifies lifecycle.dungeonManager.Characters()`currentMp, lifecycle.dungeonManager.Characters()`cooldowns
      modifies lifecycle.dungeonManager.Characters()`action
      modifies lifecycle.dungeonManager.Rooms()`currentWave, lifecycle.dungeonManager.Rooms()`enemies
      ensures Ready()
      ensures Fading() == RanOne(old(Fading()), dungeonId, now, udpIdleTimeout, cleared)
      ensures After(old(lifecycle.View()), TurnSteps(old(lifecycle.View()), dungeonId, now, udpIdleTimeout, cleared)) ==
        Some(lifecycle.View())
      ensures TookTurnAmong(lifecycle.dungeonManager, movement, combat, dungeonId, old(lifecycle.udpManager.View()),
        old(Insides()), Insides(), now, udpIdleTimeout, turn, cleared)
    {
      hide Ready, DungeonLifecycleService.View, TurnSteps, After, Ran, Insides, TookTurnAmong;
      hide DungeonManager.Rooms, DungeonManager.Characters;
      ghost var udp, before := lifecycle.udpManager.View(), Insides();
      turn, cleared := RunInBoth(dungeonId, now);
      if cleared && dungeonId !in finishedSince {
        NoteCleared(dungeonId, now, udp, before, turn);
      }
    }

    /** Nobody in a dungeon notices. */
    method NoteCleared(
      dungeonId: DungeonId, now: Time, ghost udp: map<DungeonId, Udp>, ghost before: map<DungeonId, Interior>,
      ghost turn: Turn)
      requires Ready()
      requires TookTurnAmong(lifecycle.dungeonManager, movement, combat, dungeonId, udp, before, Insides(), now,
        udpIdleTimeout, turn, true)
      modifies this`finishedSince
      ensures Ready() && lifecycle.View() == old(lifecycle.View())
      ensures finishedSince == old(finishedSince)[dungeonId := now]
      ensures TookTurnAmong(lifecycle.dungeonManager, movement, combat, dungeonId, udp, before, Insides(), now,
        udpIdleTimeout, turn, true)
    {
      hide Ready, DungeonLifecycleService.View, Interiors, InteriorOf, HitsAt, TurnTaken, OnlyInside, MovementsOf;
      hide AttacksOf, DungeonManager.Characters, DungeonManager.Rooms;
      InteriorsOfAll(lifecycle.dungeonManager, combat.pendingHits);
      NoteFinished(dungeonId, now);
      InteriorsOfAll(lifecycle.dungeonManager, combat.pendingHits);
      assert Insides() == old(Insides());
    }

    method NoteFinished(dungeonId: DungeonId, now: Time)
      requires Ready()
      modifies this`finishedSince
      ensures Ready() && lifecycle.View() == old(lifecycle.View())
      ensures finishedSince == old(finishedSince)[dungeonId := now]
    {
      hide DungeonManager.Valid, DungeonManager.Equipped, DungeonManager.Staffed, DungeonManager.View;
      hide DungeonUdpManager.View, DungeonUdpManager.Valid, Invariant;
      finishedSince := finishedSince[dungeonId := now];
      lifecycle.dungeonManager.RoomsUntouched();
      lifecycle.dungeonManager.LeftStaffed();
    }

    method RunInBoth(dungeonId: DungeonId, now: Time) returns (ghost turn: Turn, cleared: bool)
      requires Ready() && dungeonId in RunningIds(lifecycle.View())
      modifies combat`pendingHits, lifecycle.udpManager.sessions.Values
      modifies lifecycle.dungeonManager.dungeons.Values`state
      modifies lifecycle.dungeonManager.Characters()`position, lifecycle.dungeonManager.Characters()`roomId
      modifies lifecycle.dungeonManager.Characters()`currentMp, lifecycle.dungeonManager.Characters()`cooldowns
      modifies lifecycle.dungeonManager.Characters()`action
      modifies lifecycle.dungeonManager.Rooms()`currentWave, lifecycle.dungeonManager.Rooms()`enemies
      ensures Ready() && dungeonId in old(lifecycle.View()).registry.dungeons
      ensures lifecycle.View() == Ran(old(lifecycle.View()), dungeonId, now, udpIdleTimeout, cleared)
      ensures After(old(lifecycle.View()), TurnSteps(old(lifecycle.View()), dungeonId, now, udpIdleTimeout, cleared)) ==
        Some(lifecycle.View())
      ensures TookTurnAmong(lifecycle.dungeonManager, movement, combat, dungeonId, old(lifecycle.udpManager.View()),
        old(Insides()), Insides(), now, udpIdleTimeout, turn, cleared)
    {
      hide Invariant, DungeonManager.Valid, DungeonManager.View, DungeonManager.Equipped, DungeonManager.Staffed;
      hide DungeonUdpManager.Valid, DungeonUdpManager.View, Carried, Emptied, WithState, TurnSteps, After;
      hide TookTurnAmong;
      ghost var w := lifecycle.View();
      TurnsRun(dungeonId, now);
      turn, cleared := TurnOf(dungeonId, now);
      assert lifecycle.View() == Ran(w, dungeonId, now, udpIdleTimeout, cleared);
    }

    lemma TurnsRun(dungeonId: DungeonId, now: Time)
      requires Ready() && dungeonId in RunningIds(lifecycle.View())
      ensures dungeonId in lifecycle.View().registry.dungeons
      ensures forall cleared ::
        && Invariant(Ran(lifecycle.View(), dungeonId, now, udpIdleTimeout, cleared))
        && After(lifecycle.View(), TurnSteps(lifecycle.View(), dungeonId, now, udpIdleTimeout, cleared)) ==
             Some(Ran(lifecycle.View(), dungeonId, now, udpIdleTimeout, cleared))
    {
      hide Invariant, DungeonManager.Valid, DungeonManager.View, DungeonManager.Equipped, DungeonManager.Staffed;
      hide DungeonUdpManager.Valid, DungeonUdpManager.View, Ran, TurnSteps, After;
      CoupledAt(lifecycle.View(), dungeonId);
      TurnRun(lifecycle.View(), dungeonId, now, udpIdleTimeout, true);
      TurnRun(lifecycle.View(), dungeonId, now, udpIdleTimeout, false);
    }

    method TurnOf(dungeonId: DungeonId, now: Time) returns (ghost turn: Turn, cleared: bool)
      requires InOrder(lifecycle.dungeonManager, lifecycle.udpManager) && Configured()
      requires dungeonId in lifecycle.dungeonManager.View().dungeons
      requires lifecycle.dungeonManager.View().dungeons[dungeonId].state.Running?
      modifies combat`pendingHits, lifecycle.udpManager.sessions.Values
      modifies lifecycle.dungeonManager.dungeons.Values`state
      modifies lifecycle.dungeonManager.Characters()`position, lifecycle.dungeonManager.Characters()`roomId
      modifies lifecycle.dungeonManager.Characters()`currentMp, lifecycle.dungeonManager.Characters()`cooldowns
      modifies lifecycle.dungeonManager.Characters()`action
      modifies lifecycle.dungeonManager.Rooms()`currentWave, lifecycle.dungeonManager.Rooms()`enemies
      ensures InOrder(lifecycle.dungeonManager, lifecycle.udpManager)
      ensures lifecycle.dungeonManager.View() ==
        if cleared then WithState(old(lifecycle.dungeonManager.View()), dungeonId, Finished)
        else old(lifecycle.dungeonManager.View())
      ensures lifecycle.udpManager.View() ==
        Emptied(Carried(old(lifecycle.udpManager.View()), dungeonId, Prune(now, udpIdleTimeout)), dungeonId)
      ensures TookTurnAmong(lifecycle.dungeonManager, movement, combat, dungeonId, old(lifecycle.udpManager.View()),
        old(Insides()), Insides(), now, udpIdleTimeout, turn, cleared)
    {
      hide InOrder, DungeonManager.View, DungeonUdpManager.View, Emptied, Carried, WithState, TookTurnAmong;
      lifecycle.dungeonManager.Held(dungeonId);
      OneDungeon(lifecycle.dungeonManager, lifecycle.udpManager, dungeonId);
      turn, cleared := TurnInPass(lifecycle.dungeonManager, lifecycle.udpManager, movement, combat, dungeonId,
        lifecycle.dungeonManager.dungeons[dungeonId], now, udpIdleTimeout);
    }

    /** The pass of a tick over the running dungeons, in the order of some list of them. */
    method HandleRunning(now: Time)
      returns (ghost ids: seq<DungeonId>, ghost cleared: set<DungeonId>, ghost r: RunningTurns)
      requires Ready()
      modifies this`finishedSince, combat`pendingHits, lifecycle.udpManager.sessions.Values
      modifies lifecycle.dungeonManager.dungeons.Values`state
      modifies lifecycle.dungeonManager.Characters()`position, lifecycle.dungeonManager.Characters()`roomId
      modifies lifecycle.dungeonManager.Characters()`currentMp, lifecycle.dungeonManager.Characters()`cooldowns
      modifies lifecycle.dungeonManager.Characters()`action
      modifies lifecycle.dungeonManager.Rooms()`currentWave, lifecycle.dungeonManager.Rooms()`enemies
      ensures Ready() && NothingNew() && ListsOnce(ids, RunningIds(old(lifecycle.View())))
      ensures Fading() == RanAll(old(Fading()), ids, now, udpIdleTimeout, cleared)
      ensures Finds(r) && TurnsTaken(movement, combat, r, ids, now, udpIdleTimeout, cleared)
      ensures r.after == Insides() && OnlyInsides(ids, r.before, r.after)
    {
      hide Ready, DungeonLifecycleService.View, ListsOnce, RanAll, RunningIds, DungeonManager.Rooms, Insides;
      hide DungeonManager.Characters, TurnsTaken, OnlyInsides;
      SameUdp();
      var runningDungeonIds := ListIn(Running);
      SameUdp();
      ids := runningDungeonIds;
      cleared, r := RunOver(runningDungeonIds, now);
    }

    /** What the pass over the running dungeons finds. */
    twostate predicate Finds(new r: RunningTurns) {
      && r.all == old(lifecycle.dungeonManager.dungeons) && r.udp == old(lifecycle.udpManager.View())
      && r.before == old(Insides())
    }

    method RunOver(ids: seq<DungeonId>, now: Time) returns (ghost done: set<DungeonId>, ghost r: RunningTurns)
      requires Ready() && ListsOnce(ids, RunningIds(lifecycle.View()))
      modifies this`finishedSince, combat`pendingHits, lifecycle.udpManager.sessions.Values
      modifies lifecycle.dungeonManager.dungeons.Values`state
      modifies lifecycle.dungeonManager.Characters()`position, lifecycle.dungeonManager.Characters()`roomId
      modifies lifecycle.dungeonManager.Characters()`currentMp, lifecycle.dungeonManager.Characters()`cooldowns
      modifies lifecycle.dungeonManager.Characters()`action
      modifies lifecycle.dungeonManager.Rooms()`currentWave, lifecycle.dungeonManager.Rooms()`enemies
      ensures Ready() && Fading() == RanAll(old(Fading()), ids, now, udpIdleTimeout, done)
      ensures Finds(r) && TurnsTaken(movement, combat, r, ids, now, udpIdleTimeout, done)
      ensures r.after == Insides() && OnlyInsides(ids, r.before, r.after)
    {
      hide Ready, Fading, ListsOnce, RanAll, RunningIds, DungeonLifecycleService.View, RanSoFar;
      hide DungeonManager.Rooms, DungeonManager.Characters, Insides, TurnsTaken, OnlyInsides;
      ghost var g := Fading();
      done, r := {}, RunningTurns(
        lifecycle.dungeonManager.dungeons, lifecycle.udpManager.View(), Insides(), map[], Insides());
      NoTurnYet(ids, now, r);
      GateOf();
      var i := 0;
      while i < |ids|
        invariant 0 <= i <= |ids| && Ready()
        invariant RanSoFar(g, ids[..i], now, done, r) && r.before == old(Insides())
      {
        done, r := RunNext(g, ids, i, now, done, r);
        i := i + 1;
      }
      assert ids[..i] == ids;
      SoFarIs(g, ids, now, done, r);
    }

    lemma NoTurnYet(ids: seq<DungeonId>, now: Time, r: RunningTurns)
      requires r == RunningTurns(
        lifecycle.dungeonManager.dungeons, lifecycle.udpManager.View(), Insides(), map[], Insides())
      ensures RanSoFar(Fading(), ids[..0], now, {}, r)
    {
      hide RanAll, DungeonManager.Rooms, DungeonManager.Characters, Insides, TurnsTaken, OnlyInsides;
      RunningBegins(Fading(), ids, now, udpIdleTimeout);
      NobodyYet(movement, combat, r, ids, now, udpIdleTimeout);
    }

    lemma GateOf()
      ensures Fading().w == lifecycle.View() && Fading().w.udp == lifecycle.udpManager.View()
    {
    }

    lemma SoFarIs(g: Gate, ids: seq<DungeonId>, now: Time, done: set<DungeonId>, r: RunningTurns)
      requires RanSoFar(g, ids, now, done, r)
      ensures Fading() == RanAll(g, ids, now, udpIdleTimeout, done) && r.udp == g.w.udp
      ensures r.all == lifecycle.dungeonManager.dungeons && r.after == Insides() && OnlyInsides(ids, r.before, r.after)
      ensures TurnsTaken(movement, combat, r, ids, now, udpIdleTimeout, done)
    {
      hide RanAll, Insides, TurnsTaken, OnlyInsides, Fading;
    }

    /** The pass so far: on the two managers, and inside the dungeons. */
    ghost predicate RanSoFar(g: Gate, ids: seq<DungeonId>, now: Time, done: set<DungeonId>, r: RunningTurns)
      reads this`finishedSince, lifecycle, lifecycle.dungeonManager, lifecycle.dungeonManager.dungeons.Values,
        lifecycle.udpManager, lifecycle.udpManager.sessions.Values, lifecycle.dungeonManager.Characters(),
        lifecycle.dungeonManager.Rooms(), combat`pendingHits, r.all.Values`disconnectedSince, RoomsIn(r.all)`obstacles
    {
      && Fading() == RanAll(g, ids, now, udpIdleTimeout, done) && (forall id :: id in done ==> id in ids)
      && r.all == lifecycle.dungeonManager.dungeons && r.udp == g.w.udp
      && r.after == Insides() && OnlyInsides(ids, r.before, r.after)
      && TurnsTaken(movement, combat, r, ids, now, udpIdleTimeout, done)
    }

    /** What other turns have done stays done. */
    method RunAfterOthers(
      dungeonId: DungeonId, now: Time, ghost r: RunningTurns, ghost earlier: seq<DungeonId>, ghost done: set<DungeonId>)
      returns (ghost turn: Turn, cleared: bool)
      requires Ready() && dungeonId in RunningIds(lifecycle.View())
      requires r.all == lifecycle.dungeonManager.dungeons
      requires TurnsTaken(movement, combat, r, earlier, now, udpIdleTimeout, done)
      modifies this`finishedSince, combat`pendingHits, lifecycle.udpManager.sessions.Values
      modifies lifecycle.dungeonManager.dungeons.Values`state
      modifies lifecycle.dungeonManager.Characters()`position, lifecycle.dungeonManager.Characters()`roomId
      modifies lifecycle.dungeonManager.Characters()`currentMp, lifecycle.dungeonManager.Characters()`cooldowns
      modifies lifecycle.dungeonManager.Characters()`action
      modifies lifecycle.dungeonManager.Rooms()`currentWave, lifecycle.dungeonManager.Rooms()`enemies
      ensures Ready() && Fading() == RanOne(old(Fading()), dungeonId, now, udpIdleTimeout, cleared)
      ensures TookTurnAmong(lifecycle.dungeonManager, movement, combat, dungeonId, old(lifecycle.udpManager.View()),
        old(Insides()), Insides(), now, udpIdleTimeout, turn, cleared)
      ensures TurnsTaken(movement, combat, r, earlier, now, udpIdleTimeout, done)
    {
      hide Ready, Fading, RanOne, RunningIds, TurnTaken, MovementsOf, AttacksOf, Insides, TookTurnAmong, TurnSteps;
      hide DungeonManager.Rooms, DungeonManager.Characters, After, DungeonLifecycleService.View;
      turn, cleared := RunDungeon(dungeonId, now);
    }

    method RunNext(
      ghost g: Gate, ids: seq<DungeonId>, i: nat, now: Time, ghost done: set<DungeonId>, ghost r: RunningTurns)
      returns (ghost done': set<DungeonId>, ghost r': RunningTurns)
      requires Ready() && i < |ids| && ListsOnce(ids, RunningIds(g.w)) && RanSoFar(g, ids[..i], now, done, r)
      modifies this`finishedSince, combat`pendingHits, lifecycle.udpManager.sessions.Values
      modifies lifecycle.dungeonManager.dungeons.Values`state
      modifies lifecycle.dungeonManager.Characters()`position, lifecycle.dungeonManager.Characters()`roomId
      modifies lifecycle.dungeonManager.Characters()`currentMp, lifecycle.dungeonManager.Characters()`cooldowns
      modifies lifecycle.dungeonManager.Characters()`action
      modifies lifecycle.dungeonManager.Rooms()`currentWave, lifecycle.dungeonManager.Rooms()`enemies
      ensures Ready() && RanSoFar(g, ids[..i + 1], now, done', r') && r'.before == r.before
    {
      hide Ready, DungeonLifecycleService.View, ListsOnce, RanAll, RanOne, RunningIds, TurnTaken, MovementsOf;
      hide AttacksOf;
      hide DungeonManager.Rooms, DungeonManager.Characters, TurnSteps, After, Insides, OnlyInsides, OnlyInside;
      hide TookTurnAmong, TurnsTaken;
      NotYet(ids, i, RunningIds(g.w));
      RunningNext(g, ids, i, now, udpIdleTimeout, done, true);
      RunningNext(g, ids, i, now, udpIdleTimeout, done, false);
      UdpUntilTurn(g, ids, i, now, udpIdleTimeout, done);
      ghost var udp := lifecycle.udpManager.View();
      SameUdp();
      var cleared;
      ghost var turn;
      turn, cleared := RunAfterOthers(ids[i], now, r, ids[..i], done);
      OwnQueues(udp, r.udp, ids[i], now, udpIdleTimeout);
      OneMoreRan(g, ids, i, now, done, r, udp, turn, cleared);
      done' := if cleared then done + {ids[i]} else done;
      r' := r.(turns := r.turns[ids[i] := turn], after := Insides());
    }

    lemma OneMoreRan(
      g: Gate, ids: seq<DungeonId>, i: nat, now: Time, done: set<DungeonId>, r: RunningTurns, udp: map<DungeonId, Udp>,
      turn: Turn, cleared: bool)
      requires i < |ids| && ids[i] !in ids[..i] && (forall id :: id in done ==> id in ids[..i])
      requires Fading() ==
        RanAll(g, ids[..i + 1], now, udpIdleTimeout, if cleared then done + {ids[i]} else done)
      requires r.all == lifecycle.dungeonManager.dungeons && r.udp == g.w.udp
      requires OnlyInsides(ids[..i], r.before, r.after)
      requires TurnsTaken(movement, combat, r, ids[..i], now, udpIdleTimeout, done)
      requires MovementsOf(udp, ids[i], now, udpIdleTimeout) == MovementsOf(r.udp, ids[i], now, udpIdleTimeout)
      requires AttacksOf(udp, ids[i], now, udpIdleTimeout) == AttacksOf(r.udp, ids[i], now, udpIdleTimeout)
      requires TookTurnAmong(lifecycle.dungeonManager, movement, combat, ids[i], udp, r.after, Insides(), now,
        udpIdleTimeout, turn, cleared)
      ensures RanSoFar(g, ids[..i + 1], now, if cleared then done + {ids[i]} else done,
        r.(turns := r.turns[ids[i] := turn], after := Insides()))
    {
      hide DungeonLifecycleService.View, RanAll, TurnTaken, MovementsOf, AttacksOf, DungeonManager.Rooms, Insides;
      hide Fading, OnlyInsides, OnlyInside, TurnsTaken;
      OneMoreInside(ids, i, r.before, r.after, Insides());
      OneMoreTaken(movement, combat, r, ids, i, now, udpIdleTimeout, done, turn, Insides(), cleared);
      assert ids[..i + 1] == ids[..i] + [ids[i]];
    }

    lemma SameUdp()
      ensures lifecycle.View().udp == lifecycle.udpManager.View()
    {
    }

    static lemma NotYet(ids: seq<DungeonId>, i: nat, members: set<DungeonId>)
      requires ListsOnce(ids, members) && i < |ids|
      ensures ids[i] !in ids[..i]
    {
    }

    /** The pass of a tick over the finished dungeons: each is shown for a while, then released. */
    method HandleFinished(now: Time) returns (ghost ids: seq<DungeonId>)
      requires Ready()
      modifies this`waitingSince, this`finishedSince
      modifies lifecycle.dungeonManager`dungeons, lifecycle.dungeonManager`partyDungeons
      modifies lifecycle.dungeonManager.dungeons.Values`state, lifecycle.udpManager`sessions
      ensures Ready() && ListsOnce(ids, FinishedIds(old(lifecycle.View())))
      ensures Fading() == FadedAll(old(Fading()), ids, now) && waitingSince == old(waitingSince)
      ensures NothingNew() && FewerInsides(old(Insides()), Insides())
    {
      hide Ready, DungeonLifecycleService.View, ListsOnce, FadedAll, FinishedIds, Interiors, InteriorOf, HitsAt;
      hide DungeonManager.Rooms, DungeonManager.Characters;
      InteriorsOfAll(lifecycle.dungeonManager, combat.pendingHits);
      var finishedDungeonIds := ListIn(Finished);
      ids := finishedDungeonIds;
      FadeOver(finishedDungeonIds, now);
      InteriorsOfAll(lifecycle.dungeonManager, combat.pendingHits);
    }

    method FadeOver(ids: seq<DungeonId>, now: Time)
      requires Ready() && ListsOnce(ids, FinishedIds(lifecycle.View()))
      modifies this`waitingSince, this`finishedSince
      modifies lifecycle.dungeonManager`dungeons, lifecycle.dungeonManager`partyDungeons
      modifies lifecycle.dungeonManager.dungeons.Values`state, lifecycle.udpManager`sessions
      ensures Ready() && Fading() == FadedAll(old(Fading()), ids, now) && waitingSince == old(waitingSince)
      ensures NothingNew()
    {
      hide Ready, DungeonLifecycleService.View, ListsOnce, FadedAll, Faded, FinishedIds, DungeonManager.Rooms;
      ghost var g := Fading();
      FadingBegins(g, ids, now);
      var i := 0;
      while i < |ids|
        invariant 0 <= i <= |ids| && Ready() && NothingNew()
        invariant Fading() == FadedAll(g, ids[..i], now) && waitingSince == old(waitingSince)
      {
        FadingNext(g, ids, i, now);
        lifecycle.dungeonManager.FewerObjects();
        Fade(ids[i], now);
        i := i + 1;
      }
      assert ids[..i] == ids;
    }

    method Fade(dungeonId: DungeonId, now: Time)
      requires Ready() && dungeonId in FinishedIds(lifecycle.View())
      modifies this`waitingSince, this`finishedSince
      modifies lifecycle.dungeonManager`dungeons, lifecycle.dungeonManager`partyDungeons
      modifies lifecycle.dungeonManager.dungeons.Values`state, lifecycle.udpManager`sessions
      ensures Ready() && Fading() == Faded(old(Fading()), dungeonId, now) && waitingSince == old(waitingSince)
      ensures Fewer(dungeonId)
    {
      hide Ready, DungeonLifecycleService.View, Closed;
      if dungeonId !in finishedSince {
        Note(waitingSince, finishedSince[dungeonId := now]);
      }
      if now - finishedSince[dungeonId] >= FINISHED_BROADCAST_DURATION {
        FinishOne(dungeonId);
        Note(waitingSince, finishedSince - {dungeonId});
      }
    }

    method FinishOne(dungeonId: DungeonId)
      requires Ready() && dungeonId in FinishedIds(lifecycle.View())
      modifies lifecycle.dungeonManager`dungeons, lifecycle.dungeonManager`partyDungeons
      modifies lifecycle.dungeonManager.dungeons.Values`state, lifecycle.udpManager`sessions
      ensures Ready() && lifecycle.View() == CancelledWorld(old(lifecycle.View()), dungeonId)
      ensures Fewer(dungeonId)
    {
      hide Invariant, DungeonLifecycleService.View, DungeonLifecycleService.Valid, DungeonManager.Equipped;
      hide DungeonManager.Staffed, Closed, After;
      ghost var w := lifecycle.View();
      RestingWorld();
      CloseRun(w, Finish(dungeonId), dungeonId);
      var finished := lifecycle.FinishDungeon(dungeonId);
    }

    /** The sweep and the three passes of a tick. */
    method HandleDungeons(now: Time) returns (ghost p: Passes, ghost turns: RunningTurns)
      requires Ready()
      modifies this`waitingSince, this`finishedSince, combat`pendingHits
      modifies lifecycle.dungeonManager`dungeons, lifecycle.dungeonManager`partyDungeons
      modifies lifecycle.dungeonManager.dungeons.Values`participants, lifecycle.dungeonManager.dungeons.Values`players
      modifies lifecycle.dungeonManager.dungeons.Values`participantPlayerIds
      modifies lifecycle.dungeonManager.dungeons.Values`playerSessions
      modifies lifecycle.dungeonManager.dungeons.Values`disconnectedSince, lifecycle.dungeonManager.dungeons.Values`state
      modifies lifecycle.dungeonManager.Characters()`position, lifecycle.dungeonManager.Characters()`roomId
      modifies lifecycle.dungeonManager.Characters()`currentMp, lifecycle.dungeonManager.Characters()`cooldowns
      modifies lifecycle.dungeonManager.Characters()`action
      modifies lifecycle.dungeonManager.Rooms()`currentWave, lifecycle.dungeonManager.Rooms()`enemies
      modifies lifecycle.udpManager`sessions, lifecycle.udpManager.sessions.Values
      ensures Ready() && SweptAway(old(lifecycle.View()), p.swept, p.sweep, now)
      ensures WholeTick(old(Ledger()), p, Ledger(), Allowed(now))
      ensures Usable(old(Ledger())) ==>
        AllOnTime(Ledger(), Limits(now, reconnectGrace, maxDungeonLifetime, readyTimeout, udpIdleTimeout))
      ensures Played(old(Ledger()), p, turns, now)
    {
      hide Ready, DungeonLifecycleService.View, ListsOnce, ConsideredAll, RanAll, FadedAll, DungeonManager.Rooms;
      hide SweptAway, TurnsTaken, OnlyInsides, FewerInsides, Insides;
      hide DungeonManager.Characters, WaitingIds, RunningIds, FinishedIds, ReleasedIds, Swept, Invariant, Settled;
      hide Usable, AllOnTime, Positive;
      ghost var w, before := lifecycle.View(), Ledger();
      Resting();
      var sweep := SweepAway(now);
      ghost var swept := lifecycle.View();
      Resting();
      SweptAwayParts(w, swept, sweep, now);
      lifecycle.dungeonManager.FewerObjects();
      ghost var waiting := HandleWaiting(now);
      lifecycle.dungeonManager.FewerObjects();
      SameUdp();
      ghost var running, cleared, finished;
      running, cleared, turns, finished := RunAndFade(now);
      p := Passes(swept, sweep, waiting, running, cleared, finished);
      if Usable(before) {
        TickLeavesNothingOverdue(before, p, Ledger(), Allowed(now));
      }
    }

    /** The last two passes. */
    method RunAndFade(now: Time)
      returns (ghost running: seq<DungeonId>, ghost cleared: set<DungeonId>, ghost turns: RunningTurns,
        ghost finished: seq<DungeonId>)
      requires Ready()
      modifies this`waitingSince, this`finishedSince, combat`pendingHits
      modifies lifecycle.dungeonManager`dungeons, lifecycle.dungeonManager`partyDungeons
      modifies lifecycle.dungeonManager.dungeons.Values`state
      modifies lifecycle.dungeonManager.Characters()`position, lifecycle.dungeonManager.Characters()`roomId
      modifies lifecycle.dungeonManager.Characters()`currentMp, lifecycle.dungeonManager.Characters()`cooldowns
      modifies lifecycle.dungeonManager.Characters()`action
      modifies lifecycle.dungeonManager.Rooms()`currentWave, lifecycle.dungeonManager.Rooms()`enemies
      modifies lifecycle.udpManager`sessions, lifecycle.udpManager.sessions.Values
      ensures Ready() && waitingSince == old(waitingSince) && ListsOnce(running, RunningIds(old(lifecycle.View())))
      ensures
        var ran := RanAll(old(Fading()), running, now, udpIdleTimeout, cleared);
        ListsOnce(finished, FinishedIds(ran.w)) && Fading() == FadedAll(ran, finished, now)
      ensures Finds(turns) && TurnsTaken(movement, combat, turns, running, now, udpIdleTimeout, cleared)
      ensures OnlyInsides(running, turns.before, turns.after) && FewerInsides(turns.after, Insides())
    {
      hide Ready, DungeonLifecycleService.View, ListsOnce, RanAll, FadedAll, DungeonManager.Rooms, Insides;
      hide DungeonManager.Characters, RunningIds, FinishedIds, TurnsTaken, OnlyInsides, FewerInsides;
      running, cleared, turns := HandleRunning(now);
      finished := FadeAfterTurns(now, turns, running, cleared);
    }

    /** What the turns have done stays done. */
    method FadeAfterTurns(
      now: Time, ghost turns: RunningTurns, ghost running: seq<DungeonId>, ghost cleared: set<DungeonId>)
      returns (ghost ids: seq<DungeonId>)
      requires Ready() && turns.all == lifecycle.dungeonManager.dungeons
      requires TurnsTaken(movement, combat, turns, running, now, udpIdleTimeout, cleared)
      modifies this`waitingSince, this`finishedSince
      modifies lifecycle.dungeonManager`dungeons, lifecycle.dungeonManager`partyDungeons
      modifies lifecycle.dungeonManager.dungeons.Values`state, lifecycle.udpManager`sessions
      ensures Ready() && ListsOnce(ids, FinishedIds(old(lifecycle.View())))
      ensures Fading() == FadedAll(old(Fading()), ids, now) && waitingSince == old(waitingSince)
      ensures FewerInsides(old(Insides()), Insides())
      ensures TurnsTaken(movement, combat, turns, running, now, udpIdleTimeout, cleared)
    {
      hide Ready, Fading, ListsOnce, FadedAll, FinishedIds, TurnTaken, MovementsOf, AttacksOf, Insides, FewerInsides;
      hide DungeonManager.Rooms, DungeonManager.Characters, DungeonLifecycleService.View;
      ids := HandleFinished(now);
    }

    /** What the pass over the running dungeons has come to: each has had its turn with what had come for
        it before the pass, and inside all others, and ever since, nothing has changed. */
    ghost predicate Played(before: Books, p: Passes, turns: RunningTurns, now: Time)
      reads combat`pendingHits, lifecycle.dungeonManager`dungeons, lifecycle.dungeonManager.dungeons.Values`players,
        lifecycle.dungeonManager.Characters(), lifecycle.dungeonManager.Rooms()
      reads turns.all.Values`disconnectedSince, RoomsIn(turns.all)`obstacles
    {
      && turns.udp == PassOverWaiting(before, p, Allowed(now)).w.udp
      && TurnsTaken(movement, combat, turns, p.running, now, udpIdleTimeout, p.cleared)
      && OnlyInsides(p.running, turns.before, turns.after) && FewerInsides(turns.after, Insides())
    }

    lemma Resting()
      requires Ready()
      ensures Invariant(lifecycle.View()) && Settled(lifecycle.View())
      ensures forall now :: Positive(Allowed(now))
    {
      hide Invariant;
    }

    /** A tick. A stopped service does nothing, a timer that fails stops it; otherwise the tick is
        counted and its deadline moves on, and in between the dungeons get their due. */
    method HandleTick(timer: TimerResult, now: Time, end: Time) returns (ghost p: Passes, ghost turns: RunningTurns)
      requires Ready()
      modifies this`running, this`nextTick, this`processedTickCount, this`missedTickCount
      modifies this`waitingSince, this`finishedSince, combat`pendingHits
      modifies lifecycle.dungeonManager`dungeons, lifecycle.dungeonManager`partyDungeons
      modifies lifecycle.dungeonManager.dungeons.Values`participants, lifecycle.dungeonManager.dungeons.Values`players
      modifies lifecycle.dungeonManager.dungeons.Values`participantPlayerIds
      modifies lifecycle.dungeonManager.dungeons.Values`playerSessions
      modifies lifecycle.dungeonManager.dungeons.Values`disconnectedSince, lifecycle.dungeonManager.dungeons.Values`state
      modifies lifecycle.dungeonManager.Characters()`position, lifecycle.dungeonManager.Characters()`roomId
      modifies lifecycle.dungeonManager.Characters()`currentMp, lifecycle.dungeonManager.Characters()`cooldowns
      modifies lifecycle.dungeonManager.Characters()`action
      modifies lifecycle.dungeonManager.Rooms()`currentWave, lifecycle.dungeonManager.Rooms()`enemies
      modifies lifecycle.udpManager`sessions, lifecycle.udpManager.sessions.Values
      ensures running <==> old(running) && !timer.Failed?
      ensures old(running) && timer.Elapsed? ==>
        && Ready() && SweptAway(old(lifecycle.View()), p.swept, p.sweep, now)
        && WholeTick(old(Ledger()), p, Ledger(), Allowed(now))
        && (Usable(old(Ledger())) ==>
              AllOnTime(Ledger(), Limits(now, reconnectGrace, maxDungeonLifetime, readyTimeout, udpIdleTimeout)))
        && Played(old(Ledger()), p, turns, now)
      ensures Clock() == if old(running) && timer.Elapsed? then TickClock.Ticked(old(Clock()), end) else old(Clock())
      ensures !(old(running) && timer.Elapsed?) ==> lifecycle.View() == old(lifecycle.View())
    {
      hide Ready, DungeonLifecycleService.View, SweptAway, WholeTick, DungeonManager.Rooms, DungeonManager.Characters;
      hide Usable, AllOnTime, Played;
      p := Passes(lifecycle.View(), AbandonmentSweep([], []), [], [], {}, []);
      turns := RunningTurns(map[], map[], map[], map[], map[]);
      if !running || timer.Aborted? {
        return;
      }
      if timer.Failed? {
        Stop();
        return;
      }
      ghost var before := Ledger();
      p, turns := HandleDungeons(now);
      EndTick(end, before, p, turns, now);
    }

    /** Counting a tick touches no dungeon. */
    method EndTick(end: Time, ghost before: Books, ghost p: Passes, ghost turns: RunningTurns, ghost now: Time)
      requires Ready() && Played(before, p, turns, now)
      modifies this`nextTick, this`processedTickCount, this`missedTickCount
      ensures Ready() && Ledger() == old(Ledger()) && Clock() == TickClock.Ticked(old(Clock()), end)
      ensures Played(before, p, turns, now)
    {
      hide Ready, DungeonLifecycleService.View, Interiors, InteriorOf, HitsAt, TurnTaken, MovementsOf, AttacksOf;
      hide OnlyInsides, FewerInsides, PassOverWaiting, DungeonManager.Characters, DungeonManager.Rooms;
      InteriorsOfAll(lifecycle.dungeonManager, combat.pendingHits);
      Count(end);
      InteriorsOfAll(lifecycle.dungeonManager, combat.pendingHits);
      assert Insides() == old(Insides());
      assert TurnsTaken(movement, combat, turns, p.running, now, udpIdleTimeout, p.cleared);
    }

    method Count(end: Time)
      requires Ready()
      modifies this`nextTick, this`processedTickCount, this`missedTickCount
      ensures Ready() && Ledger() == old(Ledger()) && Clock() == TickClock.Ticked(old(Clock()), end)
    {
      hide DungeonManager.Valid, DungeonManager.Equipped, DungeonManager.Staffed, DungeonManager.View;
      hide DungeonUdpManager.View;
      hide DungeonUdpManager.Valid, Invariant, TickClock.Ticked;
      CountTick(end);
      lifecycle.dungeonManager.RoomsUntouched();
      lifecycle.dungeonManager.LeftStaffed();
    }

    /** The limits the service was made with. */
    ghost function Allowed(now: Time): Limits {
      Limits(now, reconnectGrace, maxDungeonLifetime, readyTimeout, udpIdleTimeout)
    }

    lemma SweptAwayParts(w: World, w': World, sweep: AbandonmentSweep, now: Time)
      requires SweptAway(w, w', sweep, now)
      ensures w'.registry == Swept(w.registry, w.registry.dungeons.Keys, now, reconnectGrace, maxDungeonLifetime)
      ensures ListsOnce(sweep.releasedDungeons,
        ReleasedIds(w.registry, w.registry.dungeons.Keys, now, reconnectGrace, maxDungeonLifetime))
    {
    }

    /** The checks, in their order. */
    function VerdictOn(dungeonId: DungeonId, now: Time): (verdict: Verdict)
      requires lifecycle.dungeonManager.Valid() && lifecycle.udpManager.Valid()
      requires dungeonId in lifecycle.View().registry.dungeons
      reads this`waitingSince, lifecycle, lifecycle.dungeonManager, lifecycle.dungeonManager.dungeons.Values,
        lifecycle.udpManager, lifecycle.udpManager.sessions.Values
      ensures verdict == Judged(At(View(), dungeonId), now, readyTimeout)
    {
      GoneInSeats(dungeonId);
      CompleteIs(dungeonId);
      JudgedBy(View(), dungeonId, now, readyTimeout);
      if lifecycle.dungeonManager.dungeons[dungeonId].HasDisconnectedParticipants() then Paused
      else if lifecycle.udpManager.AllParticipantsAuthenticated(dungeonId) then Complete
      else if dungeonId !in waitingSince then FirstSeen
      else if now - waitingSince[dungeonId] >= readyTimeout then TooLate
      else StillWaiting
    }

    lemma GoneInSeats(dungeonId: DungeonId)
      requires lifecycle.dungeonManager.Valid()
      ensures dungeonId in lifecycle.dungeonManager.dungeons <==> dungeonId in lifecycle.View().registry.dungeons
      ensures dungeonId in lifecycle.dungeonManager.dungeons ==>
        lifecycle.dungeonManager.dungeons[dungeonId].Indexed()
      ensures dungeonId in lifecycle.dungeonManager.dungeons ==>
        (lifecycle.dungeonManager.dungeons[dungeonId].HasDisconnectedParticipants() <==>
         SomebodyGone(lifecycle.View().registry.dungeons[dungeonId]))
    {
      hide DungeonManager.Dungeons, Sound, SeatIndex.Indexed, DungeonInstance.Seats;
      lifecycle.dungeonManager.Held(dungeonId);
      if dungeonId in lifecycle.dungeonManager.dungeons {
        lifecycle.dungeonManager.Apart(dungeonId);
      }
    }

    method StartWaiting(dungeonId: DungeonId, now: Time)
      requires Ready() && dungeonId in WaitingIds(lifecycle.View()) && EndpointsComplete(lifecycle.View(), dungeonId)
      requires !SomebodyGone(lifecycle.View().registry.dungeons[dungeonId])
      modifies lifecycle.dungeonManager.dungeons.Values`state
      modifies lifecycle.dungeonManager.Rooms()`currentWave, lifecycle.dungeonManager.Rooms()`enemies
      modifies lifecycle.udpManager.sessions.Values`lastActivity
      ensures Ready() && lifecycle.View() == StartedWorld(old(lifecycle.View()), dungeonId, now)
    {
      hide Ready, DungeonLifecycleService.View, WithState, Carried;
      StartDungeon(dungeonId, now);
    }

    method CancelWaiting(dungeonId: DungeonId)
      requires Ready() && dungeonId in WaitingIds(lifecycle.View())
      modifies lifecycle.dungeonManager`dungeons, lifecycle.dungeonManager`partyDungeons, lifecycle.udpManager`sessions
      ensures Ready() && lifecycle.View() == CancelledWorld(old(lifecycle.View()), dungeonId)
      ensures Fewer(dungeonId)
    {
      hide Invariant, DungeonLifecycleService.View, DungeonLifecycleService.Valid, DungeonManager.Equipped;
      hide DungeonManager.Staffed, Closed, After;
      ghost var w := lifecycle.View();
      RestingWorld();
      CloseRun(w, Cancel(dungeonId), dungeonId);
      var cancelled := lifecycle.CancelWaitingDungeon(dungeonId);
    }

    lemma CompleteIs(dungeonId: DungeonId)
      requires lifecycle.udpManager.Valid()
      ensures lifecycle.udpManager.AllParticipantsAuthenticated(dungeonId) <==>
        EndpointsComplete(lifecycle.View(), dungeonId)
    {
    }

    lemma ReadyParts()
      requires Ready()
      ensures lifecycle.dungeonManager.Valid() && lifecycle.udpManager.Valid()
    {
    }

    lemma RestingWorld()
      requires lifecycle.Valid()
      ensures Invariant(lifecycle.View()) && lifecycle.View().releases == {} && lifecycle.View().entering == map[]
    {
    }
  }

  ghost function CancelledWorld(w: World, id: DungeonId): World
    requires id in w.registry.dungeons
  {
    w.(registry := Closed(w.registry, id), udp := w.udp - {id})
  }

  /** The judgement, in the terms of the checks. */
  lemma JudgedBy(g: Gate, id: DungeonId, now: Time, timeout: Time)
    requires id in g.w.registry.dungeons
    ensures Judged(At(g, id), now, timeout) ==
      if SomebodyGone(g.w.registry.dungeons[id]) then Paused
      else if EndpointsComplete(g.w, id) then Complete
      else if id !in g.since then FirstSeen
      else if now - g.since[id] >= timeout then TooLate
      else StillWaiting
  {
    hide SomebodyGone;
  }

  lemma PassBegins(g: Gate, ids: seq<DungeonId>, now: Time, timeout: Time)
    ensures ConsideredAll(g, ids[..0], now, timeout) == g
  {
  }

  lemma FadingBegins(g: Gate, ids: seq<DungeonId>, now: Time)
    ensures FadedAll(g, ids[..0], now) == g
  {
  }

  /** The next dungeon of the list is still there and finished when its turn comes. */
  lemma FadingNext(g: Gate, ids: seq<DungeonId>, i: nat, now: Time)
    requires ListsOnce(ids, FinishedIds(g.w)) && i < |ids|
    ensures
      var before := FadedAll(g, ids[..i], now);
      && ids[i] in FinishedIds(before.w)
      && FadedAll(g, ids[..i + 1], now) == Faded(before, ids[i], now)
  {
    hide Faded;
    assert ids[..i + 1][..i] == ids[..i] && ids[i] !in ids[..i];
    assert ids[i] in FinishedIds(g.w);
    forall k | k in ids[..i]
      ensures k in g.w.registry.dungeons
    {
      assert k in ids;
      assert k in FinishedIds(g.w);
    }
    FadingAt(g, ids[..i], now, ids[i]);
    assert At(FadedAll(g, ids[..i], now), ids[i]) == At(g, ids[i]);
  }

  /** The next dungeon of the list is still waiting when its turn comes. */
  lemma PassNext(g: Gate, ids: seq<DungeonId>, i: nat, now: Time, timeout: Time)
    requires ListsOnce(ids, WaitingIds(g.w)) && i < |ids|
    ensures
      var before := ConsideredAll(g, ids[..i], now, timeout);
      && ids[i] in WaitingIds(before.w)
      && ConsideredAll(g, ids[..i + 1], now, timeout) == Considered(before, ids[i], now, timeout)
  {
    hide Considered;
    assert ids[..i + 1][..i] == ids[..i] && ids[i] !in ids[..i];
    assert ids[i] in WaitingIds(g.w);
    forall k | k in ids[..i]
      ensures k in g.w.registry.dungeons
    {
      assert k in ids;
      assert k in WaitingIds(g.w);
    }
    PassAt(g, ids[..i], now, timeout, ids[i]);
    assert At(ConsideredAll(g, ids[..i], now, timeout), ids[i]) == At(g, ids[i]);
  }

  lemma ListedWaiting(ids: seq<DungeonId>, waiting: set<DungeonId>)
    requires ListsOnce(ids, waiting)
    ensures forall id :: id in ids <==> id in waiting
  {
  }

  function SinceAfter(verdict: Verdict, since: map<DungeonId, Time>, id: DungeonId, now: Time): map<DungeonId, Time> {
    match verdict
    case FirstSeen => since[id := now]
    case StillWaiting => since
    case _ => since - {id}
  }

  lemma IsWaiting(w: World, id: DungeonId)
    requires id in WaitingIds(w)
    ensures id in w.registry.dungeons
  {
  }

  lemma ConsideredIs(g: Gate, id: DungeonId, now: Time, timeout: Time)
    requires id in g.w.registry.dungeons
    ensures
      var verdict := Judged(At(g, id), now, timeout);
      && (verdict.Complete? ==> EndpointsComplete(g.w, id) && !SomebodyGone(g.w.registry.dungeons[id]))
      && Considered(g, id, now, timeout).since == SinceAfter(verdict, g.since, id, now)
      && Considered(g, id, now, timeout).w ==
           if verdict.Complete? then StartedWorld(g.w, id, now)
           else if verdict.TooLate? then CancelledWorld(g.w, id)
           else g.w
  {
    hide SomebodyGone, Handled;
  }

  ghost function StartedWorld(w: World, id: DungeonId, now: Time): World
    requires id in w.registry.dungeons
  {
    w.(registry := WithState(w.registry, id, Running), udp := Carried(w.udp, id, Refresh(now)))
  }
}
