/** The rest of what a tick does to the dungeons of the lifecycle (src/DungeonTickService.cpp): the
    sweep before the waiting ones are considered, the finished ones that have been shown long
    enough, and the two tables of times the service keeps for them. */
module TickBooks {
  import opened Common
  import opened SeatTable
  import opened DungeonInstances
  import opened DungeonRegistry
  import opened DungeonManagers
  import opened UdpSession
  import opened DungeonUdpManagers
  import opened LifecycleRuns
  import opened RunningPass
  import opened StartGate

  /** One second, in microseconds. */
  const FINISHED_BROADCAST_DURATION: Time := 1_000_000

  /** The world, since when each waiting dungeon has been incomplete, and since when each finished
      one has been finished, as far as the service knows. */
  datatype Books = Books(w: World, waiting: map<DungeonId, Time>, finished: map<DungeonId, Time>)

  ghost function FinishedIds(w: World): set<DungeonId> {
    set id | id in w.registry.dungeons && w.registry.dungeons[id].state.Finished?
  }

  ghost function Without(since: map<DungeonId, Time>, gone: seq<DungeonId>): map<DungeonId, Time> {
    map id | id in since && id !in gone :: since[id]
  }

  // ---------------------------------------------------------------- the finished dungeons

  ghost predicate ShownEnough(seen: Glance, now: Time) {
    seen.since.Some? && now - seen.since.value >= FINISHED_BROADCAST_DURATION
  }

  /** One finished dungeon: noted when it is new, gone when it has been shown long enough. */
  ghost function Faded(g: Gate, id: DungeonId, now: Time): Gate
    requires id in g.w.registry.dungeons
  {
    if ShownEnough(At(g, id), now) then
      Gate(g.w.(registry := Closed(g.w.registry, id), udp := g.w.udp - {id}), g.since - {id})
    else if id in g.since then g
    else g.(since := g.since[id := now])
  }

  ghost function AfterFading(seen: Glance, now: Time): Glance {
    if ShownEnough(seen, now) then Glance(None, None, None)
    else if seen.since.Some? then seen
    else seen.(since := Some(now))
  }

  ghost function FadedAll(g: Gate, ids: seq<DungeonId>, now: Time): Gate {
    if ids == [] then g
    else
      var before := FadedAll(g, ids[..|ids| - 1], now);
      var id := ids[|ids| - 1];
      if id in before.w.registry.dungeons then Faded(before, id, now) else before
  }

  lemma FadedAt(g: Gate, id: DungeonId, now: Time, other: DungeonId)
    requires id in g.w.registry.dungeons
    ensures At(Faded(g, id, now), other) == if other == id then AfterFading(At(g, id), now) else At(g, other)
  {
  }

  /** Where a dungeon stands in the pass: fading one leaves the others alone. */
  lemma {:induction false} FadingAt(g: Gate, ids: seq<DungeonId>, now: Time, id: DungeonId)
    requires Distinct(ids) && forall i :: i in ids ==> i in g.w.registry.dungeons
    ensures At(FadedAll(g, ids, now), id) == if id in ids then AfterFading(At(g, id), now) else At(g, id)
    ensures
      var seen, after := At(g, id), At(FadedAll(g, ids, now), id);
      id in ids ==>
        if seen.since.Some? && now - seen.since.value >= 1_000_000 then after == Glance(None, None, None)
        else
          && after.dungeon == seen.dungeon && after.udp == seen.udp
          && after.since == Some(if seen.since.Some? then seen.since.value else now)
  {
    if ids != [] {
      hide Faded, AfterFading;
      var init, last := ids[..|ids| - 1], ids[|ids| - 1];
      FadingAt(g, init, now, id);
      FadingAt(g, init, now, last);
      assert ids == init + [last] && last !in init;
      FadedAt(FadedAll(g, init, now), last, now, id);
    }
  }

  // ---------------------------------------------------------------- the tick as a whole

  /** What a tick has gone through: the sweep and the world it left, the dungeons found waiting,
      those found running and, of them, those cleared, and the dungeons found finished. */
  datatype Passes = Passes(
    swept: World, sweep: AbandonmentSweep, waiting: seq<DungeonId>, running: seq<DungeonId>, cleared: set<DungeonId>,
    finished: seq<DungeonId>)

  /** The time of a tick, and how long a seat, a dungeon, a ready check and an endpoint may take. */
  datatype Limits = Limits(now: Time, grace: Time, lifetime: Time, timeout: Time, idle: Time)

  ghost predicate Positive(l: Limits) {
    l.grace > 0 && l.lifetime > 0 && l.timeout > 0 && l.idle > 0
  }

  /** The sweep, then the passes over the waiting, the running and the finished dungeons. */
  ghost predicate WholeTick(before: Books, p: Passes, after: Books, l: Limits) {
    var started := PassOverWaiting(before, p, l);
    var ran := PassOverRunning(before, p, l);
    var faded := FadedAll(ran, p.finished, l.now);
    && p.swept.registry == Swept(before.w.registry, before.w.registry.dungeons.Keys, l.now, l.grace, l.lifetime)
    && ListsOnce(p.sweep.releasedDungeons,
         ReleasedIds(before.w.registry, before.w.registry.dungeons.Keys, l.now, l.grace, l.lifetime))
    && ListsOnce(p.waiting, WaitingIds(p.swept)) && ListsOnce(p.running, RunningIds(started.w))
    && ListsOnce(p.finished, FinishedIds(ran.w))
    && after == Books(faded.w, started.since, faded.since)
  }

  ghost function PassOverWaiting(before: Books, p: Passes, l: Limits): Gate {
    var g := Gate(p.swept, Without(before.waiting, p.sweep.releasedDungeons));
    Tidied(ConsideredAll(g, p.waiting, l.now, l.timeout), WaitingIds(p.swept))
  }

  ghost function PassOverRunning(before: Books, p: Passes, l: Limits): Gate {
    var g := Gate(PassOverWaiting(before, p, l).w, Without(before.finished, p.sweep.releasedDungeons));
    RanAll(g, p.running, l.now, l.idle, p.cleared)
  }

  /** The tables mention only dungeons that are there, in the state the table is about. */
  ghost predicate Bookkept(b: Books) {
    b.waiting.Keys <= WaitingIds(b.w) && b.finished.Keys <= FinishedIds(b.w)
  }

  ghost predicate IsRunning(seen: Glance) {
    seen.dungeon.Some? && seen.dungeon.value.state.Running?
  }

  ghost predicate IsFinished(seen: Glance) {
    seen.dungeon.Some? && seen.dungeon.value.state.Finished?
  }

  /** A dungeon after the pass over the waiting ones, with the time at which it was found finished. */
  ghost function AfterWaiting(before: Books, p: Passes, l: Limits, id: DungeonId): Glance {
    var seen := At(Gate(p.swept, Without(before.waiting, p.sweep.releasedDungeons)), id);
    var judged := if id in WaitingIds(p.swept) then AfterJudgement(seen, l.now, l.timeout) else seen;
    Glance(judged.dungeon, judged.udp, Lookup(Without(before.finished, p.sweep.releasedDungeons), id))
  }

  /** And after its turn, if it had one. */
  ghost function AfterRunning(before: Books, p: Passes, l: Limits, id: DungeonId): Glance {
    var seen := AfterWaiting(before, p, l, id);
    if IsRunning(seen) then AfterTurn(seen, l.now, l.idle, id in p.cleared) else seen
  }

  /** What the three passes make of one dungeon that the sweep has left. */
  lemma TickAt(before: Books, p: Passes, after: Books, l: Limits, id: DungeonId)
    requires WholeTick(before, p, after, l)
    ensures
      var seen := AfterRunning(before, p, l, id);
      At(Gate(after.w, after.finished), id) == if IsFinished(seen) then AfterFading(seen, l.now) else seen
    ensures Lookup(after.waiting, id) ==
      if id !in WaitingIds(p.swept) then None
      else AfterJudgement(At(Gate(p.swept, Without(before.waiting, p.sweep.releasedDungeons)), id), l.now, l.timeout).since
  {
    hide AfterJudgement, AfterFading, AfterTurn, ConsideredAll, FadedAll, RanAll, Swept, ReleasedIds;
    WaitingAt(before, p, l, id);
    var started, ran := PassOverWaiting(before, p, l), PassOverRunning(before, p, l);
    InList(p.running, RunningIds(started.w));
    RunningAt(
      Gate(started.w, Without(before.finished, p.sweep.releasedDungeons)), p.running, l.now, l.idle, p.cleared, id);
    InList(p.finished, FinishedIds(ran.w));
    FadingAt(ran, p.finished, l.now, id);
  }

  lemma WaitingAt(before: Books, p: Passes, l: Limits, id: DungeonId)
    requires ListsOnce(p.waiting, WaitingIds(p.swept))
    ensures
      var started := PassOverWaiting(before, p, l);
      var seen := At(Gate(p.swept, Without(before.waiting, p.sweep.releasedDungeons)), id);
      var judged := if id in WaitingIds(p.swept) then AfterJudgement(seen, l.now, l.timeout) else seen;
      && Lookup(started.w.registry.dungeons, id) == judged.dungeon && Lookup(started.w.udp, id) == judged.udp
      && Lookup(started.since, id) == if id in WaitingIds(p.swept) then judged.since else None
  {
    hide AfterJudgement, ConsideredAll;
    InList(p.waiting, WaitingIds(p.swept));
    PassAt(Gate(p.swept, Without(before.waiting, p.sweep.releasedDungeons)), p.waiting, l.now, l.timeout, id);
  }

  lemma InList(ids: seq<DungeonId>, members: set<DungeonId>)
    requires ListsOnce(ids, members)
    ensures Distinct(ids) && forall id :: id in ids <==> id in members
  {
  }

  /** Whatever is left in a state table after the passes is what the table is about. */
  lemma KeptInBooks(before: Books, p: Passes, after: Books, l: Limits, id: DungeonId)
    requires WholeTick(before, p, after, l) && Usable(before)
    ensures id in after.waiting ==> id in WaitingIds(after.w)
    ensures id in after.finished ==> id in FinishedIds(after.w)
  {
    hide WholeTick, SomebodyGone, Handled;
    TickAt(before, p, after, l, id);
    FinishedStay(before, p, after, l, id);
  }

  /** A dungeon noted as finished is still there after the sweep, unless the sweep has released it. */
  lemma FinishedStay(before: Books, p: Passes, after: Books, l: Limits, id: DungeonId)
    requires WholeTick(before, p, after, l) && Usable(before)
    ensures id in Without(before.finished, p.sweep.releasedDungeons) ==>
      id in p.swept.registry.dungeons && p.swept.registry.dungeons[id].state.Finished?
  {
    hide ConsideredAll, RanAll, FadedAll, Swept, ReleasedIds;
    SweptRosters(before.w.registry, before.w.registry.dungeons.Keys, l.now, l.grace, l.lifetime);
  }

  /** After a tick every timer has been obeyed: no dungeon is older than its lifetime, no seat is
      overdue, no dungeon waits although it is complete or has been incomplete for the timeout, no
      running one has an idle endpoint or an input left, no finished one has been shown long
      enough; and the tables of times mention nothing else. */
  lemma TickLeavesNothingOverdue(before: Books, p: Passes, after: Books, l: Limits)
    requires WholeTick(before, p, after, l) && Positive(l)
    requires Invariant(before.w) && Usable(before) && Invariant(p.swept) && Settled(p.swept)
    ensures AllOnTime(after, l)
  {
    hide WholeTick, Invariant, Settled, OnTime;
    forall id
      ensures id in after.waiting ==> id in WaitingIds(after.w)
      ensures id in after.finished ==> id in FinishedIds(after.w)
    {
      KeptInBooks(before, p, after, l, id);
    }
    forall id | id in after.w.registry.dungeons
      ensures OnTime(after, id, l)
    {
      LeftOnTime(before, p, after, l, id);
    }
  }

  ghost predicate AllOnTime(b: Books, l: Limits) {
    Bookkept(b) && forall id :: id in b.w.registry.dungeons ==> OnTime(b, id, l)
  }

  ghost predicate OnTime(b: Books, id: DungeonId, l: Limits)
    requires id in b.w.registry.dungeons
  {
    var d := b.w.registry.dungeons[id];
    && Occupied(d, l)
    && (d.state.Waiting? ==>
          || SomebodyGone(d)
          || (&& id in b.w.udp && b.w.udp[id].endpoints.Keys != d.roster.seats.Keys
              && id in b.waiting && l.now - b.waiting[id] < l.timeout))
    && (d.state.Running? ==> id in b.w.udp && Awake(b.w.udp[id], l))
    && (d.state.Finished? ==> id in b.finished && l.now - b.finished[id] < FINISHED_BROADCAST_DURATION)
  }

  /** Young enough, somebody in it, and nobody overdue. */
  ghost predicate Occupied(d: Dungeon, l: Limits) {
    && l.now < d.createdAt + l.lifetime && d.roster.seats != map[]
    && forall s :: s in d.roster.seats ==>
         d.roster.seats[s].since.None? || l.now < d.roster.seats[s].since.value + l.grace
  }

  ghost predicate Awake(u: Udp, l: Limits) {
    && (forall s :: s in u.lastActivity ==> l.now < u.lastActivity[s] + l.idle)
    && u.movements.queue == [] && u.attacks.queue == []
  }

  lemma LeftOnTime(before: Books, p: Passes, after: Books, l: Limits, id: DungeonId)
    requires WholeTick(before, p, after, l) && Positive(l)
    requires Invariant(before.w) && Invariant(p.swept) && Settled(p.swept) && id in after.w.registry.dungeons
    ensures OnTime(after, id, l)
  {
    hide WholeTick, Invariant, Settled, SomebodyGone, Handled, Occupied, AfterRunning, AfterFading, Awake;
    LeftOccupied(before, p, after, l, id);
    CoupledAt(p.swept, id);
    if after.w.registry.dungeons[id].state.Waiting? {
      LeftWaiting(before, p, after, l, id);
    } else if after.w.registry.dungeons[id].state.Running? {
      LeftRunning(before, p, after, l, id);
    } else {
      LeftFinished(before, p, after, l, id);
    }
  }

  lemma LeftOccupied(before: Books, p: Passes, after: Books, l: Limits, id: DungeonId)
    requires WholeTick(before, p, after, l) && Positive(l) && Invariant(before.w) && id in after.w.registry.dungeons
    ensures id in p.swept.registry.dungeons && Occupied(after.w.registry.dungeons[id], l)
  {
    hide WholeTick, Invariant, SomebodyGone, Handled, Occupied, Attended;
    TickAt(before, p, after, l, id);
    OccupiedAfterSweep(before, p, after, l, id);
  }

  lemma LeftWaiting(before: Books, p: Passes, after: Books, l: Limits, id: DungeonId)
    requires WholeTick(before, p, after, l) && Positive(l)
    requires id in p.swept.udp && id in p.swept.registry.dungeons
    requires p.swept.udp[id].tokens.Keys == p.swept.registry.dungeons[id].roster.seats.Keys
    requires id in after.w.registry.dungeons && after.w.registry.dungeons[id].state.Waiting?
    ensures SomebodyGone(after.w.registry.dungeons[id]) ||
      (&& id in after.w.udp && after.w.udp[id].endpoints.Keys != after.w.registry.dungeons[id].roster.seats.Keys
       && id in after.waiting && l.now - after.waiting[id] < l.timeout)
  {
    hide WholeTick, SomebodyGone, Handled, Attended;
    TickAt(before, p, after, l, id);
  }

  lemma LeftRunning(before: Books, p: Passes, after: Books, l: Limits, id: DungeonId)
    requires WholeTick(before, p, after, l) && Positive(l) && id in p.swept.udp
    requires id in after.w.registry.dungeons && after.w.registry.dungeons[id].state.Running?
    ensures id in after.w.udp && Awake(after.w.udp[id], l)
  {
    hide WholeTick, SomebodyGone, Handled, Attended, IdleSessions;
    TickAt(before, p, after, l, id);
    TurnSilencesTheIdle(p.swept.udp[id], l.now, l.idle);
    TurnSilencesTheIdle(Handled(p.swept.udp[id], Refresh(l.now)), l.now, l.idle);
  }

  lemma LeftFinished(before: Books, p: Passes, after: Books, l: Limits, id: DungeonId)
    requires WholeTick(before, p, after, l)
    requires id in after.w.registry.dungeons && after.w.registry.dungeons[id].state.Finished?
    ensures id in after.finished && l.now - after.finished[id] < FINISHED_BROADCAST_DURATION
  {
    hide WholeTick, AfterRunning;
    TickAt(before, p, after, l, id);
  }

  lemma OccupiedAfterSweep(before: Books, p: Passes, after: Books, l: Limits, id: DungeonId)
    requires WholeTick(before, p, after, l) && Positive(l)
    requires Invariant(before.w)
    ensures id in p.swept.registry.dungeons ==> forall state :: Occupied(p.swept.registry.dungeons[id].(state := state), l)
  {
    hide ConsideredAll, RanAll, FadedAll, Swept, ReleasedIds, ListsOnce, Overdue;
    SoundOf(before.w);
    hide Invariant, Sound;
    SweepLeavesNothingOverdue(before.w.registry, l.now, l.grace, l.lifetime);
  }

  lemma SoundOf(w: World)
    requires Invariant(w)
    ensures Sound(w.registry)
  {
  }

  /** No dungeon has gone but those in `gone`, and none has changed its state but those cleared. */
  ghost predicate OnlyCleared(m: Registry, m': Registry, gone: set<DungeonId>) {
    forall id :: id in m.dungeons && id !in gone ==>
      id in m'.dungeons && SameOrCleared(m.dungeons[id].state, m'.dungeons[id].state)
  }

  ghost predicate SameOrCleared(before: DungeonState, after: DungeonState) {
    after == before || (before.Running? && after.Finished?)
  }

  lemma StatesKept(m: Registry, m': Registry)
    requires SameStates(m, m') && m'.dungeons.Keys == m.dungeons.Keys
    ensures OnlyCleared(m, m', {})
  {
  }

  lemma OpenedStates(m: Registry, party: PartyId, now: Time, roster: Roster)
    requires m.next !in m.dungeons
    ensures OnlyCleared(m, Opened(m, party, now, roster), {})
  {
  }

  lemma ClosedStates(m: Registry, id: DungeonId)
    requires Cancellable(m, id)
    ensures OnlyCleared(m, Closed(m, id), {id})
  {
  }

  /** What a step other than the tick's own does to the states: a request that gives up takes back
      its own dungeon, which waits. */
  ghost function TakenBack(w: World, e: Event): set<DungeonId> {
    if e.GiveUp? && Cancellable(w.registry, e.id) then {e.id} else {}
  }

  lemma EventStates(w: World, e: Event)
    requires Enabled(w, e) && !e.Sweep? && !e.Start? && !e.Cancel? && !e.Finish?
    requires w.registry.next !in w.registry.dungeons
    ensures OnlyCleared(w.registry, Next(w, e).registry, TakenBack(w, e))
  {
    hide CanAnswer, Answered, Departed, CanReturn, Returned, Opened, Closed, OnlyCleared, Possible;
    hide Handled, Quieted, Replaced, Untokened, ReplacementAccepted, FreshRoster, FreshTokens, AllocationAccepted;
    hide Cancellable, SomebodyGone, SameStates;
    var m := w.registry;
    assert m == w.registry;
    if e.Open? {
      OpenedStates(m, e.party, e.now, e.roster);
    } else if e.GiveUp? && Cancellable(m, e.id) {
      ClosedStates(m, e.id);
    } else if e.Register? {
      AnsweredStates(m, e.s, e.player, e.now, e.grace, e.r);
      StatesKept(m, Answered(m, e.s, e.player, e.grace, e.r));
    } else if e.ReturnSeat? {
      var r := w.reconnects[e.s];
      if CanReturn(m, r.id, r.player, e.s, r.old_) {
        ReturnedStates(m, r.id, r.player, e.s, r.old_, r.at);
        StatesKept(m, Returned(m, r.id, r.player, e.s, r.old_, r.at));
      } else {
        NothingChanged(m);
      }
    } else if e.Abandon? || e.Disconnect? {
      DepartedStates(m, e.s, e.at, e.found);
      StatesKept(m, Departed(m, e.s, e.at, e.found));
    } else if e.Clear? {
      ClearedStates(m, e.id);
    } else {
      NothingChanged(m);
    }
  }

  lemma ClearedStates(m: Registry, id: DungeonId)
    requires id in m.dungeons && m.dungeons[id].state.Running?
    ensures OnlyCleared(m, WithState(m, id, Finished), {})
  {
  }

  lemma NothingChanged(m: Registry)
    ensures OnlyCleared(m, m, {})
  {
  }

  /** What the service's passes rest on. The table of the waiting need not be up to date. */
  ghost predicate Usable(b: Books) {
    b.finished.Keys <= FinishedIds(b.w)
  }

  /** Between its passes no step of another call spoils that. Only a request that gives up can make
      an entry stale, the one of its own dungeon; that number never comes back, and the next pass
      forgets it. */
  lemma OthersKeepBooks(b: Books, e: Event)
    requires Invariant(b.w) && Enabled(b.w, e) && Usable(b)
    requires !e.Sweep? && !e.Start? && !e.Cancel? && !e.Finish?
    ensures Usable(b.(w := Next(b.w, e)))
    ensures b.waiting.Keys <= WaitingIds(b.w) ==> b.waiting.Keys <= WaitingIds(Next(b.w, e)) + TakenBack(b.w, e)
  {
    hide Next, Enabled, Invariant, Sound, OnlyCleared, TakenBack, WaitingIds, FinishedIds;
    SoundOf(b.w);
    NextIsNew(b.w.registry);
    EventStates(b.w, e);
    TakenBackWaits(b.w, e);
    StatesStay(b.w, Next(b.w, e), TakenBack(b.w, e));
  }

  lemma TakenBackWaits(w: World, e: Event)
    ensures TakenBack(w, e) <= WaitingIds(w)
  {
  }

  lemma StatesStay(w: World, w': World, gone: set<DungeonId>)
    requires OnlyCleared(w.registry, w'.registry, gone) && gone <= WaitingIds(w)
    ensures FinishedIds(w) <= FinishedIds(w') && WaitingIds(w) <= WaitingIds(w') + gone
  {
  }
}
