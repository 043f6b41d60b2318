/** What the lifecycle code does not promise, as runs of its locked sections that end badly, and
    how far each promise reaches. */
module LifecycleGaps {
  import opened Common
  import opened SeatTable
  import opened PlayerState
  import opened DungeonInstances
  import opened DungeonRegistry
  import opened UdpSession
  import opened DungeonUdpManagers
  import opened LifecycleRuns

  // ---------------------------------------------------------------- a disconnect is noted once

  ghost predicate PresentIn(m: Registry, id: DungeonId, s: SessionId) {
    Seated(m, id, s) && m.dungeons[id].roster.seats[s].since.None?
  }

  /** After the disconnect no dungeon counts the session as present. */
  ghost predicate ReachesAll(m: Registry, s: SessionId, at: Time, found: Option<DungeonId>)
    requires CanReport(m, s, found)
  {
    forall id :: !PresentIn(Departed(m, s, at, found), id, s)
  }

  lemma ReachedBy(m: Registry, s: SessionId, at: Time, found: Option<DungeonId>)
    requires s != 0 && CanReport(m, s, found)
    ensures ReachesAll(m, s, at, found) <==> forall id: DungeonId :: PresentIn(m, id, s) ==> found == Some(id)
  {
    var m' := Departed(m, s, at, found);
    assert forall id :: Seated(m', id, s) <==> Seated(m, id, s);
    forall id: DungeonId | Seated(m, id, s)
      ensures PresentIn(m', id, s) <==> PresentIn(m, id, s) && found != Some(id)
    {
    }
  }

  ghost predicate OnlySeat(m: Registry, s: SessionId) {
    forall id, other :: PresentIn(m, id, s) && Seated(m, other, s) ==> id == other
  }

  /** A disconnect is noted in one dungeon only, whichever the search comes to first. It reaches
      every seat of the session, whatever the search finds, if and only if a session that counts
      as present anywhere has no other seat. */
  lemma DepartureReachesAll(m: Registry, s: SessionId, at: Time)
    requires s != 0
    ensures (forall found | CanReport(m, s, found) :: ReachesAll(m, s, at, found)) <==> OnlySeat(m, s)
  {
    hide Departed, ReachesAll;
    forall found | CanReport(m, s, found)
      ensures ReachesAll(m, s, at, found) <==> forall id: DungeonId :: PresentIn(m, id, s) ==> found == Some(id)
    {
      ReachedBy(m, s, at, found);
    }
    if OnlySeat(m, s) {
      forall found | CanReport(m, s, found)
        ensures ReachesAll(m, s, at, found)
      {
      }
    } else {
      var id, other :| PresentIn(m, id, s) && Seated(m, other, s) && id != other;
      assert CanReport(m, s, Some(other)) && !ReachesAll(m, s, at, Some(other));
    }
  }

  /** Player 7 has logged in under session 1. */
  const LOGIN := Register(1, 7, 0, 1, Registered(None))

  ghost function LoggedIn1(): World {
    START.(registry := NEW_REGISTRY.(authenticated := map[1 := 7], active := map[7 := 1]), registered := {1})
  }

  lemma LoginStep()
    ensures Enabled(START, LOGIN) && Next(START, LOGIN) == LoggedIn1() && After(START, [LOGIN]) == Some(LoggedIn1())
  {
    AfterOne(START, LOGIN);
  }

  ghost function SoleSeat(c: DungeonPlayerState): Roster {
    Roster([1], map[1 := Seat(Some(7), c, None)])
  }

  lemma SoleRoster(m: Registry, c: DungeonPlayerState)
    requires m.authenticated == map[1 := 7]
    ensures FreshRoster(m, [1], SoleSeat(c)) && FreshTokens(map[1 := 5], [1])
  {
    assert 1 in [1];
  }

  /** Session 1 enters dungeon `id` alone, as party `id`. */
  ghost function SoleOpen(id: DungeonId, now: Time, c: DungeonPlayerState): Event {
    Open(1, id, [1], now, SoleSeat(c))
  }

  ghost function SoleEnter(id: DungeonId, now: Time, c: DungeonPlayerState): seq<Event> {
    EnterSteps(id, SoleOpen(id, now, c), map[1 := 5])
  }

  ghost function Waits(now: Time, c: DungeonPlayerState, id: DungeonId): Dungeon {
    Dungeon(id, now, Waiting, SoleSeat(c))
  }

  /** Session 1 alone in one dungeon, and in two. */
  ghost function InOne(a: DungeonPlayerState, now: Time): World {
    LoggedIn1().(
      registry := LoggedIn1().registry.(
        next := 2, dungeons := map[1 := Waits(now, a, 1)], partyDungeons := map[1 := 1]),
      udp := map[1 := NewUdp(map[1 := 5])])
  }

  ghost function InTwo(a: DungeonPlayerState, b: DungeonPlayerState, now: Time): World {
    LoggedIn1().(
      registry := LoggedIn1().registry.(
        next := 3, dungeons := map[1 := Waits(now, a, 1), 2 := Waits(now, b, 2)], partyDungeons := map[1 := 1, 2 := 2]),
      udp := map[1 := NewUdp(map[1 := 5]), 2 := NewUdp(map[1 := 5])])
  }

  lemma EnterOne(a: DungeonPlayerState, now: Time)
    ensures After(LoggedIn1(), SoleEnter(1, now, a)) == Some(InOne(a, now))
    ensures After(START, [LOGIN] + SoleEnter(1, now, a)) == Some(InOne(a, now))
  {
    hide SoleSeat, NewUdp, After, EnterSteps;
    LoginStep();
    SoleRoster(LoggedIn1().registry, a);
    EnterRun(LoggedIn1(), SoleOpen(1, now, a), map[1 := 5]);
    AfterConcat(START, [LOGIN], SoleEnter(1, now, a));
  }

  lemma EnterTwo(a: DungeonPlayerState, b: DungeonPlayerState, now: Time)
    ensures After(InOne(a, now), SoleEnter(2, now, b)) == Some(InTwo(a, b, now))
  {
    hide SoleSeat, NewUdp, After, EnterSteps;
    var w := InOne(a, now);
    SoleRoster(w.registry, b);
    EnterRun(w, SoleOpen(2, now, b), map[1 := 5]);
  }

  lemma LeaveOne(a: DungeonPlayerState, b: DungeonPlayerState, now: Time)
    ensures Enabled(InTwo(a, b, now), Disconnect(1, now, Some(1)))
    ensures
      var w := Next(InTwo(a, b, now), Disconnect(1, now, Some(1)));
      PresentIn(w.registry, 2, 1) && 1 in w.absent
  {
    assert Seated(InTwo(a, b, now).registry, 1, 1);
  }

  /** And a session can sit in two dungeons: by entering one, changing its party, and entering
      another. After it has left it is still present in one of them. */
  lemma TwoDungeons(a: DungeonPlayerState, b: DungeonPlayerState, now: Time)
    ensures
      var end := After(START, [LOGIN] + SoleEnter(1, now, a) + SoleEnter(2, now, b) + [Disconnect(1, now, Some(1))]);
      end.Some? && PresentIn(end.value.registry, 2, 1) && 1 in end.value.absent
  {
    hide Enabled, Next, After, SoleEnter, InOne, InTwo, PresentIn;
    EnterOne(a, now);
    EnterTwo(a, b, now);
    LeaveOne(a, b, now);
    AfterConcat(START, [LOGIN] + SoleEnter(1, now, a), SoleEnter(2, now, b));
    AfterOneMore(START, [LOGIN] + SoleEnter(1, now, a) + SoleEnter(2, now, b), Disconnect(1, now, Some(1)));
  }

  // ---------------------------------------------------------------- a UDP session nobody releases

  /** A UDP session whose dungeon is gone and that no call is about to release. */
  ghost predicate Stranded(w: World, id: DungeonId) {
    && id in w.udp && id !in w.registry.dungeons && id !in w.releases && id !in w.entering && id < w.registry.next
  }

  lemma StillStranded(w: World, e: Event, id: DungeonId)
    requires Enabled(w, e) && Stranded(w, id)
    ensures Stranded(Next(w, e), id)
  {
    hide Enabled, Next;
    OneStepReusesNothing(w, e, id);
    NotEnteredAgain(w, e, id);
    StaysInUdp(w, e, id);
    NotReleased(w, e, id);
  }

  lemma NotEnteredAgain(w: World, e: Event, id: DungeonId)
    requires Enabled(w, e) && id !in w.entering && id < w.registry.next
    ensures id !in Next(w, e).entering
  {
    if InRequest(e) {
      hide FreshRoster, FreshTokens, AllocationAccepted, MayAsk, Opened, Closed, TokenThere, ParticipantsNow;
    } else {
      hide Enabled, Next;
      RequestsStay(w, e);
    }
  }

  lemma StaysInUdp(w: World, e: Event, id: DungeonId)
    requires Enabled(w, e) && id in w.udp && id !in w.releases
    ensures id in Next(w, e).udp
  {
    if OnUdp(e) {
      hide FreshTokens, AllocationAccepted, CanReplace, Replaced, Possible, Handled;
    } else {
      hide Enabled, Next;
      UdpStays(w, e);
    }
  }

  lemma NotReleased(w: World, e: Event, id: DungeonId)
    requires Enabled(w, e) && id !in w.registry.dungeons && id !in w.releases
    ensures id !in Next(w, e).releases
  {
    if e.GiveUp? || e.Cancel? || e.Finish? || e.Sweep? || e.ReleaseUdp? {
      hide Closed, LeftBehind, Swept, RemovedSeats;
    } else {
      hide Enabled, Next;
      NothingReleased(w, e);
    }
  }

  lemma NothingReleased(w: World, e: Event)
    requires Enabled(w, e) && !e.GiveUp? && !e.Cancel? && !e.Finish? && !e.Sweep? && !e.ReleaseUdp?
    ensures Next(w, e).releases == w.releases
  {
    hide Answered, CanAnswer, Departed, CanReport, Returned, CanReturn, ReplacementAccepted, Replaced, Asking;
    hide Possible, Handled, FreshRoster, FreshTokens, Granted, Quieted, Untokened, Opened, WithState;
    hide ParticipantsNow, TokenThere, MayAsk, SomebodyGone, EndpointsComplete;
  }

  /** It stays for as long as the server runs. */
  lemma {:induction false} StrandedForGood(w: World, events: seq<Event>, id: DungeonId)
    requires Stranded(w, id) && After(w, events).Some?
    ensures Stranded(After(w, events).value, id)
  {
    hide Stranded, Enabled, Next;
    if events != [] {
      StrandedForGood(w, events[..|events| - 1], id);
      StillStranded(After(w, events[..|events| - 1]).value, events[|events| - 1], id);
    }
  }

  // ---------------------------------------------------------------- a seat nobody can reclaim

  /** A session that has been there and has no token in a dungeon's UDP session. */
  ghost predicate Tokenless(w: World, id: DungeonId, s: SessionId) {
    && s in w.registered + w.absent && s !in w.reconnects && id !in w.entering && id < w.registry.next
    && (id in w.udp ==> s !in w.udp[id].tokens)
  }

  lemma StillTokenless(w: World, e: Event, id: DungeonId, s: SessionId)
    requires Enabled(w, e) && Tokenless(w, id, s)
    ensures Tokenless(Next(w, e), id, s)
  {
    hide Enabled, Next;
    StillGone(w, e, id, s);
    StillUntokened(w, e, id, s);
  }

  lemma StillGone(w: World, e: Event, id: DungeonId, s: SessionId)
    requires Enabled(w, e) && Tokenless(w, id, s)
    ensures
      var w' := Next(w, e);
      s in w'.registered + w'.absent && s !in w'.reconnects && id !in w'.entering && id < w'.registry.next
  {
    hide Enabled, Next;
    NumbersGrow(w, e);
    StillKnown(w, e, s);
    NotEnteredAgain(w, e, id);
  }

  lemma StillKnown(w: World, e: Event, s: SessionId)
    requires Enabled(w, e) && s in w.registered + w.absent && s !in w.reconnects
    ensures s in Next(w, e).registered + Next(w, e).absent && s !in Next(w, e).reconnects
  {
    if OnStrand(e) {
      hide CanAnswer, CanReport, CanReturn, Asking, Answered, Departed, Returned, Replaced, ReplacementAccepted;
    } else {
      hide Enabled, Next;
      SessionsStay(w, e);
    }
  }

  lemma StillUntokened(w: World, e: Event, id: DungeonId, s: SessionId)
    requires Enabled(w, e) && Tokenless(w, id, s)
    ensures id in Next(w, e).udp ==> s !in Next(w, e).udp[id].tokens
  {
    if !OnUdp(e) {
      hide Enabled, Next;
      UdpStays(w, e);
    } else {
      UntokenedOnUdp(w, e, id, s);
    }
  }

  lemma UntokenedOnUdp(w: World, e: Event, id: DungeonId, s: SessionId)
    requires Enabled(w, e) && OnUdp(e) && s !in w.reconnects && id !in w.entering
    requires id in w.udp ==> s !in w.udp[id].tokens
    ensures id in Next(w, e).udp ==> s !in Next(w, e).udp[id].tokens
  {
    if e.Datagram? {
      SameTokens(w.udp[e.id], e.e);
    }
    hide Possible, FreshTokens, AllocationAccepted, Handled, Silenced;
  }

  lemma SameTokens(u: Udp, t: Traffic)
    ensures Handled(u, t).tokens == u.tokens
  {
  }

  /** Its seat can never be taken over on the UDP side again, whatever happens. */
  lemma {:induction false} TokenlessForGood(w: World, events: seq<Event>, id: DungeonId, s: SessionId)
    requires Tokenless(w, id, s) && After(w, events).Some?
    ensures Tokenless(After(w, events).value, id, s)
    ensures forall new_, token :: !ReplacementAccepted(After(w, events).value.udp, id, s, new_, token)
  {
    hide Enabled, Next;
    if events != [] {
      TokenlessForGood(w, events[..|events| - 1], id, s);
      StillTokenless(After(w, events[..|events| - 1]).value, events[|events| - 1], id, s);
    }
  }

  // ---------------------------------------------------------------- interrupted enter requests

  lemma AddStep(w: World, events: seq<Event>, e: Event) returns (more: seq<Event>)
    requires After(w, events).Some? && Enabled(After(w, events).value, e)
    ensures more == events + [e] && After(w, more) == Some(Next(After(w, events).value, e))
  {
    more := events + [e];
    AfterOneMore(w, events, e);
  }

  /** The request has created its dungeon and read its participants. */
  ghost function Listed1(c: DungeonPlayerState, now: Time): World {
    Listing(LoggedIn1(), SoleOpen(1, now, c))
  }

  lemma ListedFirst(c: DungeonPlayerState, now: Time)
    ensures After(START, [LOGIN] + [SoleOpen(1, now, c), ListParticipants(1)]) == Some(Listed1(c, now))
  {
    hide After, Listing, SoleSeat;
    LoginStep();
    SoleRoster(LoggedIn1().registry, c);
    ListingRun(LoggedIn1(), SoleOpen(1, now, c));
    AfterConcat(START, [LOGIN], [SoleOpen(1, now, c), ListParticipants(1)]);
  }

  /** The dungeon has been released, before its UDP session is allocated or after. */
  ghost function Gone(dropped: bool, released: bool): World {
    LoggedIn1().(
      registry := LoggedIn1().registry.(next := 2),
      drops := if dropped then {} else {(1, 1)}, releases := if released then {} else {1})
  }

  ghost function GoneListed(dropped: bool, released: bool): World {
    Gone(dropped, released).(entering := map[1 := Entering(1, Some([1]), false, [])])
  }

  lemma SweptFirst(now: Time, c: DungeonPlayerState, later: Time, grace: Time, lifetime: Time)
    requires grace > 0 && lifetime > 0 && later >= now + lifetime
    ensures
      var m := InOne(c, now).registry;
      && RemovedSeats(m, m.dungeons.Keys, later, grace, lifetime) == {(1, 1)}
      && ReleasedIds(m, m.dungeons.Keys, later, grace, lifetime) == {1}
      && Swept(m, m.dungeons.Keys, later, grace, lifetime) == LoggedIn1().registry.(next := 2)
  {
    var m := InOne(c, now).registry;
    assert Aged(m.dungeons[1], later, lifetime);
  }

  lemma SweptListed(now: Time, c: DungeonPlayerState, later: Time, grace: Time, lifetime: Time)
    requires grace > 0 && lifetime > 0 && later >= now + lifetime
    ensures Enabled(Listed1(c, now), Sweep(later, grace, lifetime))
    ensures Next(Listed1(c, now), Sweep(later, grace, lifetime)) == GoneListed(false, false)
  {
    hide SoleSeat, Swept, RemovedSeats, ReleasedIds;
    SweptFirst(now, c, later, grace, lifetime);
    assert Listed1(c, now).registry == InOne(c, now).registry;
  }

  lemma GoneSteps()
    ensures Enabled(GoneListed(false, false), DropUdp(1, 1))
    ensures Next(GoneListed(false, false), DropUdp(1, 1)) == GoneListed(true, false)
    ensures Enabled(GoneListed(true, false), ReleaseUdp(1))
    ensures Next(GoneListed(true, false), ReleaseUdp(1)) == GoneListed(true, true)
  {
  }

  ghost function Lonely(asking: bool): World {
    Gone(true, true).(
      udp := map[1 := NewUdp(map[1 := 5])], finding := if asking then map[1 := Finding(1, false)] else map[])
  }

  lemma GoneAllocated()
    ensures Enabled(GoneListed(true, true), Allocate(1, map[1 := 5], true))
    ensures Next(GoneListed(true, true), Allocate(1, map[1 := 5], true)) == Lonely(true)
    ensures Enabled(Lonely(true), FindToken(1)) && Next(Lonely(true), FindToken(1)) == Lonely(false)
  {
    assert forall t :: t in [1] <==> t == 1;
  }

  ghost function SweptRun(now: Time, c: DungeonPlayerState, later: Time, grace: Time, lifetime: Time): seq<Event> {
    [LOGIN] + [SoleOpen(1, now, c), ListParticipants(1)] + [Sweep(later, grace, lifetime)]
      + [DropUdp(1, 1)] + [ReleaseUdp(1)] + [Allocate(1, map[1 := 5], true)] + [FindToken(1)]
  }

  /** A sweep between reading the participants and allocating releases the dungeon first, and the
      UDP session comes after it, for good. */
  lemma SweptBeforeAllocation(now: Time, c: DungeonPlayerState, later: Time, grace: Time, lifetime: Time)
    requires grace > 0 && lifetime > 0 && later >= now + lifetime
    ensures
      var end := After(START, SweptRun(now, c, later, grace, lifetime));
      && end.Some? && Settled(end.value) && !Coupled(end.value.registry.dungeons, end.value.udp)
      && forall more :: After(end.value, more).Some? ==> Stranded(After(end.value, more).value, 1)
  {
    hide Enabled, Next, After, SoleOpen, Listed1, NewUdp;
    ListedFirst(c, now);
    SweptListed(now, c, later, grace, lifetime);
    GoneSteps();
    GoneAllocated();
    hide GoneListed, Lonely;
    var run := [LOGIN] + [SoleOpen(1, now, c), ListParticipants(1)];
    run := AddStep(START, run, Sweep(later, grace, lifetime));
    run := AddStep(START, run, DropUdp(1, 1));
    run := AddStep(START, run, ReleaseUdp(1));
    run := AddStep(START, run, Allocate(1, map[1 := 5], true));
    run := AddStep(START, run, FindToken(1));
    LonelyIsStranded();
    forall more | After(Lonely(false), more).Some?
      ensures Stranded(After(Lonely(false), more).value, 1)
    {
      StrandedForGood(Lonely(false), more, 1);
    }
  }

  lemma LonelyIsStranded()
    ensures
      var end := Lonely(false);
      Settled(end) && !Coupled(end.registry.dungeons, end.udp) && Stranded(end, 1)
  {
    assert 1 in Lonely(false).udp.Keys;
  }

  // ---------------------------------------------------------------- a token gone before it is looked up

  /** The allocation has been granted, and the sweep comes before the lookup. */
  ghost function Granted1(c: DungeonPlayerState, now: Time): World {
    InOne(c, now).(finding := map[1 := Finding(1, false)])
  }

  ghost function GoneGranted(dropped: bool, released: bool, failed: bool): World {
    Gone(dropped, released).(
      udp := if released then map[] else map[1 := NewUdp(if dropped then map[] else map[1 := 5])],
      finding := map[1 := Finding(1, failed)])
  }

  lemma GrantStep(c: DungeonPlayerState, now: Time)
    ensures Enabled(Listed1(c, now), Allocate(1, map[1 := 5], true))
    ensures Next(Listed1(c, now), Allocate(1, map[1 := 5], true)) == Granted1(c, now)
  {
    assert forall t :: t in [1] <==> t == 1;
  }

  lemma SweptGranted(now: Time, c: DungeonPlayerState, later: Time, grace: Time, lifetime: Time)
    requires grace > 0 && lifetime > 0 && later >= now + lifetime
    ensures Enabled(Granted1(c, now), Sweep(later, grace, lifetime))
    ensures Next(Granted1(c, now), Sweep(later, grace, lifetime)) == GoneGranted(false, false, false)
  {
    hide SoleSeat, NewUdp, Swept, RemovedSeats, ReleasedIds;
    SweptFirst(now, c, later, grace, lifetime);
  }

  lemma LostSteps()
    ensures Enabled(GoneGranted(false, false, false), DropUdp(1, 1))
    ensures Next(GoneGranted(false, false, false), DropUdp(1, 1)) == GoneGranted(true, false, false)
    ensures Enabled(GoneGranted(true, false, false), ReleaseUdp(1))
    ensures Next(GoneGranted(true, false, false), ReleaseUdp(1)) == GoneGranted(true, true, false)
  {
    assert Untokened(map[1 := NewUdp(map[1 := 5])], 1, 1)[1] == NewUdp(map[]);
  }

  lemma LookupSteps()
    ensures Enabled(GoneGranted(true, true, false), FindToken(1))
    ensures Next(GoneGranted(true, true, false), FindToken(1)) == GoneGranted(true, true, true)
    ensures Enabled(GoneGranted(true, true, true), GiveUp(1))
    ensures Next(GoneGranted(true, true, true), GiveUp(1)) == Gone(true, true)
  {
  }

  ghost function LostRun(now: Time, c: DungeonPlayerState, later: Time, grace: Time, lifetime: Time): seq<Event> {
    [LOGIN] + [SoleOpen(1, now, c), ListParticipants(1)] + [Allocate(1, map[1 := 5], true)]
      + [Sweep(later, grace, lifetime)] + [DropUdp(1, 1)] + [ReleaseUdp(1)] + [FindToken(1)]
  }

  /** It does happen that a request is granted and finds no token; there is nothing left to cancel
      then, so it fails, and leaves the two sides in order. */
  lemma ReleasedBeforeLookup(now: Time, c: DungeonPlayerState, later: Time, grace: Time, lifetime: Time)
    requires grace > 0 && lifetime > 0 && later >= now + lifetime
    ensures
      var lost := After(START, LostRun(now, c, later, grace, lifetime));
      && lost.Some? && 1 in lost.value.finding && lost.value.finding[1].failed
      && !Cancellable(lost.value.registry, 1)
    ensures
      var end := After(START, LostRun(now, c, later, grace, lifetime) + [GiveUp(1)]);
      end.Some? && Settled(end.value) && Coupled(end.value.registry.dungeons, end.value.udp)
  {
    hide Enabled, Next, After, SoleOpen, Listed1, NewUdp;
    ListedFirst(c, now);
    GrantStep(c, now);
    SweptGranted(now, c, later, grace, lifetime);
    LostSteps();
    LookupSteps();
    hide Granted1;
    var run := [LOGIN] + [SoleOpen(1, now, c), ListParticipants(1)];
    run := AddStep(START, run, Allocate(1, map[1 := 5], true));
    run := AddStep(START, run, Sweep(later, grace, lifetime));
    run := AddStep(START, run, DropUdp(1, 1));
    run := AddStep(START, run, ReleaseUdp(1));
    run := AddStep(START, run, FindToken(1));
    run := AddStep(START, run, GiveUp(1));
  }

  // ---------------------------------------------------------------- a member who comes back too early

  /** Session 1 leads and plays as 8; the seat of player 7 is under session `s`, or gone since a while. */
  ghost function Pair(s: SessionId, a: DungeonPlayerState, b: DungeonPlayerState, since: Option<Time>): Roster {
    Roster([1, s], map[1 := Seat(Some(8), a, None), s := Seat(Some(7), b, since)])
  }

  ghost function Keeps(s: SessionId, a: DungeonPlayerState, b: DungeonPlayerState, now: Time, since: Option<Time>)
    : Registry
  {
    Registry(2, map[1 := Dungeon(1, now, Waiting, Pair(s, a, b, since))], map[1 := 1],
      if since.None? then map[1 := 8, s := 7] else map[1 := 8], if since.None? then map[8 := 1, 7 := s] else map[8 := 1],
      false)
  }

  ghost function LoggedInBoth(): World {
    START.(registry := NEW_REGISTRY.(authenticated := map[1 := 8, 3 := 7], active := map[8 := 1, 7 := 3]),
           registered := {1, 3})
  }

  ghost function Asks(listed: Option<seq<SessionId>>): map<DungeonId, Entering> {
    map[1 := Entering(1, listed, false, [])]
  }

  ghost function CreatedThen(a: DungeonPlayerState, b: DungeonPlayerState, now: Time): World {
    START.(registry := Keeps(3, a, b, now, None), entering := Asks(None), registered := {1, 3})
  }

  ghost function LeftThen(a: DungeonPlayerState, b: DungeonPlayerState, now: Time, at: Time, quiet: bool): World {
    START.(registry := Keeps(3, a, b, now, Some(at)), entering := Asks(None), registered := {1, 3}, absent := {3},
           quiets := if quiet then {} else {(1, 3)})
  }

  ghost function BackAs4(
    a: DungeonPlayerState, b: DungeonPlayerState, now: Time, at: Time, failed: bool, listed: Option<seq<SessionId>>)
    : World
  {
    START.(registry := Keeps(4, a, b, now, None), entering := Asks(listed),
           reconnects := map[4 := Reconnecting(1, 7, 3, at, failed)], registered := {1, 3, 4}, absent := {3})
  }

  ghost function AllocatedFor4(a: DungeonPlayerState, b: DungeonPlayerState, now: Time, at: Time, asking: bool): World {
    BackAs4(a, b, now, at, true, None).(
      entering := map[], finding := if asking then map[1 := Finding(1, false)] else map[],
      udp := map[1 := NewUdp(map[1 := 5, 4 := 6])])
  }

  ghost function ReturnedTo3(a: DungeonPlayerState, b: DungeonPlayerState, now: Time, at: Time, left: bool): World {
    AllocatedFor4(a, b, now, at, false).(
      registry := Keeps(3, a, b, now, Some(at)), reconnects := map[], absent := if left then {3, 4} else {3})
  }

  lemma BothLogIn()
    ensures
      var first, second := Register(1, 8, 0, 1, Registered(None)), Register(3, 7, 0, 1, Registered(None));
      After(START, [first, second]) == Some(LoggedInBoth())
  {
    hide Enabled, Next, After;
    var first, second := Register(1, 8, 0, 1, Registered(None)), Register(3, 7, 0, 1, Registered(None));
    LogInStep(START, 1, 8);
    LogInStep(Next(START, first), 3, 7);
    AfterTwo(START, first, second);
    var end := Next(Next(START, first), second);
    assert end.registry.authenticated == LoggedInBoth().registry.authenticated;
    assert end.registry.active == LoggedInBoth().registry.active;
    assert end.registered == LoggedInBoth().registered;
    assert end.registry == LoggedInBoth().registry;
    assert end == LoggedInBoth();
  }

  /** With no dungeons about, a new session and a new player are taken as they are. */
  lemma LogInStep(w: World, s: SessionId, p: PlayerId)
    requires s !in w.registered && s !in w.absent && w.registry.dungeons == map[] && !w.registry.stopping
    requires s != 0 && p != 0 && s !in w.registry.authenticated && p !in w.registry.active
    ensures
      var e := Register(s, p, 0, 1, Registered(None));
      && Enabled(w, e)
      && Next(w, e) == w.(
           registry := w.registry.(
             authenticated := w.registry.authenticated[s := p], active := w.registry.active[p := s]),
           registered := w.registered + {s})
  {
  }

  lemma CreateStep(a: DungeonPlayerState, b: DungeonPlayerState, now: Time)
    requires a != b
    ensures
      var e := Open(1, 1, [1, 3], now, Pair(3, a, b, None));
      Enabled(LoggedInBoth(), e) && Next(LoggedInBoth(), e) == CreatedThen(a, b, now)
  {
    assert forall s :: s in [1, 3] <==> s == 1 || s == 3;
  }

  lemma LeaveStep(a: DungeonPlayerState, b: DungeonPlayerState, now: Time, at: Time)
    ensures
      var e := Disconnect(3, at, Some(1));
      Enabled(CreatedThen(a, b, now), e) && Next(CreatedThen(a, b, now), e) == LeftThen(a, b, now, at, false)
    ensures Enabled(LeftThen(a, b, now, at, false), QuietUdp(1, 3))
    ensures Next(LeftThen(a, b, now, at, false), QuietUdp(1, 3)) == LeftThen(a, b, now, at, true)
  {
    hide CanReport, Departed, Keeps;
    LeaveIs(a, b, now, at);
  }

  lemma LeaveIs(a: DungeonPlayerState, b: DungeonPlayerState, now: Time, at: Time)
    ensures CanReport(Keeps(3, a, b, now, None), 3, Some(1))
    ensures Departed(Keeps(3, a, b, now, None), 3, at, Some(1)) == Keeps(3, a, b, now, Some(at))
  {
    var m := Keeps(3, a, b, now, None);
    assert Seated(m, 1, 3);
    assert Vacated(Pair(3, a, b, None), 3, at) == Pair(3, a, b, Some(at));
    assert LoggedOut(m, 3).authenticated == map[1 := 8] && LoggedOut(m, 3).active == map[8 := 1];
  }

  lemma ReclaimStep(a: DungeonPlayerState, b: DungeonPlayerState, now: Time, at: Time, later: Time, grace: Time)
    requires grace > 0 && at <= later < at + grace
    ensures
      var e := Register(4, 7, later, grace, Reconnected(1, 3, at));
      && Enabled(LeftThen(a, b, now, at, true), e)
      && Next(LeftThen(a, b, now, at, true), e) == BackAs4(a, b, now, at, false, None)
  {
    var m := LeftThen(a, b, now, at, true).registry;
    assert Reclaimable(m, 1, 7, 3, 4, later, grace);
    assert Relabelled(Pair(3, a, b, Some(at)), 3, 4, None) == Pair(4, a, b, None);
    assert Answered(m, 4, 7, grace, Reconnected(1, 3, at)) == Keeps(4, a, b, now, None);
  }

  lemma RefuseStep(a: DungeonPlayerState, b: DungeonPlayerState, now: Time, at: Time)
    ensures Enabled(BackAs4(a, b, now, at, false, None), ReplaceUdp(4, None))
    ensures Next(BackAs4(a, b, now, at, false, None), ReplaceUdp(4, None)) == BackAs4(a, b, now, at, true, None)
    ensures Enabled(BackAs4(a, b, now, at, true, None), ListParticipants(1))
    ensures Next(BackAs4(a, b, now, at, true, None), ListParticipants(1)) == BackAs4(a, b, now, at, true, Some([1, 4]))
  {
  }

  lemma AllocateStep(a: DungeonPlayerState, b: DungeonPlayerState, now: Time, at: Time)
    ensures
      var e := Allocate(1, map[1 := 5, 4 := 6], true);
      && Enabled(BackAs4(a, b, now, at, true, Some([1, 4])), e)
      && Next(BackAs4(a, b, now, at, true, Some([1, 4])), e) == AllocatedFor4(a, b, now, at, true)
    ensures Enabled(AllocatedFor4(a, b, now, at, true), FindToken(1))
    ensures Next(AllocatedFor4(a, b, now, at, true), FindToken(1)) == AllocatedFor4(a, b, now, at, false)
  {
    hide Keeps;
    assert forall t :: t in [1, 4] <==> t == 1 || t == 4;
  }

  lemma ReturnStep(a: DungeonPlayerState, b: DungeonPlayerState, now: Time, at: Time)
    ensures Enabled(AllocatedFor4(a, b, now, at, false), ReturnSeat(4))
    ensures Next(AllocatedFor4(a, b, now, at, false), ReturnSeat(4)) == ReturnedTo3(a, b, now, at, false)
  {
    hide CanReturn, Returned, Enabled, Next, Keeps, NewUdp;
    BackTo3(a, b, now, at);
    ReturnIs(AllocatedFor4(a, b, now, at, false), 4);
    assert map[4 := Reconnecting(1, 7, 3, at, true)] - {4} == map[];
  }

  lemma BackTo3(a: DungeonPlayerState, b: DungeonPlayerState, now: Time, at: Time)
    ensures CanReturn(Keeps(4, a, b, now, None), 1, 7, 4, 3)
    ensures Returned(Keeps(4, a, b, now, None), 1, 7, 4, 3, at) == Keeps(3, a, b, now, Some(at))
  {
    assert Relabelled(Pair(4, a, b, None), 4, 3, Some(at)) == Pair(3, a, b, Some(at));
    assert Keeps(4, a, b, now, None).authenticated - {4} == map[1 := 8];
    assert Keeps(4, a, b, now, None).active - {7} == map[8 := 1];
  }

  lemma SignOffStep(a: DungeonPlayerState, b: DungeonPlayerState, now: Time, at: Time, later: Time)
    ensures Enabled(ReturnedTo3(a, b, now, at, false), Disconnect(4, later, None))
    ensures Next(ReturnedTo3(a, b, now, at, false), Disconnect(4, later, None)) == ReturnedTo3(a, b, now, at, true)
  {
    hide NewUdp;
    assert Departed(Keeps(3, a, b, now, Some(at)), 4, later, None) == Keeps(3, a, b, now, Some(at));
  }

  ghost function ReconnectRun(
    a: DungeonPlayerState, b: DungeonPlayerState, now: Time, at: Time, later: Time, grace: Time): seq<Event>
  {
    [Register(1, 8, 0, 1, Registered(None)), Register(3, 7, 0, 1, Registered(None))]
      + [Open(1, 1, [1, 3], now, Pair(3, a, b, None))]
      + [Disconnect(3, at, Some(1))] + [QuietUdp(1, 3)] + [Register(4, 7, later, grace, Reconnected(1, 3, at))]
      + [ReplaceUdp(4, None)] + [ListParticipants(1)] + [Allocate(1, map[1 := 5, 4 := 6], true)] + [FindToken(1)]
      + [ReturnSeat(4)] + [Disconnect(4, later, None)]
  }

  /** No sweep and no timeout is needed: a member who drops and comes back while the leader's request
      has not got a UDP session yet is refused there; its new name is allocated a token before the
      rollback has put the old name back. The request succeeds, every call is over, and the seat and
      its token never meet again. */
  lemma ReconnectedBeforeAllocation(
    a: DungeonPlayerState, b: DungeonPlayerState, now: Time, at: Time, later: Time, grace: Time)
    requires a != b && grace > 0 && at <= later < at + grace
    ensures
      var end := After(START, ReconnectRun(a, b, now, at, later, grace));
      && end.Some? && Settled(end.value) && !Coupled(end.value.registry.dungeons, end.value.udp)
      && Seated(end.value.registry, 1, 3) && Tokenless(end.value, 1, 3)
      && forall more, new_, token :: After(end.value, more).Some? ==>
           !ReplacementAccepted(After(end.value, more).value.udp, 1, 3, new_, token)
  {
    hide Enabled, Next, After;
    BothLogIn();
    CreateStep(a, b, now);
    LeaveStep(a, b, now, at);
    ReclaimStep(a, b, now, at, later, grace);
    RefuseStep(a, b, now, at);
    AllocateStep(a, b, now, at);
    ReturnStep(a, b, now, at);
    SignOffStep(a, b, now, at, later);
    EndsApart(a, b, now, at);
    hide LoggedInBoth, CreatedThen, LeftThen, BackAs4, AllocatedFor4, ReturnedTo3, Pair;
    var run := [Register(1, 8, 0, 1, Registered(None)), Register(3, 7, 0, 1, Registered(None))];
    run := AddStep(START, run, Open(1, 1, [1, 3], now, Pair(3, a, b, None)));
    run := AddStep(START, run, Disconnect(3, at, Some(1)));
    run := AddStep(START, run, QuietUdp(1, 3));
    run := AddStep(START, run, Register(4, 7, later, grace, Reconnected(1, 3, at)));
    run := AddStep(START, run, ReplaceUdp(4, None));
    run := AddStep(START, run, ListParticipants(1));
    run := AddStep(START, run, Allocate(1, map[1 := 5, 4 := 6], true));
    run := AddStep(START, run, FindToken(1));
    run := AddStep(START, run, ReturnSeat(4));
    run := AddStep(START, run, Disconnect(4, later, None));
    var end := ReturnedTo3(a, b, now, at, true);
    forall more, new_, token | After(end, more).Some?
      ensures !ReplacementAccepted(After(end, more).value.udp, 1, 3, new_, token)
    {
      TokenlessForGood(end, more, 1, 3);
    }
  }

  lemma EndsApart(a: DungeonPlayerState, b: DungeonPlayerState, now: Time, at: Time)
    ensures
      var end := ReturnedTo3(a, b, now, at, true);
      Settled(end) && !Coupled(end.registry.dungeons, end.udp) && Seated(end.registry, 1, 3) && Tokenless(end, 1, 3)
  {
    var end := ReturnedTo3(a, b, now, at, true);
    assert end.udp[1].tokens.Keys == {1, 4} && end.registry.dungeons[1].roster.seats.Keys == {1, 3};
    assert 4 in end.udp[1].tokens.Keys;
  }

  // ---------------------------------------------------------------- a start between two checks

  /** Step i of the run saw nobody gone in the dungeon, step j every endpoint there. */
  ghost predicate SawPresent(events: seq<Event>, i: nat, id: DungeonId) {
    && i < |events| && events[i] == SeePresent(id) && After(START, events[..i]).Some?
    && var w := After(START, events[..i]).value;
    Cancellable(w.registry, id) && !SomebodyGone(w.registry.dungeons[id])
  }

  ghost predicate SawReady(events: seq<Event>, j: nat, id: DungeonId) {
    && j < |events| && events[j] == SeeReady(id) && After(START, events[..j]).Some?
    && EndpointsComplete(After(START, events[..j]).value, id)
  }

  /** Why a tick thinks of a dungeon what it does after k steps. */
  ghost predicate Seen(events: seq<Event>, k: nat, id: DungeonId, ready: bool) {
    exists i: nat, j: nat ::
      i < k && SawPresent(events, i, id) && (ready ==> i < j < k && SawReady(events, j, id))
  }

  lemma {:induction false} JudgingWasSeen(events: seq<Event>, k: nat, id: DungeonId)
    requires After(START, events).Some? && k <= |events|
    ensures After(START, events[..k]).Some?
    ensures
      var judging := After(START, events[..k]).value.judging;
      id in judging ==> Seen(events, k, id, judging[id].ready)
  {
    hide Enabled, Next, Seen, SawPresent, SawReady;
    AfterPrefix(START, events, k);
    if k == 0 {
      assert events[..0] == [];
    } else {
      JudgingWasSeen(events, k - 1, id);
      AfterStep(START, events, k - 1);
      JudgingAfter(After(START, events[..k - 1]).value, events[k - 1], id);
      SeenNow(events, k - 1);
      SeenOneMore(events, k - 1, id);
    }
  }

  lemma SeenOneMore(events: seq<Event>, k: nat, id: DungeonId)
    ensures SawPresent(events, k, id) ==> Seen(events, k + 1, id, false)
    ensures Seen(events, k, id, true) ==> Seen(events, k + 1, id, true)
    ensures Seen(events, k, id, false) || Seen(events, k, id, true) ==> Seen(events, k + 1, id, false)
    ensures SawReady(events, k, id) && (Seen(events, k, id, false) || Seen(events, k, id, true)) ==>
      Seen(events, k + 1, id, true)
  {
    hide SawPresent, SawReady;
    if ready :| Seen(events, k, id, ready) {
      var i: nat, j: nat :| i < k && SawPresent(events, i, id) && (ready ==> i < j < k && SawReady(events, j, id));
      assert i < k + 1 && SawPresent(events, i, id) && (ready ==> i < j < k + 1 && SawReady(events, j, id));
      assert SawReady(events, k, id) ==> i < k < k + 1;
    }
    assert SawPresent(events, k, id) ==> k < k + 1 && (SawReady(events, k, id) ==> k < k + 1);
  }

  lemma JudgingAfter(w: World, e: Event, id: DungeonId)
    requires Enabled(w, e)
    ensures e == SeePresent(id) && id in Next(w, e).judging ==> !Next(w, e).judging[id].ready
    ensures e == SeeReady(id) ==> id in w.judging
    ensures e != SeePresent(id) && e != SeeReady(id) && id in Next(w, e).judging ==>
      id in w.judging && w.judging[id] == Next(w, e).judging[id]
  {
    hide Possible, FreshRoster, FreshTokens, CanAnswer, CanReport, CanReturn, AllocationAccepted, SomebodyGone;
  }

  lemma SeenNow(events: seq<Event>, k: nat)
    requires k < |events| && After(START, events[..k]).Some? && Enabled(After(START, events[..k]).value, events[k])
    ensures events[k].SeePresent? ==> SawPresent(events, k, events[k].id)
    ensures events[k].SeeReady? ==> SawReady(events, k, events[k].id)
  {
  }

  /** What a start rests on, whatever other calls get in between: nobody was gone when the tick
      looked at the seats, and after that every token had its endpoint when it looked at the UDP
      side; if every allocation came in time, those are the tokens of the seats of that moment,
      but for reconnects under way. */
  lemma StartedThroughTheGate(events: seq<Event>, k: nat)
    requires After(START, events).Some? && k < |events| && events[k].Start?
    ensures Seen(events, k, events[k].id, true)
    ensures AllInTime(events) ==> forall j: nat :: SawReady(events, j, events[k].id) ==> ReadyAt(events, j, events[k].id)
  {
    hide Enabled, Next, Invariant, Seen, SawReady, ReadyAt, AllInTime;
    AfterStep(START, events, k);
    JudgingWasSeen(events, k, events[k].id);
    StartNeedsJudging(After(START, events[..k]).value, events[k].id);
    if AllInTime(events) {
      forall j: nat | SawReady(events, j, events[k].id)
        ensures ReadyAt(events, j, events[k].id)
      {
        ReadyInTime(events, j, events[k].id);
      }
    }
  }

  ghost predicate ReadyAt(events: seq<Event>, j: nat, id: DungeonId)
    requires After(START, events).Some?
  {
    j <= |events| && After(START, events[..j]).Some? && ReadySeats(After(START, events[..j]).value, id)
  }

  lemma ReadyInTime(events: seq<Event>, j: nat, id: DungeonId)
    requires After(START, events).Some? && AllInTime(events) && SawReady(events, j, id)
    ensures ReadyAt(events, j, id)
  {
    hide Enabled, Next, Invariant, AllInTime, ReadySeats, EndpointsComplete;
    FitsSoFar(events, j);
    ReadyMeansSeated(After(START, events[..j]).value, id);
  }

  lemma StartNeedsJudging(w: World, id: DungeonId)
    requires Enabled(w, Event.Start(id))
    ensures id in w.judging && w.judging[id].ready
  {
  }

  /** Every seat whose token the UDP side must hold has its endpoint. */
  ghost predicate ReadySeats(w: World, id: DungeonId) {
    id in w.udp && (id in w.registry.dungeons ==>
      Expected(w.registry.dungeons[id].roster.seats.Keys, w.reconnects, id) <= w.udp[id].endpoints.Keys)
  }

  lemma ReadyMeansSeated(w: World, id: DungeonId)
    requires Invariant(w) && EndpointsComplete(w, id)
    ensures ReadySeats(w, id)
  {
    hide Sound, UdpIdsFit, UdpConsistent, ReconnectsFit, DropsFit, SessionsFit, EnteringFits, Expected;
  }

  /** Session 1 has said hello in dungeon 1. */
  ghost function Greeted1(c: DungeonPlayerState, now: Time): World {
    InOne(c, now).(udp := map[1 := Handled(NewUdp(map[1 := 5]), Hello(1, 5, 9, now))])
  }

  ghost function LeavesBetween(c: DungeonPlayerState, now: Time, ready: bool): World {
    Greeted1(c, now).(
      registry := InOne(c, now).registry.(
        authenticated := map[], active := map[],
        dungeons := map[1 := Dungeon(1, now, Waiting, Roster([1], map[1 := Seat(Some(7), c, Some(now))]))]),
      absent := {1}, quiets := {(1, 1)}, judging := map[1 := Judging(ready)])
  }

  ghost function StartRun(c: DungeonPlayerState, now: Time): seq<Event> {
    [LOGIN] + SoleEnter(1, now, c) + [Datagram(1, Hello(1, 5, 9, now))] + [SeePresent(1)] + [Disconnect(1, now, Some(1))]
      + [SeeReady(1)] + [Event.Start(1)]
  }

  lemma GreetStep(c: DungeonPlayerState, now: Time)
    ensures Enabled(InOne(c, now), Datagram(1, Hello(1, 5, 9, now)))
    ensures Next(InOne(c, now), Datagram(1, Hello(1, 5, 9, now))) == Greeted1(c, now)
  {
    hide SoleSeat;
  }

  lemma SeePresentStep(c: DungeonPlayerState, now: Time)
    ensures Enabled(Greeted1(c, now), SeePresent(1))
    ensures Next(Greeted1(c, now), SeePresent(1)) == Greeted1(c, now).(judging := map[1 := Judging(false)])
  {
    hide Handled, NewUdp;
  }

  lemma LeaveBetween(c: DungeonPlayerState, now: Time)
    ensures
      var w, e := Greeted1(c, now).(judging := map[1 := Judging(false)]), Disconnect(1, now, Some(1));
      Enabled(w, e) && Next(w, e) == LeavesBetween(c, now, false)
  {
    hide Handled;
    var m := InOne(c, now).registry;
    assert Seated(m, 1, 1);
    assert Vacated(SoleSeat(c), 1, now) == Roster([1], map[1 := Seat(Some(7), c, Some(now))]);
    assert LoggedOut(m, 1).authenticated == map[] && LoggedOut(m, 1).active == map[];
    assert Departed(m, 1, now, Some(1)).dungeons == LeavesBetween(c, now, false).registry.dungeons;
  }

  lemma SeeReadyStep(c: DungeonPlayerState, now: Time)
    ensures Enabled(LeavesBetween(c, now, false), SeeReady(1))
    ensures Next(LeavesBetween(c, now, false), SeeReady(1)) == LeavesBetween(c, now, true)
  {
    hide InOne;
    var u := Greeted1(c, now).udp[1];
    assert u.endpoints.Keys == u.tokens.Keys == {1};
  }

  lemma StartStep(c: DungeonPlayerState, now: Time)
    ensures Enabled(LeavesBetween(c, now, true), Event.Start(1))
    ensures
      var m := Next(LeavesBetween(c, now, true), Event.Start(1)).registry;
      && 1 in m.dungeons && m.dungeons[1].state.Running? && m.dungeons[1].roster.seats.Keys == {1}
      && m.dungeons[1].roster.seats[1].since.Some?
  {
    hide InOne, Greeted1;
  }

  /** The two checks and the start are three locked sections. A disconnect between them starts a
      dungeon whose only participant is gone. */
  lemma StartedWithSomebodyGone(c: DungeonPlayerState, now: Time)
    ensures
      var end := After(START, StartRun(c, now));
      && end.Some? && 1 in end.value.registry.dungeons && end.value.registry.dungeons[1].state.Running?
      && SomebodyGone(end.value.registry.dungeons[1])
  {
    hide Enabled, Next, InOne, Greeted1, LeavesBetween;
    EnterOne(c, now);
    GreetStep(c, now);
    SeePresentStep(c, now);
    LeaveBetween(c, now);
    SeeReadyStep(c, now);
    StartStep(c, now);
    var run := [LOGIN] + SoleEnter(1, now, c);
    run := AddStep(START, run, Datagram(1, Hello(1, 5, 9, now)));
    run := AddStep(START, run, SeePresent(1));
    run := AddStep(START, run, Disconnect(1, now, Some(1)));
    run := AddStep(START, run, SeeReady(1));
    run := AddStep(START, run, Event.Start(1));
    assert 1 in After(START, run).value.registry.dungeons[1].roster.seats;
  }
}
