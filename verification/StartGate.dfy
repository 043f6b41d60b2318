/** What a tick does to the dungeons that wait for their participants (src/DungeonTickService.cpp):
    start those that are complete, cancel those that took too long. */
module StartGate {
  import opened Common
  import opened SeatTable
  import opened DungeonInstances
  import opened DungeonRegistry
  import opened UdpSession
  import opened DungeonUdpManagers
  import opened LifecycleRuns

  /** The lifecycle's world, and since when the tick service has seen each dungeon incomplete. */
  datatype Gate = Gate(w: World, since: map<DungeonId, Time>)

  /** What the service sees of one dungeon. */
  datatype Glance = Glance(dungeon: Option<Dungeon>, udp: Option<Udp>, since: Option<Time>)

  ghost function At(g: Gate, id: DungeonId): Glance {
    Glance(Lookup(g.w.registry.dungeons, id), Lookup(g.w.udp, id), Lookup(g.since, id))
  }

  datatype Verdict = Paused | Complete | TooLate | FirstSeen | StillWaiting

  /** What becomes of one waiting dungeon. */
  ghost function Judged(seen: Glance, now: Time, timeout: Time): Verdict
    requires seen.dungeon.Some?
  {
    if SomebodyGone(seen.dungeon.value) then Paused
    else if seen.udp.Some? && seen.udp.value.endpoints.Keys == seen.udp.value.tokens.Keys then Complete
    else if seen.since.None? then FirstSeen
    else if now - seen.since.value >= timeout then TooLate
    else StillWaiting
  }

  ghost function AfterJudgement(seen: Glance, now: Time, timeout: Time): Glance
    requires seen.dungeon.Some?
  {
    match Judged(seen, now, timeout)
    case Paused => seen.(since := None)
    case Complete =>
      Glance(Some(seen.dungeon.value.(state := Running)), Some(Handled(seen.udp.value, Refresh(now))), None)
    case TooLate => Glance(None, None, None)
    case FirstSeen => seen.(since := Some(now))
    case StillWaiting => seen
  }

  ghost function Considered(g: Gate, id: DungeonId, now: Time, timeout: Time): Gate
    requires id in g.w.registry.dungeons
  {
    match Judged(At(g, id), now, timeout)
    case Paused => g.(since := g.since - {id})
    case Complete =>
      Gate(g.w.(registry := WithState(g.w.registry, id, Running), udp := Carried(g.w.udp, id, Refresh(now))),
           g.since - {id})
    case TooLate =>
      Gate(g.w.(registry := Closed(g.w.registry, id), udp := g.w.udp - {id}), g.since - {id})
    case FirstSeen => g.(since := g.since[id := now])
    case StillWaiting => g
  }

  /** The dungeons of a list, one after the other. */
  ghost function ConsideredAll(g: Gate, ids: seq<DungeonId>, now: Time, timeout: Time): Gate
  {
    if ids == [] then g
    else
      var before := ConsideredAll(g, ids[..|ids| - 1], now, timeout);
      var id := ids[|ids| - 1];
      if id in before.w.registry.dungeons then Considered(before, id, now, timeout) else before
  }

  /** The cleanup: only what was waiting at the start of the tick is remembered. */
  ghost function Tidied(g: Gate, waiting: set<DungeonId>): Gate {
    g.(since := map id | id in g.since && id in waiting :: g.since[id])
  }

  ghost function WaitingIds(w: World): set<DungeonId> {
    set id | id in w.registry.dungeons && w.registry.dungeons[id].state.Waiting?
  }

  /** Considering a dungeon changes what is seen of it, and of no other. */
  lemma ConsideredAt(g: Gate, id: DungeonId, now: Time, timeout: Time, other: DungeonId)
    requires id in g.w.registry.dungeons
    ensures At(Considered(g, id, now, timeout), other) ==
      if other == id then AfterJudgement(At(g, id), now, timeout) else At(g, other)
  {
    hide SomebodyGone, Handled;
    match Judged(At(g, id), now, timeout)
    case Complete => StartedAt(g, id, now, timeout, other);
    case TooLate => CancelledAt(g, id, now, timeout, other);
    case _ =>
  }

  lemma StartedAt(g: Gate, id: DungeonId, now: Time, timeout: Time, other: DungeonId)
    requires id in g.w.registry.dungeons && Judged(At(g, id), now, timeout).Complete?
    ensures At(Considered(g, id, now, timeout), other) ==
      if other == id then AfterJudgement(At(g, id), now, timeout) else At(g, other)
  {
    hide SomebodyGone, Handled;
  }

  lemma CancelledAt(g: Gate, id: DungeonId, now: Time, timeout: Time, other: DungeonId)
    requires id in g.w.registry.dungeons && Judged(At(g, id), now, timeout).TooLate?
    ensures At(Considered(g, id, now, timeout), other) ==
      if other == id then AfterJudgement(At(g, id), now, timeout) else At(g, other)
  {
    hide SomebodyGone, Handled;
  }

  /** Where a dungeon stands in a pass: as at the start until it is considered, and as it was
      judged at the start afterwards. */
  lemma {:induction false} PassAt(g: Gate, ids: seq<DungeonId>, now: Time, timeout: Time, id: DungeonId)
    requires Distinct(ids) && forall i :: i in ids ==> i in g.w.registry.dungeons
    ensures At(ConsideredAll(g, ids, now, timeout), id) ==
      if id in ids then AfterJudgement(At(g, id), now, timeout) else At(g, id)
  {
    if ids != [] {
      hide Considered, AfterJudgement;
      var init, last := ids[..|ids| - 1], ids[|ids| - 1];
      PassAt(g, init, now, timeout, id);
      PassAt(g, init, now, timeout, last);
      assert ids == init + [last] && last !in init;
      ConsideredAt(ConsideredAll(g, init, now, timeout), last, now, timeout, id);
    }
  }

  /** A tick takes a dungeon from Waiting to Running exactly when it has participants, none of
      them is gone, and each of them has its authenticated endpoint; the sizes the code compares
      mean that because every endpoint belongs to a token and every token to a participant. */
  lemma StartedExactlyWhenComplete(g: Gate, ids: seq<DungeonId>, now: Time, timeout: Time, id: DungeonId)
    requires Invariant(g.w) && Settled(g.w) && ListsOnce(ids, WaitingIds(g.w)) && id in WaitingIds(g.w)
    ensures
      var before := g.w.registry.dungeons[id];
      (At(ConsideredAll(g, ids, now, timeout), id).dungeon == Some(before.(state := Running))) <==>
        && before.roster.seats != map[]
        && (forall s :: s in before.roster.seats ==> before.roster.seats[s].since.None?)
        && id in g.w.udp && g.w.udp[id].endpoints.Keys == before.roster.seats.Keys
  {
    hide Invariant, Settled, ConsideredAll, AfterJudgement;
    CoupledAt(g.w, id);
    PassAt(g, ids, now, timeout, id);
    Verdicts(At(g, id), now, timeout, g.w.registry.dungeons[id].roster.seats.Keys);
  }

  /** The judgement of a waiting dungeon whose tokens belong to its seats. */
  lemma Verdicts(seen: Glance, now: Time, timeout: Time, seated: set<SessionId>)
    requires seen.dungeon.Some? && seen.udp.Some? && seen.dungeon.value.state.Waiting?
    requires seen.udp.value.tokens.Keys == seated == seen.dungeon.value.roster.seats.Keys
    ensures
      var d := seen.dungeon.value;
      var after := AfterJudgement(seen, now, timeout).dungeon;
      && (after == Some(d.(state := Running)) <==> !SomebodyGone(d) && seen.udp.value.endpoints.Keys == seated)
      && (after.None? <==>
            && !SomebodyGone(d) && seen.udp.value.endpoints.Keys != seated
            && seen.since.Some? && now - seen.since.value >= timeout)
  {
    hide SomebodyGone, Handled;
  }

  lemma CoupledAt(w: World, id: DungeonId)
    requires Invariant(w) && Settled(w) && id in w.registry.dungeons
    ensures id in w.udp && w.udp[id].tokens.Keys == w.registry.dungeons[id].roster.seats.Keys
    ensures w.registry.dungeons[id].roster.seats != map[]
  {
    hide Settled, TokensFit, ReconnectsFit, DropsFit, SessionsFit, UdpConsistent, UdpIdsFit;
    hide LoginsInverse, PartiesInverse, AbsentLoggedOut, WellSeated;
    FitsAndSettled(w);
  }

  /** And it is cancelled exactly when nobody is gone, somebody's endpoint is still missing, and
      it was already incomplete, with nobody gone, at least the timeout ago. */
  lemma CancelledExactlyWhenLate(g: Gate, ids: seq<DungeonId>, now: Time, timeout: Time, id: DungeonId)
    requires Invariant(g.w) && Settled(g.w) && ListsOnce(ids, WaitingIds(g.w)) && id in WaitingIds(g.w)
    ensures
      var before := g.w.registry.dungeons[id];
      At(ConsideredAll(g, ids, now, timeout), id).dungeon.None? <==>
        && (forall s :: s in before.roster.seats ==> before.roster.seats[s].since.None?)
        && id in g.w.udp && g.w.udp[id].endpoints.Keys != before.roster.seats.Keys
        && id in g.since && now - g.since[id] >= timeout
  {
    hide Invariant, Settled, ConsideredAll, AfterJudgement;
    CoupledAt(g.w, id);
    PassAt(g, ids, now, timeout, id);
    Verdicts(At(g, id), now, timeout, g.w.registry.dungeons[id].roster.seats.Keys);
  }

  // ---------------------------------------------------------------- the ready timeout, over many ticks

  /** What one pass sees of a waiting dungeon, and when. */
  datatype Look = Look(dungeon: Dungeon, udp: Option<Udp>, now: Time)

  /** Nobody is gone, and somebody's endpoint is missing. */
  ghost predicate Lacking(look: Look) {
    && (forall s :: s in look.dungeon.roster.seats ==> look.dungeon.roster.seats[s].since.None?)
    && (look.udp.Some? ==> look.udp.value.endpoints.Keys != look.udp.value.tokens.Keys)
  }

  /** The dungeon's entry in the table of times after some passes that left it waiting. */
  ghost function Noted(looks: seq<Look>, timeout: Time): Option<Time> {
    if looks == [] then None
    else
      var look := looks[|looks| - 1];
      AfterJudgement(Glance(Some(look.dungeon), look.udp, Noted(looks[..|looks| - 1], timeout)), look.now, timeout).since
  }

  ghost function VerdictAt(looks: seq<Look>, timeout: Time, n: nat): Verdict
    requires n < |looks|
  {
    Judged(Glance(Some(looks[n].dungeon), looks[n].udp, Noted(looks[..n], timeout)), looks[n].now, timeout)
  }

  /** Whatever happens between the ticks: a waiting dungeon is cancelled at a pass exactly when every
      pass of an unbroken row up to it has found nobody gone and somebody's endpoint missing, and the
      first of that row lies at least the timeout back. A pass that finds somebody gone breaks the
      row, so the time starts afresh. */
  lemma ReadyTimeoutRuns(looks: seq<Look>, timeout: Time, first: nat, n: nat)
    requires timeout > 0 && first <= n < |looks|
    requires forall i :: first <= i <= n ==> Lacking(looks[i])
    requires first == 0 || SomebodyGone(looks[first - 1].dungeon)
    requires forall i :: 0 <= i < n ==> VerdictAt(looks, timeout, i) !in {TooLate, Complete}
    ensures VerdictAt(looks, timeout, n).TooLate? <==> first < n && looks[n].now - looks[first].now >= timeout
    ensures VerdictAt(looks, timeout, n).FirstSeen? <==> first == n
  {
    NotedInRow(looks, timeout, first, n);
    assert Lacking(looks[n]);
  }

  /** In a row of such passes the entry is the time of the first. */
  lemma {:induction false} NotedInRow(looks: seq<Look>, timeout: Time, first: nat, n: nat)
    requires first <= n < |looks|
    requires forall i :: first <= i < n ==> Lacking(looks[i])
    requires first == 0 || SomebodyGone(looks[first - 1].dungeon)
    requires forall i :: 0 <= i < n ==> VerdictAt(looks, timeout, i) !in {TooLate, Complete}
    ensures Noted(looks[..n], timeout) == if first == n then None else Some(looks[first].now)
  {
    if n > 0 {
      assert looks[..n][..n - 1] == looks[..n - 1] && looks[..n][n - 1] == looks[n - 1];
      if first < n {
        NotedInRow(looks, timeout, first, n - 1);
        assert Lacking(looks[n - 1]) && VerdictAt(looks, timeout, n - 1) !in {TooLate, Complete};
      }
    }
  }

  /** In a pass this is what happens to the entry of every dungeon that is left waiting. */
  lemma PassNotes(g: Gate, ids: seq<DungeonId>, now: Time, timeout: Time, id: DungeonId, looks: seq<Look>)
    requires Distinct(ids) && (forall i :: i in ids ==> i in g.w.registry.dungeons) && id in ids
    requires Lookup(g.since, id) == Noted(looks, timeout)
    ensures
      var look := Look(g.w.registry.dungeons[id], Lookup(g.w.udp, id), now);
      && Lookup(ConsideredAll(g, ids, now, timeout).since, id) == Noted(looks + [look], timeout)
      && VerdictAt(looks + [look], timeout, |looks|) == Judged(At(g, id), now, timeout)
  {
    hide ConsideredAll, AfterJudgement, Judged;
    PassAt(g, ids, now, timeout, id);
    var look := Look(g.w.registry.dungeons[id], Lookup(g.w.udp, id), now);
    assert (looks + [look])[..|looks|] == looks && (looks + [look])[|looks|] == look;
  }
}
