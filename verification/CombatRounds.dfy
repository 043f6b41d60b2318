/** One dungeon's combat as src/DungeonCombatProcessor.cpp runs it, tick by tick: the table of
    hits that wait for their skill's startup to end, and what becomes of every accepted cast. */
module CombatRounds {
  import opened Common
  import opened PlayerState

  /** PendingSkillHit: the skill, what it does to an enemy, and where the caster aimed. */
  datatype PendingHit = PendingHit(skill: Skill, damage: UInt32, directionX: real, directionY: real)

  /** An attack taken from the queue; the hit is missing when the catalog has no such skill. */
  datatype QueuedAttack = QueuedAttack(session: SessionId, hit: Option<PendingHit>)

  datatype Combat = Combat(fighters: map<SessionId, Fighter>, hits: map<SessionId, PendingHit>)

  ghost predicate AllFit(fighters: map<SessionId, Fighter>) {
    forall s :: s in fighters ==> Fit(fighters[s])
  }

  ghost function TickedAll(fighters: map<SessionId, Fighter>): map<SessionId, Fighter>
    requires AllFit(fighters)
  {
    map s | s in fighters :: Ticked(fighters[s])
  }

  /** The caster is gone, dead, or doing something else. */
  predicate Stale(c: Combat, s: SessionId)
    requires s in c.hits
  {
    s !in c.fighters || c.fighters[s].hp == 0 || c.fighters[s].action.skillId != c.hits[s].skill.id
  }

  /** The startup is over: the hit strikes now. */
  predicate Due(c: Combat, s: SessionId)
    requires s in c.hits
  {
    !Stale(c, s) && c.fighters[s].action.phase.Active?
  }

  /** ResolvePendingHits: what waits on. */
  function Resolved(c: Combat): Combat {
    c.(hits := map s | s in c.hits && !Stale(c, s) && !Due(c, s) :: c.hits[s])
  }

  function Struck(c: Combat): set<SessionId> {
    set s | s in c.hits && Due(c, s)
  }

  predicate Accepts(c: Combat, a: QueuedAttack) {
    a.session in c.fighters && a.hit.Some? && BeginResult(c.fighters[a.session], a.hit.value.skill).Success?
  }

  function AttackTaken(c: Combat, a: QueuedAttack): Combat {
    if !Accepts(c, a) then c
    else
      Combat(c.fighters[a.session := Begun(c.fighters[a.session], a.hit.value.skill)],
             c.hits[a.session := a.hit.value])
  }

  function AttacksTaken(c: Combat, attacks: seq<QueuedAttack>): Combat {
    if attacks == [] then c
    else AttackTaken(AttacksTaken(c, attacks[..|attacks| - 1]), attacks[|attacks| - 1])
  }

  /** An attack is accepted exactly from a seated caster who lives, is idle, and has a known skill off
      its cooldown and the mana for it. Its cast begins with the mana paid, and its hit waits in the
      table, in the place of any older one of the same session; nobody else is touched. A refused
      attack changes nothing. */
  lemma AttackMeans(c: Combat, a: QueuedAttack)
    ensures Accepts(c, a) <==>
      && a.session in c.fighters && a.hit.Some?
      && var f, skill := c.fighters[a.session], a.hit.value.skill;
      && f.hp > 0 && skill.id != 0 && skill.activeTicks > 0 && skill.id !in f.cooldowns
      && f.action.phase.Idle? && f.mp >= skill.manaCost
    ensures !Accepts(c, a) ==> AttackTaken(c, a) == c
    ensures Accepts(c, a) ==>
      var c', skill := AttackTaken(c, a), a.hit.value.skill;
      && c'.hits == c.hits[a.session := a.hit.value]
      && c'.fighters.Keys == c.fighters.Keys
      && (forall s :: s in c.fighters && s != a.session ==> c'.fighters[s] == c.fighters[s])
      && c'.fighters[a.session].mp == c.fighters[a.session].mp - skill.manaCost
      && c'.fighters[a.session].hp == c.fighters[a.session].hp
      && c'.fighters[a.session].action == Schedule(skill, 0)
      && (skill.cooldownTicks > 0 ==> Lookup(c'.fighters[a.session].cooldowns, skill.id) == Some(skill.cooldownTicks))
  {
  }

  /** The table when the tick starts to take attacks, and after the whole tick. */
  ghost function BeforeAttacks(fighters: map<SessionId, Fighter>, hits: map<SessionId, PendingHit>): Combat
    requires AllFit(fighters)
  {
    Resolved(Combat(TickedAll(fighters), hits))
  }

  /** Process on a running dungeon: tick, resolve, take the attacks, resolve. */
  ghost function Processed(fighters: map<SessionId, Fighter>, hits: map<SessionId, PendingHit>, attacks: seq<QueuedAttack>)
    : Combat
    requires AllFit(fighters)
  {
    Resolved(AttacksTaken(BeforeAttacks(fighters, hits), attacks))
  }

  lemma TickedAllIsFit(fighters: map<SessionId, Fighter>)
    requires AllFit(fighters)
    ensures AllFit(TickedAll(fighters))
  {
    forall s | s in fighters
      ensures Fit(Ticked(fighters[s]))
    {
      assert Acted(fighters[s], Tick) == Ticked(fighters[s]);
    }
  }

  lemma AttackedIsFit(c: Combat, a: QueuedAttack)
    requires AllFit(c.fighters)
    ensures AllFit(AttackTaken(c, a).fighters)
  {
    if Accepts(c, a) {
      assert Acted(c.fighters[a.session], Begin(a.hit.value.skill)) == Begun(c.fighters[a.session], a.hit.value.skill);
    }
  }

  // ---------------------------------------------------------------- whole fights

  /** An accepted cast, and how it ended. */
  datatype Cast = Cast(session: SessionId, skill: Skill, round: nat)
  datatype Fate = Hit(round: nat) | Lost(round: nat)

  /** A fight with its history: every accepted cast, the latest one of each session, and the
      fate of those that are no longer waiting. */
  datatype Fight = Fight(
    round: nat,
    c: Combat,
    casts: seq<Cast>,
    latest: map<SessionId, nat>,
    fates: map<nat, Fate>)

  const QUIET := Fight(0, Combat(map[], map[]), [], map[], map[])

  /** One call of Process: whether the dungeon still runs, the characters as it finds them, and
      the attacks in its queue. */
  datatype Round = Round(running: bool, found: map<SessionId, Fighter>, attacks: seq<QueuedAttack>)

  function DueRound(cast: Cast): nat {
    cast.round + cast.skill.startupTicks
  }

  /** Between two calls a character can be hurt or killed, or its session can go. */
  ghost predicate Hurt(before: Fighter, after: Fighter) {
    && after.hp <= before.hp
    && (after.hp > 0 ==> after.action == before.action)
  }

  ghost predicate CanFollow(h: Fight, r: Round) {
    && AllFit(r.found)
    && forall s :: s in h.c.hits && s in h.c.fighters && s in r.found ==> Hurt(h.c.fighters[s], r.found[s])
  }

  predicate Pending(h: Fight, i: nat) {
    i < |h.casts| && h.casts[i].session in h.c.hits &&
    h.casts[i].session in h.latest && h.latest[h.casts[i].session] == i
  }

  /** Resolution, with the fates of the hits that leave the table. */
  function ResolvedFight(h: Fight): Fight {
    h.(c := Resolved(h.c),
       fates := map i: nat | i < |h.casts| && (i in h.fates || (Pending(h, i) && Ends(h.c, h.casts[i].session))) ::
         if i in h.fates then h.fates[i] else if Due(h.c, h.casts[i].session) then Hit(h.round) else Lost(h.round))
  }

  predicate Ends(c: Combat, s: SessionId)
    requires s in c.hits
  {
    Stale(c, s) || Due(c, s)
  }

  function AttackedFight(h: Fight, a: QueuedAttack): Fight {
    if !Accepts(h.c, a) then h
    else
      h.(c := AttackTaken(h.c, a),
         casts := h.casts + [Cast(a.session, a.hit.value.skill, h.round)],
         latest := h.latest[a.session := |h.casts|])
  }

  function AttackedFightAll(h: Fight, attacks: seq<QueuedAttack>): Fight {
    if attacks == [] then h
    else AttackedFight(AttackedFightAll(h, attacks[..|attacks| - 1]), attacks[|attacks| - 1])
  }

  ghost function Found(h: Fight, r: Round): Fight
    requires AllFit(r.found)
  {
    h.(round := h.round + 1, c := Combat(TickedAll(r.found), h.c.hits))
  }

  /** A call on a dungeon that does not run empties the table. */
  function Halted(h: Fight, r: Round): Fight {
    h.(round := h.round + 1, c := Combat(r.found, map[]),
       fates := map i: nat | i < |h.casts| && (i in h.fates || Pending(h, i)) ::
         if i in h.fates then h.fates[i] else Lost(h.round + 1))
  }

  ghost function NextFight(h: Fight, r: Round): Fight
    requires AllFit(r.found)
  {
    if !r.running then Halted(h, r)
    else ResolvedFight(AttackedFightAll(ResolvedFight(Found(h, r)), r.attacks))
  }

  ghost function FightAfter(rounds: seq<Round>): Option<Fight> {
    if rounds == [] then Some(QUIET)
    else
      var before := FightAfter(rounds[..|rounds| - 1]);
      var r := rounds[|rounds| - 1];
      if before.Some? && CanFollow(before.value, r) then Some(NextFight(before.value, r)) else None
  }

  // ---------------------------------------------------------------- the invariant

  /** A waiting hit belongs to the session's latest cast, which has no fate yet. */
  ghost predicate Recorded(h: Fight, s: SessionId)
    requires s in h.c.hits
  {
    && s in h.latest && h.latest[s] < |h.casts| && h.latest[s] !in h.fates
    && var cast := h.casts[h.latest[s]];
    && cast.session == s && cast.skill == h.c.hits[s].skill && cast.round <= h.round <= DueRound(cast)
    && cast.skill.id != 0 && cast.skill.activeTicks > 0
  }

  function Age(h: Fight, s: SessionId): nat
    requires s in h.latest && h.latest[s] < |h.casts| && h.casts[h.latest[s]].round <= h.round
  {
    h.round - h.casts[h.latest[s]].round
  }

  /** Where a living caster stands: as far along the skill's schedule as its cast is old. */
  ghost predicate OnSchedule(h: Fight, s: SessionId)
    requires s in h.c.hits && Recorded(h, s)
  {
    s in h.c.fighters && h.c.fighters[s].hp > 0 ==> h.c.fighters[s].action == Schedule(h.c.hits[s].skill, Age(h, s))
  }

  ghost predicate AllRecorded(h: Fight) {
    forall s :: s in h.c.hits ==> Recorded(h, s)
  }

  ghost predicate AllOnSchedule(h: Fight)
    requires AllRecorded(h)
  {
    forall s :: s in h.c.hits ==> OnSchedule(h, s)
  }

  /** After a call: every waiting hit has a living caster in the startup of that very skill. */
  ghost predicate InStartup(h: Fight) {
    forall s :: s in h.c.hits ==>
      && s in h.c.fighters && h.c.fighters[s].hp > 0
      && h.c.fighters[s].action.phase.Startup? && h.c.fighters[s].action.skillId == h.c.hits[s].skill.id
  }

  /** Every cast is waiting or has met its fate; a hit struck exactly when its startup was over,
      and a lost one never got that far. */
  ghost predicate FatesFit(h: Fight) {
    && (forall i :: i in h.fates ==> i < |h.casts| && FateFits(h.casts[i], h.fates[i]) && h.fates[i].round <= h.round)
    && (forall i :: 0 <= i < |h.casts| ==> i in h.fates || Pending(h, i))
  }

  ghost predicate FateFits(cast: Cast, fate: Fate) {
    match fate
    case Hit(round) => round == DueRound(cast)
    case Lost(round) => cast.round < round <= DueRound(cast)
  }

  ghost predicate FightFits(h: Fight) {
    AllFit(h.c.fighters) && AllRecorded(h) && AllOnSchedule(h) && InStartup(h) && FatesFit(h)
  }

  // ---------------------------------------------------------------- the steps of a call

  /** What holds in the middle of a call. */
  ghost predicate Mid(h: Fight) {
    AllFit(h.c.fighters) && AllRecorded(h) && AllOnSchedule(h) && FatesFit(h)
  }

  /** A caster on schedule is in the startup before the startup is over, and active at its end. */
  lemma OnScheduleAt(skill: Skill, k: nat)
    requires skill.activeTicks > 0 && k <= skill.startupTicks
    ensures Schedule(skill, k).skillId == skill.id
    ensures k < skill.startupTicks ==> Schedule(skill, k).phase.Startup?
    ensures k == skill.startupTicks ==> Schedule(skill, k).phase.Active?
  {
  }

  lemma FoundIsMid(h: Fight, r: Round)
    requires FightFits(h) && CanFollow(h, r)
    ensures Mid(Found(h, r))
    ensures forall s :: s in Found(h, r).c.hits ==> Age(Found(h, r), s) > 0
  {
    var h' := Found(h, r);
    TickedAllIsFit(r.found);
    forall s | s in h'.c.hits
      ensures Recorded(h', s) && OnSchedule(h', s) && Age(h', s) > 0
    {
      assert Recorded(h, s) && OnSchedule(h, s);
      OnScheduleAt(h.c.hits[s].skill, Age(h, s));
      ScheduleTicks(h.c.hits[s].skill, Age(h, s));
    }
    assert forall i :: Pending(h, i) ==> Pending(h', i);
  }

  /** Resolution strikes exactly the hits whose startup is over, and loses exactly those whose
      caster is gone or dead. */
  lemma ResolvedFits(h: Fight)
    requires Mid(h)
    requires forall s :: s in h.c.hits && Stale(h.c, s) ==> Age(h, s) > 0
    ensures Mid(ResolvedFight(h)) && InStartup(ResolvedFight(h))
    ensures forall s :: s in h.c.hits ==>
      (Due(h.c, s) <==> s in h.c.fighters && h.c.fighters[s].hp > 0 && h.round == DueRound(h.casts[h.latest[s]]))
  {
    var h' := ResolvedFight(h);
    forall s | s in h.c.hits
      ensures Due(h.c, s) <==> s in h.c.fighters && h.c.fighters[s].hp > 0 && h.round == DueRound(h.casts[h.latest[s]])
      ensures Stale(h.c, s) <==> !(s in h.c.fighters && h.c.fighters[s].hp > 0)
      ensures s in h'.c.hits ==> h.c.fighters[s].action.phase.Startup?
    {
      assert Recorded(h, s) && OnSchedule(h, s);
      OnScheduleAt(h.c.hits[s].skill, Age(h, s));
    }
    ResolvedRecords(h);
    ResolvedFates(h);
  }

  lemma ResolvedRecords(h: Fight)
    requires AllRecorded(h) && AllOnSchedule(h)
    ensures AllRecorded(ResolvedFight(h)) && AllOnSchedule(ResolvedFight(h))
  {
    var h' := ResolvedFight(h);
    forall s | s in h'.c.hits
      ensures Recorded(h', s) && OnSchedule(h', s)
    {
      assert Recorded(h, s) && OnSchedule(h, s);
      assert h.casts[h.latest[s]].session == s && !Ends(h.c, s);
    }
  }

  lemma ResolvedFates(h: Fight)
    requires AllRecorded(h) && FatesFit(h)
    requires forall s :: s in h.c.hits && Due(h.c, s) ==> h.round == DueRound(h.casts[h.latest[s]])
    requires forall s :: s in h.c.hits && Stale(h.c, s) ==> Age(h, s) > 0
    ensures FatesFit(ResolvedFight(h))
  {
    var h' := ResolvedFight(h);
    forall i | i in h'.fates
      ensures i < |h.casts| && FateFits(h.casts[i], h'.fates[i]) && h'.fates[i].round <= h.round
    {
      if i !in h.fates {
        assert Recorded(h, h.casts[i].session);
      }
    }
    forall i | 0 <= i < |h.casts| && i !in h'.fates
      ensures Pending(h', i)
    {
      assert Pending(h, i) && !Ends(h.c, h.casts[i].session);
    }
  }

  /** While attacks are taken every waiting hit has a living caster busy with it, so a new
      cast never meets an old hit in the table. */
  ghost predicate Manned(h: Fight) {
    forall s :: s in h.c.hits ==>
      && s in h.c.fighters && h.c.fighters[s].hp > 0
      && !h.c.fighters[s].action.phase.Idle? && h.c.fighters[s].action.skillId == h.c.hits[s].skill.id
  }

  lemma NeverOverwrites(h: Fight, a: QueuedAttack)
    requires Manned(h) && Accepts(h.c, a)
    ensures a.session !in h.c.hits
  {
  }

  lemma AttackedFits(h: Fight, a: QueuedAttack)
    requires Mid(h) && Manned(h)
    ensures Mid(AttackedFight(h, a)) && Manned(AttackedFight(h, a))
  {
    if Accepts(h.c, a) {
      NeverOverwrites(h, a);
      AttackedIsFit(h.c, a);
      AttackedRecords(h, a);
      AttackedFates(h, a);
      OnScheduleAt(a.hit.value.skill, 0);
    }
  }

  lemma AttackedRecords(h: Fight, a: QueuedAttack)
    requires AllRecorded(h) && AllOnSchedule(h) && FatesFit(h) && Accepts(h.c, a) && a.session !in h.c.hits
    ensures AllRecorded(AttackedFight(h, a)) && AllOnSchedule(AttackedFight(h, a))
  {
    var h' := AttackedFight(h, a);
    forall s | s in h'.c.hits
      ensures Recorded(h', s) && OnSchedule(h', s)
    {
      if s != a.session {
        assert Recorded(h, s) && OnSchedule(h, s);
        assert h'.casts[h.latest[s]] == h.casts[h.latest[s]];
      } else {
        assert h'.casts[|h.casts|].round == h.round && |h.casts| !in h.fates;
      }
    }
  }

  lemma AttackedFates(h: Fight, a: QueuedAttack)
    requires FatesFit(h) && Accepts(h.c, a) && a.session !in h.c.hits
    ensures FatesFit(AttackedFight(h, a))
  {
    var h' := AttackedFight(h, a);
    forall i | 0 <= i < |h'.casts| && i !in h'.fates
      ensures Pending(h', i)
    {
      if i < |h.casts| {
        assert Pending(h, i) && h'.casts[i] == h.casts[i];
      }
    }
    forall i | i in h'.fates
      ensures i < |h'.casts| && FateFits(h'.casts[i], h'.fates[i]) && h'.fates[i].round <= h'.round
    {
      assert h'.casts[i] == h.casts[i];
    }
  }

  lemma {:induction false} AttackedAllFits(h: Fight, attacks: seq<QueuedAttack>)
    requires Mid(h) && Manned(h)
    ensures Mid(AttackedFightAll(h, attacks)) && Manned(AttackedFightAll(h, attacks))
  {
    hide Mid, Manned, AttackedFight;
    if attacks != [] {
      AttackedAllFits(h, attacks[..|attacks| - 1]);
      AttackedFits(AttackedFightAll(h, attacks[..|attacks| - 1]), attacks[|attacks| - 1]);
    }
  }

  lemma NextKeeps(h: Fight, r: Round)
    requires FightFits(h) && CanFollow(h, r)
    ensures FightFits(NextFight(h, r))
  {
    if r.running {
      hide Recorded, OnSchedule, FatesFit, AllFit, AllRecorded, AllOnSchedule;
      FoundIsMid(h, r);
      ResolvedFits(Found(h, r));
      AttackedAllFits(ResolvedFight(Found(h, r)), r.attacks);
      ResolvedFits(AttackedFightAll(ResolvedFight(Found(h, r)), r.attacks));
    } else {
      HaltedFits(h, r);
    }
  }

  lemma HaltedFits(h: Fight, r: Round)
    requires FightFits(h) && CanFollow(h, r)
    ensures FightFits(Halted(h, r))
  {
    var h' := Halted(h, r);
    forall i | i in h'.fates
      ensures i < |h.casts| && FateFits(h.casts[i], h'.fates[i]) && h'.fates[i].round <= h'.round
    {
      if i !in h.fates {
        var s := h.casts[i].session;
        assert Recorded(h, s) && OnSchedule(h, s);
        OnScheduleAt(h.c.hits[s].skill, Age(h, s));
      }
    }
  }

  // ---------------------------------------------------------------- what becomes of a cast

  /** The session is still there, alive, in a running dungeon, when a call finds it. */
  predicate Survives(r: Round, s: SessionId) {
    r.running && s in r.found && r.found[s].hp > 0
  }

  lemma {:induction false} AttacksKeepHistory(h: Fight, attacks: seq<QueuedAttack>)
    ensures
      var h' := AttackedFightAll(h, attacks);
      && h'.fates == h.fates && h'.round == h.round && h.casts <= h'.casts
      && forall i :: |h.casts| <= i < |h'.casts| ==> h'.casts[i].round == h.round
  {
    if attacks != [] {
      AttacksKeepHistory(h, attacks[..|attacks| - 1]);
    }
  }

  /** What one call does to the casts there were before it. */
  lemma NextOutcome(h: Fight, r: Round)
    requires FightFits(h) && CanFollow(h, r)
    ensures
      var h' := NextFight(h, r);
      && h'.round == h.round + 1 && h.casts <= h'.casts
      && (forall i :: |h.casts| <= i < |h'.casts| ==> h'.casts[i].round == h'.round)
      && (forall i :: i in h.fates ==> i in h'.fates && h'.fates[i] == h.fates[i])
      && (forall i :: i in h'.fates && i !in h.fates ==> h'.fates[i].round == h'.round)
      && (forall i :: 0 <= i < |h.casts| && i !in h.fates ==>
            ((i in h'.fates && h'.fates[i].Lost?) <==> !Survives(r, h.casts[i].session)))
  {
    if r.running {
      RunningOutcome(h, r);
    } else {
      forall i | 0 <= i < |h.casts| && i !in h.fates
        ensures Pending(h, i)
      {
      }
    }
  }

  lemma RunningOutcome(h: Fight, r: Round)
    requires FightFits(h) && CanFollow(h, r) && r.running
    ensures
      var h' := NextFight(h, r);
      && h'.round == h.round + 1 && h.casts <= h'.casts
      && (forall i :: |h.casts| <= i < |h'.casts| ==> h'.casts[i].round == h'.round)
      && (forall i :: i in h.fates ==> i in h'.fates && h'.fates[i] == h.fates[i])
      && (forall i :: i in h'.fates && i !in h.fates ==> h'.fates[i].round == h'.round)
      && (forall i :: 0 <= i < |h.casts| && i !in h.fates ==>
            ((i in h'.fates && h'.fates[i].Lost?) <==> !Survives(r, h.casts[i].session)))
  {
    hide FatesFit, AllFit, Recorded, OnSchedule, AllRecorded, AllOnSchedule;
    var found := Found(h, r);
    FoundIsMid(h, r);
    ResolvedFits(found);
    var first := ResolvedFight(found);
    FirstOutcome(h, r);
    AttacksKeepHistory(first, r.attacks);
    AttackedAllFits(first, r.attacks);
    var attacked := AttackedFightAll(first, r.attacks);
    ResolvedFits(attacked);
    NothingLost(attacked);
  }

  /** A resolution with every caster at its post loses nothing. */
  lemma NothingLost(h: Fight)
    requires Manned(h)
    ensures forall i :: i in ResolvedFight(h).fates && i !in h.fates ==> ResolvedFight(h).fates[i].Hit?
    ensures forall i :: i in h.fates && i < |h.casts| ==>
      i in ResolvedFight(h).fates && ResolvedFight(h).fates[i] == h.fates[i]
  {
  }

  lemma FirstOutcome(h: Fight, r: Round)
    requires FightFits(h) && CanFollow(h, r) && r.running
    ensures
      var first := ResolvedFight(Found(h, r));
      && (forall i :: i in h.fates ==> i < |h.casts| && i in first.fates && first.fates[i] == h.fates[i])
      && (forall i :: 0 <= i < |h.casts| && i !in h.fates ==>
            ((i in first.fates && first.fates[i].Lost?) <==> !Survives(r, h.casts[i].session)))
  {
    var found := Found(h, r);
    FoundIsMid(h, r);
    forall i | 0 <= i < |h.casts| && i !in h.fates
      ensures Pending(found, i) && (Stale(found.c, h.casts[i].session) <==> !Survives(r, h.casts[i].session))
    {
      assert Pending(h, i);
      var s := h.casts[i].session;
      assert Recorded(found, s) && OnSchedule(found, s);
      OnScheduleAt(found.c.hits[s].skill, Age(found, s));
    }
  }

  /** The session has survived the calls after the cast, up to a given one. */
  ghost predicate SurvivedTo(rounds: seq<Round>, cast: Cast, to: nat) {
    forall t: nat :: cast.round < t <= to && t <= |rounds| ==> SurvivesAt(rounds, t, cast.session)
  }

  /** The same for the t-th call, counted from 1. */
  predicate SurvivesAt(rounds: seq<Round>, t: nat, s: SessionId)
    requires 0 < t <= |rounds|
  {
    Survives(rounds[t - 1], s)
  }

  ghost predicate AllExplained(rounds: seq<Round>, h: Fight) {
    forall i :: 0 <= i < |h.casts| ==> Explained(rounds, h, i)
  }

  /** A cast that waits or has struck belongs to a session that has survived so far; a lost one
      was lost in the first call that did not find its caster alive in a running dungeon. */
  ghost predicate Explained(rounds: seq<Round>, h: Fight, i: nat)
    requires i < |h.casts|
  {
    if i !in h.fates then SurvivedTo(rounds, h.casts[i], |rounds|)
    else match h.fates[i]
      case Hit(t) => SurvivedTo(rounds, h.casts[i], t)
      case Lost(t) => LostAt(rounds, h.casts[i], t)
  }

  ghost predicate LostAt(rounds: seq<Round>, cast: Cast, t: nat) {
    cast.round < t <= |rounds| && SurvivedTo(rounds, cast, t - 1) && !SurvivesAt(rounds, t, cast.session)
  }

  lemma {:induction false} EveryFightFits(rounds: seq<Round>)
    requires FightAfter(rounds).Some?
    ensures FightFits(FightAfter(rounds).value) && FightAfter(rounds).value.round == |rounds|
    ensures AllExplained(rounds, FightAfter(rounds).value)
  {
    if rounds != [] {
      var earlier, r := rounds[..|rounds| - 1], rounds[|rounds| - 1];
      var h := FightAfter(earlier).value;
      EveryFightFits(earlier);
      NextKeeps(h, r);
      NextOutcome(h, r);
      ExplainedNext(rounds, h);
    }
  }

  lemma ExplainedNext(rounds: seq<Round>, h: Fight)
    requires rounds != [] && FightFits(h) && h.round == |rounds| - 1 && CanFollow(h, rounds[|rounds| - 1])
    requires AllExplained(rounds[..|rounds| - 1], h)
    ensures AllExplained(rounds, NextFight(h, rounds[|rounds| - 1]))
  {
    var r := rounds[|rounds| - 1];
    var h' := NextFight(h, r);
    NextKeeps(h, r);
    NextOutcome(h, r);
    hide NextFight, CanFollow, AllFit, AllRecorded, AllOnSchedule, InStartup, Pending, Explained;
    forall i | 0 <= i < |h'.casts|
      ensures Explained(rounds, h', i)
    {
      if i < |h.casts| {
        assert Explained(rounds[..|rounds| - 1], h, i);
        OldCastExplained(rounds, h, h', i);
      } else {
        NewCastExplained(rounds, h', i);
      }
    }
  }

  lemma NewCastExplained(rounds: seq<Round>, h: Fight, i: nat)
    requires i < |h.casts| && h.casts[i].round == |rounds| == h.round
    requires i in h.fates ==> FateFits(h.casts[i], h.fates[i]) && h.fates[i].round <= h.round
    ensures Explained(rounds, h, i)
  {
  }

  lemma SurvivedOneMore(rounds: seq<Round>, cast: Cast, to: nat)
    requires rounds != [] && SurvivedTo(rounds[..|rounds| - 1], cast, to)
    ensures to < |rounds| ==> SurvivedTo(rounds, cast, to)
    ensures Survives(rounds[|rounds| - 1], cast.session) ==> SurvivedTo(rounds, cast, |rounds|) || to < |rounds| - 1
  {
    forall t: nat | cast.round < t <= to && t < |rounds|
      ensures SurvivesAt(rounds, t, cast.session)
    {
      assert SurvivesAt(rounds[..|rounds| - 1], t, cast.session);
    }
  }

  lemma OldCastExplained(rounds: seq<Round>, h: Fight, h': Fight, i: nat)
    requires rounds != [] && h.round == |rounds| - 1 && h'.round == |rounds|
    requires i < |h.casts| && h.casts <= h'.casts && Explained(rounds[..|rounds| - 1], h, i)
    requires i in h.fates ==> i in h'.fates && h'.fates[i] == h.fates[i] && h.fates[i].round <= h.round
    requires i in h'.fates ==> FateFits(h'.casts[i], h'.fates[i]) && h'.fates[i].round <= h'.round
    requires i !in h.fates ==>
      ((i in h'.fates && h'.fates[i].Lost?) <==> !Survives(rounds[|rounds| - 1], h.casts[i].session))
    requires i !in h.fates && i in h'.fates ==> h'.fates[i].round == h'.round
    ensures Explained(rounds, h', i)
  {
    var earlier, cast := rounds[..|rounds| - 1], h.casts[i];
    if i in h.fates {
      match h.fates[i]
      case Hit(t) => SurvivedOneMore(rounds, cast, t);
      case Lost(t) =>
        SurvivedOneMore(rounds, cast, t - 1);
        assert SurvivesAt(earlier, t, cast.session) <==> SurvivesAt(rounds, t, cast.session);
    } else {
      SurvivedOneMore(rounds, cast, |earlier|);
    }
  }

  /** A cast is marked as a hit in the call that comes startupTicks calls after the one that
      accepted it if and only if its caster is found alive, under the same session, in a running
      dungeon, in every call up to then. Until then it waits; otherwise it is lost. */
  lemma EachCastMeetsItsFate(rounds: seq<Round>, i: nat)
    requires FightAfter(rounds).Some? && i < |FightAfter(rounds).value.casts|
    ensures
      var h := FightAfter(rounds).value;
      var cast := h.casts[i];
      && (i in h.fates && h.fates[i].Hit? ==> h.fates[i].round == DueRound(cast))
      && (DueRound(cast) <= |rounds| ==>
            (Lookup(h.fates, i) == Some(Hit(DueRound(cast))) <==> SurvivedTo(rounds, cast, DueRound(cast))))
      && (|rounds| < DueRound(cast) ==> (i !in h.fates <==> SurvivedTo(rounds, cast, |rounds|)))
  {
    EveryFightFits(rounds);
    var h := FightAfter(rounds).value;
    var cast := h.casts[i];
    assert Explained(rounds, h, i);
    if i in h.fates {
      assert FateFits(cast, h.fates[i]);
    } else {
      assert Pending(h, i) && Recorded(h, cast.session) && OnSchedule(h, cast.session);
      OnScheduleAt(h.c.hits[cast.session].skill, Age(h, cast.session));
    }
  }

  /** Accepted casts are those that struck, those that were lost, and those that wait. */
  lemma CastsAreConserved(rounds: seq<Round>)
    requires FightAfter(rounds).Some?
    ensures |FightAfter(rounds).value.casts| == |FightAfter(rounds).value.fates| + |FightAfter(rounds).value.c.hits|
  {
    hide FightAfter, FightFits, AllExplained;
    EveryFightFits(rounds);
    FightIsConserved(FightAfter(rounds).value);
  }

  lemma FightIsConserved(h: Fight)
    requires FightFits(h)
    ensures |h.casts| == |h.fates| + |h.c.hits|
  {
    hide FightFits, Numbers;
    WaitingApart(h);
    var waiting := map s | s in h.c.hits :: h.latest[s];
    ImageSize(waiting);
    MapSize(h.c.hits);
    MapSize(h.fates);
    assert waiting.Keys == h.c.hits.Keys;
    WaitingNumbers(h, waiting);
    assert |h.fates.Keys + waiting.Values| == |h.fates.Keys| + |waiting.Values|;
  }

  lemma WaitingApart(h: Fight)
    requires FightFits(h)
    ensures forall s :: s in h.c.hits ==> s in h.latest
    ensures forall s, t :: s in h.c.hits && t in h.c.hits && s != t ==> h.latest[s] != h.latest[t]
  {
    forall s | s in h.c.hits
      ensures s in h.latest && h.latest[s] < |h.casts| && h.casts[h.latest[s]].session == s
    {
      assert Recorded(h, s);
    }
  }

  lemma WaitingNumbers(h: Fight, waiting: map<SessionId, nat>)
    requires FightFits(h) && (forall s :: s in h.c.hits ==> s in h.latest)
    requires waiting == map s | s in h.c.hits :: h.latest[s]
    ensures Numbers(|h.casts|) == h.fates.Keys + waiting.Values && h.fates.Keys !! waiting.Values
  {
    forall i | i in Numbers(|h.casts|) && i !in h.fates
      ensures i in waiting.Values
    {
      assert Pending(h, i) && waiting[h.casts[i].session] == i;
    }
    forall i | i in waiting.Values
      ensures i in Numbers(|h.casts|) && i !in h.fates
    {
      var s :| s in waiting && waiting[s] == i;
      assert Recorded(h, s);
    }
  }

  // ---------------------------------------------------------------- the history is only a history

  lemma {:induction false} HistoryOfAttacks(h: Fight, attacks: seq<QueuedAttack>)
    ensures AttackedFightAll(h, attacks).c == AttacksTaken(h.c, attacks)
  {
    if attacks != [] {
      HistoryOfAttacks(h, attacks[..|attacks| - 1]);
    }
  }

  /** Characters and table of a fight are those of Processed; what the history adds decides nothing. */
  lemma NextIsProcessed(h: Fight, r: Round)
    requires AllFit(r.found)
    ensures NextFight(h, r).c == if r.running then Processed(r.found, h.c.hits, r.attacks) else Combat(r.found, map[])
  {
    if r.running {
      HistoryOfAttacks(ResolvedFight(Found(h, r)), r.attacks);
    }
  }
}
