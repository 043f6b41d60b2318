/** The blows of whole fights: who strikes in each resolution of each call of
    src/DungeonCombatProcessor.cpp, and for which cast. */
module CombatBlows {
  import opened Common
  import opened PlayerState
  import opened CombatRounds

  /** Who strikes in the two resolutions of one call, in the order of the strikes. */
  datatype Strikers = Strikers(first: seq<SessionId>, second: seq<SessionId>)

  /** A blow: the cast it carries out, and the call that carries it out. */
  datatype Landing = Landing(cast: nat, round: nat)

  /** The fight when the attacks of a call have been taken. */
  ghost function AttackedIn(h: Fight, r: Round): Fight
    requires AllFit(r.found)
  {
    AttackedFightAll(ResolvedFight(Found(h, r)), r.attacks)
  }

  /** The due hits strike, each once, in some order; nobody strikes in a dungeon that does not run. */
  ghost predicate StrikesFit(h: Fight, r: Round, k: Strikers)
    requires AllFit(r.found)
  {
    if !r.running then k == Strikers([], [])
    else ListsOnce(k.first, Struck(Found(h, r).c)) && ListsOnce(k.second, Struck(AttackedIn(h, r).c))
  }

  /** The blows of a resolution: each striking session carries out its latest cast. */
  ghost function Landings(h: Fight, order: seq<SessionId>): seq<Landing> {
    seq(|order|, i requires 0 <= i < |order| =>
      Landing(if order[i] in h.latest then h.latest[order[i]] else 0, h.round))
  }

  ghost function BlowsIn(h: Fight, r: Round, k: Strikers): seq<Landing>
    requires AllFit(r.found)
  {
    if !r.running then [] else Landings(Found(h, r), k.first) + Landings(AttackedIn(h, r), k.second)
  }

  /** Every call's strikes are those of its due hits. */
  ghost predicate AllStrikesFit(rounds: seq<Round>, strikes: seq<Strikers>) {
    && |strikes| == |rounds| && FightAfter(rounds).Some?
    && (rounds != [] ==>
          var n := |rounds| - 1;
          && AllStrikesFit(rounds[..n], strikes[..n])
          && AllFit(rounds[n].found) && StrikesFit(FightAfter(rounds[..n]).value, rounds[n], strikes[n]))
  }

  /** All the blows of a fight, in order. */
  ghost function BlowLog(rounds: seq<Round>, strikes: seq<Strikers>): seq<Landing>
    requires AllStrikesFit(rounds, strikes)
  {
    if rounds == [] then []
    else
      var n := |rounds| - 1;
      BlowLog(rounds[..n], strikes[..n]) + BlowsIn(FightAfter(rounds[..n]).value, rounds[n], strikes[n])
  }

  /** The log holds one blow for each cast marked as a hit, in the call it is marked with, and no
      other blow. */
  ghost predicate LogFits(h: Fight, log: seq<Landing>) {
    && (forall a, b :: 0 <= a < b < |log| ==> log[a].cast != log[b].cast)
    && (forall a :: 0 <= a < |log| ==> log[a].cast in h.fates && h.fates[log[a].cast] == Hit(log[a].round))
    && (forall i :: i in h.fates && h.fates[i].Hit? ==> Landing(i, h.fates[i].round) in log)
  }

  /** The casts that a resolution marks as hits are exactly those whose blows it deals. */
  lemma ResolutionMarksItsBlows(h: Fight, order: seq<SessionId>)
    requires Mid(h) && ListsOnce(order, Struck(h.c))
    ensures
      var h' := ResolvedFight(h);
      var blows := Landings(h, order);
      && (forall a, b :: 0 <= a < b < |blows| ==> blows[a].cast != blows[b].cast)
      && (forall a :: 0 <= a < |blows| ==>
            && blows[a].cast !in h.fates && blows[a].cast in h'.fates
            && h'.fates[blows[a].cast] == Hit(h.round) == Hit(blows[a].round))
      && (forall i :: i in h'.fates && i !in h.fates && h'.fates[i].Hit? ==> Landing(i, h.round) in blows)
  {
    hide OnSchedule, AllFit, FatesFit;
    var h', blows := ResolvedFight(h), Landings(h, order);
    forall a | 0 <= a < |order|
      ensures order[a] in h.c.hits && Recorded(h, order[a]) && Due(h.c, order[a])
    {
      assert order[a] in Struck(h.c);
    }
    forall a | 0 <= a < |blows|
      ensures blows[a].cast !in h.fates && blows[a].cast in h'.fates && h'.fates[blows[a].cast] == Hit(h.round)
    {
      assert Recorded(h, order[a]) && blows[a].cast == h.latest[order[a]];
      assert Pending(h, blows[a].cast);
    }
    forall i | i in h'.fates && i !in h.fates && h'.fates[i].Hit?
      ensures Landing(i, h.round) in blows
    {
      var s := h.casts[i].session;
      assert s in Struck(h.c);
      var a :| 0 <= a < |order| && order[a] == s;
      assert blows[a] == Landing(i, h.round);
    }
  }

  lemma LogResolved(h: Fight, log: seq<Landing>, order: seq<SessionId>)
    requires Mid(h) && LogFits(h, log) && ListsOnce(order, Struck(h.c))
    ensures LogFits(ResolvedFight(h), log + Landings(h, order))
  {
    ResolutionMarksItsBlows(h, order);
    FatesStay(h);
    hide Mid, Landings, ResolvedFight, ListsOnce;
    var blows := Landings(h, order);
    forall i | i in ResolvedFight(h).fates && ResolvedFight(h).fates[i].Hit?
      ensures Landing(i, ResolvedFight(h).fates[i].round) in log + blows
    {
      if i in h.fates {
        assert Landing(i, h.fates[i].round) in log;
      } else {
        assert Landing(i, h.round) in blows;
        var a :| 0 <= a < |blows| && blows[a] == Landing(i, h.round);
        assert ResolvedFight(h).fates[blows[a].cast] == Hit(h.round);
      }
    }
  }

  lemma FatesStay(h: Fight)
    requires FatesFit(h)
    ensures forall i :: i in h.fates ==> i in ResolvedFight(h).fates && ResolvedFight(h).fates[i] == h.fates[i]
  {
  }

  lemma LogNext(h: Fight, r: Round, k: Strikers, log: seq<Landing>)
    requires FightFits(h) && CanFollow(h, r) && StrikesFit(h, r, k) && LogFits(h, log)
    ensures LogFits(NextFight(h, r), log + BlowsIn(h, r, k))
  {
    hide Mid, LogFits, ListsOnce, Landings, InStartup, AllRecorded, AllOnSchedule, FatesFit;
    if r.running {
      RunningMids(h, r);
      var found, attacked := Found(h, r), AttackedIn(h, r);
      LogUnchanged(h, found, log);
      LogResolved(found, log, k.first);
      AttacksKeepHistory(ResolvedFight(found), r.attacks);
      LogUnchanged(ResolvedFight(found), attacked, log + Landings(found, k.first));
      LogResolved(attacked, log + Landings(found, k.first), k.second);
      assert log + Landings(found, k.first) + Landings(attacked, k.second) == log + BlowsIn(h, r, k);
    } else {
      LogHalted(h, r, log);
      assert log + BlowsIn(h, r, k) == log;
    }
  }

  lemma LogUnchanged(h: Fight, h': Fight, log: seq<Landing>)
    requires LogFits(h, log) && h'.fates == h.fates
    ensures LogFits(h', log)
  {
  }

  lemma LogHalted(h: Fight, r: Round, log: seq<Landing>)
    requires FatesFit(h) && LogFits(h, log)
    ensures LogFits(Halted(h, r), log)
  {
  }

  lemma RunningMids(h: Fight, r: Round)
    requires FightFits(h) && CanFollow(h, r) && r.running
    ensures Mid(Found(h, r)) && Mid(AttackedIn(h, r))
  {
    hide Recorded, OnSchedule, FatesFit, AllFit, AllRecorded, AllOnSchedule;
    FoundIsMid(h, r);
    ResolvedFits(Found(h, r));
    AttackedAllFits(ResolvedFight(Found(h, r)), r.attacks);
  }

  lemma {:induction false} EveryLogFits(rounds: seq<Round>, strikes: seq<Strikers>)
    requires AllStrikesFit(rounds, strikes)
    ensures LogFits(FightAfter(rounds).value, BlowLog(rounds, strikes))
  {
    if rounds != [] {
      var n := |rounds| - 1;
      EveryLogFits(rounds[..n], strikes[..n]);
      EveryFightFits(rounds[..n]);
      hide FightFits, LogFits, StrikesFit, BlowsIn, NextFight, AllExplained;
      LogNext(FightAfter(rounds[..n]).value, rounds[n], strikes[n], BlowLog(rounds[..n], strikes[..n]));
    }
  }

  /** How many of the blows carry out a cast. */
  ghost function BlowsOfCast(log: seq<Landing>, i: nat): nat {
    if log == [] then 0
    else BlowsOfCast(log[..|log| - 1], i) + if log[|log| - 1].cast == i then 1 else 0
  }

  lemma {:induction false} AtMostOneBlow(log: seq<Landing>, i: nat)
    requires forall a, b :: 0 <= a < b < |log| ==> log[a].cast != log[b].cast
    ensures BlowsOfCast(log, i) == if exists a :: 0 <= a < |log| && log[a].cast == i then 1 else 0
  {
    if log != [] {
      var init := log[..|log| - 1];
      AtMostOneBlow(init, i);
      if a :| 0 <= a < |log| && log[a].cast == i {
        assert a < |log| - 1 ==> init[a].cast == i;
      }
    }
  }

  /** Every accepted cast strikes at most once, and only in the call that comes startupTicks calls
      after the one that accepted it (the same one when that is 0). It does strike there if and
      only if its caster is found alive, under the same session, in a running dungeon, in every
      call up to then. */
  lemma EachCastStrikesOnTime(rounds: seq<Round>, strikes: seq<Strikers>, i: nat)
    requires AllStrikesFit(rounds, strikes) && i < |FightAfter(rounds).value.casts|
    ensures
      var cast := FightAfter(rounds).value.casts[i];
      var log := BlowLog(rounds, strikes);
      && BlowsOfCast(log, i) <= 1
      && (forall a :: 0 <= a < |log| && log[a].cast == i ==> log[a].round == DueRound(cast))
      && (BlowsOfCast(log, i) == 1 <==> DueRound(cast) <= |rounds| && SurvivedTo(rounds, cast, DueRound(cast)))
  {
    hide BlowLog, FightAfter, SurvivedTo, FightFits, StrikesFit;
    var h, log := FightAfter(rounds).value, BlowLog(rounds, strikes);
    EveryLogFits(rounds, strikes);
    AtMostOneBlow(log, i);
    EachCastMeetsItsFate(rounds, i);
    MarkedByNow(rounds, i);
    if i in h.fates && h.fates[i].Hit? {
      assert Landing(i, h.fates[i].round) in log;
    }
  }

  lemma MarkedByNow(rounds: seq<Round>, i: nat)
    requires FightAfter(rounds).Some? && i < |FightAfter(rounds).value.casts|
    ensures i in FightAfter(rounds).value.fates ==> FightAfter(rounds).value.fates[i].round <= |rounds|
  {
    EveryFightFits(rounds);
  }

  /** No attack of a run ever meets an older hit of the same session in the table: insert_or_assign
      only ever inserts. */
  lemma InsertNeverAssigns(rounds: seq<Round>, r: Round, k: nat)
    requires FightAfter(rounds).Some? && CanFollow(FightAfter(rounds).value, r) && r.running && k < |r.attacks|
    ensures
      var before := AttackedFightAll(ResolvedFight(Found(FightAfter(rounds).value, r)), r.attacks[..k]);
      Accepts(before.c, r.attacks[k]) ==> r.attacks[k].session !in before.c.hits
  {
    var h := FightAfter(rounds).value;
    EveryFightFits(rounds);
    hide FightFits, Mid, Manned, InStartup, Accepts, AllExplained, FightAfter;
    FoundResolved(h, r);
    AttackedAllFits(ResolvedFight(Found(h, r)), r.attacks[..k]);
    var before := AttackedFightAll(ResolvedFight(Found(h, r)), r.attacks[..k]);
    if Accepts(before.c, r.attacks[k]) {
      NeverOverwrites(before, r.attacks[k]);
    }
  }

  lemma FoundResolved(h: Fight, r: Round)
    requires FightFits(h) && CanFollow(h, r) && r.running
    ensures Mid(ResolvedFight(Found(h, r))) && Manned(ResolvedFight(Found(h, r)))
  {
    hide Recorded, OnSchedule, FatesFit, AllFit, AllRecorded, AllOnSchedule;
    FoundIsMid(h, r);
    ResolvedFits(Found(h, r));
  }
}
