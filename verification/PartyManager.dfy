/** Parties and who is in them (src/PartyManager.cpp); they supply the participant lists of
    new dungeons. */
module PartyManagers {
  import opened Common

  datatype PartyInfo = PartyInfo(id: PartyId, leader: SessionId, members: seq<SessionId>)

  datatype JoinPartyResult = Joined | PartyNotFound | PartyFull | AlreadyJoined

  datatype Parties = Parties(next: PartyId, parties: map<PartyId, PartyInfo>, joined: map<SessionId, PartyId>)

  /** A list the dungeon constructor accepts, with its leader in it. */
  ghost predicate GoodParty(info: PartyInfo) {
    && 1 <= |info.members| <= MAX_PARTY_MEMBERS
    && Distinct(info.members) && 0 !in info.members && info.leader in info.members
  }

  /** Membership and joinedParties are inverse, and every party is good. */
  ghost predicate PartiesFit(v: Parties) {
    && v.next > 0
    && (forall id :: id in v.parties ==> 0 < id < v.next && v.parties[id].id == id && GoodParty(v.parties[id]))
    && (forall s, id :: id in v.parties ==> (s in v.parties[id].members <==> s in v.joined && v.joined[s] == id))
    && (forall s :: s in v.joined ==> v.joined[s] in v.parties)
  }

  function Founded(v: Parties, s: SessionId): Parties {
    if s in v.joined then v
    else
      Parties(v.next + 1, v.parties[v.next := PartyInfo(v.next, s, [s])], v.joined[s := v.next])
  }

  function JoinResult(v: Parties, id: PartyId, s: SessionId): JoinPartyResult {
    if id !in v.parties then PartyNotFound
    else if s in v.joined then AlreadyJoined
    else if |v.parties[id].members| >= MAX_PARTY_MEMBERS then PartyFull
    else Joined
  }

  function WithMember(v: Parties, id: PartyId, s: SessionId): Parties {
    if !JoinResult(v, id, s).Joined? then v
    else
      var info := v.parties[id];
      v.(parties := v.parties[id := info.(members := info.members + [s])], joined := v.joined[s := id])
  }

  /** LeaveParty: an emptied party disappears, a leaderless one is led by its first member. */
  ghost function Left(v: Parties, s: SessionId): Parties {
    if s !in v.joined || v.joined[s] !in v.parties then v.(joined := v.joined - {s})
    else
      var id := v.joined[s];
      var info := v.parties[id];
      var rest := Excluding(info.members, {s});
      v.(joined := v.joined - {s},
         parties := if rest == [] then v.parties - {id}
                    else v.parties[id := PartyInfo(info.id, if info.leader == s then rest[0] else info.leader, rest)])
  }

  datatype PartyOp = Create(leader: SessionId) | Join(id: PartyId, s: SessionId) | Leave(s: SessionId)

  ghost function Step(v: Parties, op: PartyOp): Parties {
    match op
    case Create(leader) => Founded(v, leader)
    case Join(id, s) => WithMember(v, id, s)
    case Leave(s) => Left(v, s)
  }

  /** A party without one of its members. */
  lemma RestOfParty(info: PartyInfo, s: SessionId)
    requires GoodParty(info) && s in info.members
    ensures
      var rest := Excluding(info.members, {s});
      && |rest| <= MAX_PARTY_MEMBERS && Distinct(rest)
      && (forall m :: m in rest <==> m in info.members && m != s)
  {
    ExcludingListsOnce(info.members, set m | m in info.members, {s});
    RestIsShorter(info.members, s);
  }

  lemma LeaveKeepsConsistent(v: Parties, s: SessionId)
    requires PartiesFit(v)
    ensures PartiesFit(Left(v, s))
  {
    if s in v.joined {
      var id := v.joined[s];
      assert s in v.parties[id].members;
      RestOfParty(v.parties[id], s);
      LeavePartyKeepsConsistent(v, s, id, Excluding(v.parties[id].members, {s}));
    } else {
      assert v.joined - {s} == v.joined;
    }
  }

  lemma LeavePartyKeepsConsistent(v: Parties, s: SessionId, id: PartyId, rest: seq<SessionId>)
    requires PartiesFit(v) && s in v.joined && v.joined[s] == id && id in v.parties
    requires rest == Excluding(v.parties[id].members, {s})
    requires |rest| <= MAX_PARTY_MEMBERS && Distinct(rest)
    requires forall m :: m in rest <==> m in v.parties[id].members && m != s
    ensures PartiesFit(Left(v, s))
  {
    hide Excluding;
    var v' := Left(v, s);
    forall t, other | other in v'.parties
      ensures t in v'.parties[other].members <==> t in v'.joined && v'.joined[t] == other
    {
      assert t in v.parties[other].members <==> t in v.joined && v.joined[t] == other;
    }
  }

  lemma {:induction false} RestIsShorter(list: seq<SessionId>, s: SessionId)
    ensures |Excluding(list, {s})| <= |list|
  {
    if list != [] {
      RestIsShorter(list[..|list| - 1], s);
    }
  }

  /** Whatever sessions do, every party's member list passes the dungeon constructor's checks. */
  lemma StepKeepsConsistent(v: Parties, op: PartyOp)
    requires PartiesFit(v)
    requires op.Create? ==> op.leader != 0
    requires op.Join? ==> op.s != 0
    ensures PartiesFit(Step(v, op))
  {
    match op
    case Create(leader) => CreateKeepsConsistent(v, leader);
    case Join(_, _) => JoinKeepsConsistent(v, op);
    case Leave(s) => LeaveKeepsConsistent(v, s);
  }

  lemma CreateKeepsConsistent(v: Parties, leader: SessionId)
    requires PartiesFit(v) && leader != 0
    ensures PartiesFit(Step(v, Create(leader)))
  {
  }

  lemma JoinKeepsConsistent(v: Parties, op: PartyOp)
    requires PartiesFit(v) && op.Join? && op.s != 0
    ensures PartiesFit(Step(v, op))
  {
    if JoinResult(v, op.id, op.s).Joined? {
      OneMoreIsGood(v.parties[op.id], op.s);
    }
    hide GoodParty;
  }

  lemma OneMoreIsGood(info: PartyInfo, s: SessionId)
    requires GoodParty(info) && s !in info.members && s != 0 && |info.members| < MAX_PARTY_MEMBERS
    ensures GoodParty(info.(members := info.members + [s]))
  {
  }

  /** A party without one member: the others in their order, led by the same leader or else by the
      first of them. */
  ghost predicate WithoutOne(info: PartyInfo, info': PartyInfo, s: SessionId) {
    && info'.id == info.id && info'.members != []
    && (forall m :: m in info'.members <==> m in info.members && m != s)
    && KeepsOrder(info.members, info'.members)
    && info'.leader == if info.leader == s then info'.members[0] else info.leader
  }

  /** Whoever leaves is in no party; its party, and no other, goes on without it, or is gone if nobody
      else was in it. */
  lemma LeavingMeans(v: Parties, s: SessionId)
    requires PartiesFit(v)
    ensures
      var v' := Left(v, s);
      && v'.next == v.next && s !in v'.joined
      && (forall t :: t != s ==> Lookup(v'.joined, t) == Lookup(v.joined, t))
      && (forall id: PartyId :: Lookup(v.joined, s) != Some(id) ==> Lookup(v'.parties, id) == Lookup(v.parties, id))
      && (s in v.joined ==>
            var id := v.joined[s];
            && (id in v'.parties <==> exists m :: m in v.parties[id].members && m != s)
            && (id in v'.parties ==> WithoutOne(v.parties[id], v'.parties[id], s)))
  {
    hide Excluding, GoodParty;
    if s in v.joined {
      var members := v.parties[v.joined[s]].members;
      ExcludingKeepsOrder(members, {s});
      var rest := Excluding(members, {s});
      if rest != [] {
        assert rest[0] in members && rest[0] != s;
      }
    }
  }

  class PartyManager {
    var nextPartyId: PartyId
    var parties: map<PartyId, PartyInfo>
    var joinedParties: map<SessionId, PartyId>

    ghost function View(): Parties reads this {
      Parties(nextPartyId, parties, joinedParties)
    }

    ghost predicate Valid() reads this {
      PartiesFit(View())
    }

    constructor ()
      ensures Valid() && View() == Parties(1, map[], map[])
    {
      nextPartyId, parties, joinedParties := 1, map[], map[];
    }

    /** Session ids are handed out from 1 upwards, so a leader is never session 0. */
    method CreateParty(leaderSessionId: SessionId) returns (created: Option<PartyId>)
      requires Valid() && leaderSessionId != 0
      modifies this
      ensures Valid() && View() == Step(old(View()), Create(leaderSessionId))
      ensures created == if leaderSessionId in old(joinedParties) then None else Some(old(nextPartyId))
      ensures created.None? ==> parties == old(parties) && joinedParties == old(joinedParties)
      ensures created.Some? ==>
        && created.value !in old(parties)
        && parties == old(parties)[created.value := PartyInfo(created.value, leaderSessionId, [leaderSessionId])]
        && joinedParties == old(joinedParties)[leaderSessionId := created.value]
    {
      StepKeepsConsistent(View(), Create(leaderSessionId));
      if leaderSessionId in joinedParties {
        return None;
      }
      var partyId := nextPartyId;
      nextPartyId := nextPartyId + 1;
      parties := parties[partyId := PartyInfo(partyId, leaderSessionId, [leaderSessionId])];
      joinedParties := joinedParties[leaderSessionId := partyId];
      created := Some(partyId);
    }

    method JoinParty(partyId: PartyId, sessionId: SessionId) returns (result: JoinPartyResult)
      requires Valid() && sessionId != 0
      modifies this
      ensures Valid() && View() == Step(old(View()), Join(partyId, sessionId))
      ensures result == JoinResult(old(View()), partyId, sessionId)
      ensures result.PartyNotFound? <==> partyId !in old(parties)
      ensures result.AlreadyJoined? <==> partyId in old(parties) && sessionId in old(joinedParties)
      ensures result.PartyFull? <==>
        partyId in old(parties) && sessionId !in old(joinedParties) && |old(parties)[partyId].members| == MAX_PARTY_MEMBERS
      ensures !result.Joined? ==> parties == old(parties) && joinedParties == old(joinedParties)
      ensures result.Joined? ==>
        && parties == old(parties)[partyId := old(parties)[partyId].(members := old(parties)[partyId].members + [sessionId])]
        && joinedParties == old(joinedParties)[sessionId := partyId]
    {
      StepKeepsConsistent(View(), Join(partyId, sessionId));
      if partyId !in parties {
        return PartyNotFound;
      }
      if sessionId in joinedParties {
        return AlreadyJoined;
      }
      var party := parties[partyId];
      if |party.members| >= MAX_PARTY_MEMBERS {
        return PartyFull;
      }
      parties := parties[partyId := party.(members := party.members + [sessionId])];
      joinedParties := joinedParties[sessionId := partyId];
      result := Joined;
    }

    method LeaveParty(sessionId: SessionId) returns (left: bool)
      requires Valid()
      modifies this
      ensures Valid() && View() == Step(old(View()), Leave(sessionId))
      ensures left <==> sessionId in old(joinedParties)
      ensures joinedParties == old(joinedParties) - {sessionId}
      ensures left ==>
        var partyId := old(joinedParties)[sessionId];
        && (forall id :: id != partyId ==> Lookup(parties, id) == Lookup(old(parties), id))
        && (partyId in parties ==> WithoutOne(old(parties)[partyId], parties[partyId], sessionId))
        && (partyId !in parties ==> forall m :: m in old(parties)[partyId].members ==> m == sessionId)
    {
      hide WithoutOne;
      LeavingMeans(View(), sessionId);
      LeaveKeepsConsistent(View(), sessionId);
      if sessionId !in joinedParties {
        assert joinedParties - {sessionId} == joinedParties;
        return false;
      }
      var partyId := joinedParties[sessionId];
      var party := parties[partyId];
      var members := WithoutSession(party.members, sessionId);
      joinedParties := joinedParties - {sessionId};
      left := true;
      if members == [] {
        parties := parties - {partyId};
        return;
      }
      party := party.(members := members);
      if party.leader == sessionId {
        party := party.(leader := members[0]);
      }
      parties := parties[partyId := party];
    }

    /** Who has joined a party is found in it. */
    method GetJoinedParty(sessionId: SessionId) returns (partyId: Option<PartyId>)
      requires Valid()
      ensures partyId == Lookup(joinedParties, sessionId)
      ensures partyId.Some? ==> partyId.value in parties && sessionId in parties[partyId.value].members
    {
      partyId := if sessionId in joinedParties then Some(joinedParties[sessionId]) else None;
    }

    method GetParty(partyId: PartyId) returns (party: Option<PartyInfo>)
      requires Valid()
      ensures party == Lookup(parties, partyId)
      ensures party.Some? ==> GoodParty(party.value)
    {
      party := if partyId in parties then Some(parties[partyId]) else None;
    }
  }
}
