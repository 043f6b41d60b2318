/** The UDP sessions of the live dungeons (src/DungeonUdpManager.cpp). Sockets are not modelled:
    whether one could be opened is an input, and so are the random tokens of a replacement. */
module DungeonUdpManagers {
  import opened Common
  import opened InputLane
  import opened UdpSession

  const MAX_TOKEN_ATTEMPTS := 16

  ghost predicate AllocationAccepted(
    sessions: map<DungeonId, Udp>, stopping: bool, id: DungeonId, participants: seq<SessionId>, socketReady: bool)
  {
    && !stopping && id != 0 && participants != [] && id !in sessions
    && 0 !in participants && Distinct(participants) && socketReady
  }

  /** New tokens, one for each participant: none is zero, and no two are the same. */
  ghost predicate FreshTokens(tokens: map<SessionId, Token>, participants: seq<SessionId>) {
    TokensTellApart(tokens) && forall s :: s in tokens <==> s in participants
  }

  ghost predicate ReplacementAccepted(
    sessions: map<DungeonId, Udp>, id: DungeonId, old_: SessionId, new_: SessionId, token: Token)
  {
    id in sessions && CanReplace(sessions[id], old_, new_, token)
  }

  /** Nothing happens to any other dungeon's session. */
  ghost predicate OnlyTouches(before: map<DungeonId, Udp>, after: map<DungeonId, Udp>, id: DungeonId) {
    before.Keys == after.Keys && forall other :: other in before && other != id ==> after[other] == before[other]
  }

  /** The first draw that the session takes. */
  ghost predicate FirstTaken(
    sessions: map<DungeonId, Udp>, id: DungeonId, old_: SessionId, new_: SessionId, draws: seq<Token>, i: nat)
  {
    && i < |draws| && ReplacementAccepted(sessions, id, old_, new_, draws[i])
    && forall j :: 0 <= j < i ==> !ReplacementAccepted(sessions, id, old_, new_, draws[j])
  }

  ghost predicate NoneTaken(
    sessions: map<DungeonId, Udp>, id: DungeonId, old_: SessionId, new_: SessionId, draws: seq<Token>)
  {
    forall j :: 0 <= j < |draws| ==> !ReplacementAccepted(sessions, id, old_, new_, draws[j])
  }

  /** Some token is neither zero nor in use. */
  lemma {:induction false} UnusedToken(used: set<Token>) returns (token: Token)
    ensures token != 0 && forall t :: t in used ==> t < token
    decreases |used|
  {
    token := 1;
    if used != {} {
      var t :| t in used;
      token := UnusedToken(used - {t});
      if token <= t {
        token := t + 1;
      }
      assert forall u :: u in used ==> u == t || u in used - {t};
    }
  }

  class DungeonUdpManager {
    var sessions: map<DungeonId, DungeonUdpSession>
    var stopping: bool

    ghost function View(): map<DungeonId, Udp> reads this`sessions, sessions.Values {
      map id | id in sessions :: sessions[id].View()
    }

    /** Each dungeon has its own session, with its containers in order. */
    ghost predicate Valid() reads this`sessions, sessions.Values {
      && (forall id :: id in sessions ==> id != 0 && sessions[id].Valid())
      && (forall id, other :: id in sessions && other in sessions && id != other ==> sessions[id] != sessions[other])
    }

    constructor ()
      ensures Valid() && View() == map[] && !stopping
    {
      sessions, stopping := map[], false;
    }

    lemma Held(id: DungeonId)
      ensures id in sessions <==> id in View()
      ensures id in sessions ==> View()[id] == sessions[id].View()
    {
    }

    lemma Apart(id: DungeonId)
      requires Valid() && id in sessions
      ensures sessions[id].Valid()
      ensures forall other :: other in sessions && other != id ==> sessions[other] != sessions[id]
    {
    }

    /** Sessions may be gone from the table, none is new or another one. */
    twostate predicate NothingNew() reads this`sessions {
      && sessions.Keys <= old(sessions).Keys
      && forall id :: id in sessions ==> sessions[id] == old(sessions)[id]
    }

    /** When only one session object has changed, the view differs at its id only. */
    twostate lemma OneChanged(id: DungeonId)
      requires old(Valid()) && sessions == old(sessions) && id in sessions && sessions[id].Valid()
      requires forall other :: other in sessions && other != id ==> unchanged(sessions[other])
      ensures Valid() && View() == old(View())[id := sessions[id].View()]
    {
      hide DungeonUdpSession.Valid;
      forall other | other in sessions
        ensures sessions[other].Valid()
      {
        assert old(sessions[other].Valid());
      }
    }

    /** `socket` is the port the operating system would give, if it gives any. */
    method Allocate(dungeonId: DungeonId, participants: seq<SessionId>, socket: Option<UInt16>)
      returns (port: Option<UInt16>)
      requires Valid()
      modifies this`sessions
      ensures Valid()
      ensures port ==
        if AllocationAccepted(old(View()), stopping, dungeonId, participants, socket.Some?) then socket else None
      ensures port.Some? <==>
        && !stopping && dungeonId != 0 && participants != [] && dungeonId !in old(sessions)
        && 0 !in participants && Distinct(participants) && socket.Some?
      ensures port.Some? ==>
        && dungeonId in View() && View()[dungeonId].endpoints == map[] && View()[dungeonId].lastActivity == map[]
        && View()[dungeonId].movements == Lane(map[], []) && View()[dungeonId].attacks == Lane(map[], [])
      ensures port.None? ==> View() == old(View()) && sessions == old(sessions)
      ensures port.Some? ==>
        && dungeonId in View() && View() == old(View())[dungeonId := NewUdp(View()[dungeonId].tokens)]
        && FreshTokens(View()[dungeonId].tokens, participants)
        && dungeonId in sessions && sessions == old(sessions)[dungeonId := sessions[dungeonId]]
        && fresh(sessions[dungeonId])
    {
      hide Valid, View, DungeonUdpSession.Valid, DungeonUdpSession.View, TokensTellApart;
      Held(dungeonId);
      if stopping || dungeonId == 0 || participants == [] || dungeonId in sessions {
        return None;
      }
      var distinct := AllDistinct(participants);
      if !distinct || socket.None? {
        return None;
      }
      var tokens := DrawTokens(participants);
      var session := new DungeonUdpSession(tokens);
      AddSession(dungeonId, session);
      port := socket;
    }

    method AddSession(dungeonId: DungeonId, session: DungeonUdpSession)
      requires Valid() && session.Valid() && session !in sessions.Values && dungeonId !in sessions && dungeonId != 0
      modifies this`sessions
      ensures Valid() && View() == old(View())[dungeonId := session.View()]
      ensures sessions == old(sessions)[dungeonId := session]
    {
      hide DungeonUdpSession.Valid;
      assert forall id :: id in sessions ==> sessions[id] in sessions.Values;
      sessions := sessions[dungeonId := session];
    }

    /** No session id is zero or repeated. */
    static method AllDistinct(participants: seq<SessionId>) returns (distinct: bool)
      ensures distinct <==> 0 !in participants && Distinct(participants)
    {
      var ids: set<SessionId> := {};
      var i := 0;
      while i < |participants|
        invariant 0 <= i <= |participants|
        invariant 0 !in participants[..i] && Distinct(participants[..i])
        invariant forall s :: s in ids <==> s in participants[..i]
      {
        if participants[i] == 0 || participants[i] in ids {
          assert participants[i] in participants;
          return false;
        }
        ids := ids + {participants[i]};
        i := i + 1;
      }
      assert participants[..i] == participants;
      distinct := true;
    }

    /** One token per participant; zero and tokens already used are drawn again. */
    static method DrawTokens(participants: seq<SessionId>) returns (tokens: map<SessionId, Token>)
      requires 0 !in participants && Distinct(participants)
      ensures FreshTokens(tokens, participants)
    {
      tokens := map[];
      var usedTokens: set<Token> := {};
      var i := 0;
      while i < |participants|
        invariant 0 <= i <= |participants|
        invariant TokensTellApart(tokens) && forall s :: s in tokens ==> tokens[s] in usedTokens
        invariant forall s :: s in tokens <==> s in participants[..i]
      {
        ghost var unused := UnusedToken(usedTokens);
        assert unused != 0 && unused !in usedTokens;
        var token :| token != 0 && token !in usedTokens;
        assert participants[i] in participants && participants[i] !in participants[..i];
        usedTokens := usedTokens + {token};
        tokens := tokens[participants[i] := token];
        i := i + 1;
      }
      assert participants[..i] == participants;
    }

    /** Sixteen random tokens are tried; the replacement fails when the session is not there or
        does not take any of them, and then nothing has changed. */
    method ReplaceParticipant(dungeonId: DungeonId, oldSessionId: SessionId, newSessionId: SessionId, draws: seq<Token>)
      returns (token: Option<Token>)
      requires Valid() && |draws| == MAX_TOKEN_ATTEMPTS
      modifies sessions.Values
      ensures Valid()
      ensures token.None? ==>
        View() == old(View()) && NoneTaken(old(View()), dungeonId, oldSessionId, newSessionId, draws)
      ensures token.Some? ==>
        && (exists i: nat :: FirstTaken(old(View()), dungeonId, oldSessionId, newSessionId, draws, i) && draws[i] == token.value)
        && View() == old(View())[dungeonId := Replaced(old(View())[dungeonId], oldSessionId, newSessionId, token.value)]
      ensures token.Some? ==>
        && OnlyTouches(old(View()), View(), dungeonId) && dungeonId in View()
        && oldSessionId in old(View())[dungeonId].tokens
        && View()[dungeonId].tokens == (old(View())[dungeonId].tokens - {oldSessionId})[newSessionId := token.value]
        && RuntimeStateGone(old(View())[dungeonId], View()[dungeonId], {oldSessionId})
    {
      hide DungeonUdpSession.Valid, Replaced, RuntimeStateGone;
      Held(dungeonId);
      if dungeonId !in sessions || oldSessionId !in sessions[dungeonId].tokens || newSessionId in sessions[dungeonId].tokens {
        return None;
      }
      var attempt := 0;
      while attempt < MAX_TOKEN_ATTEMPTS
        invariant 0 <= attempt <= MAX_TOKEN_ATTEMPTS && Valid() && View() == old(View())
        invariant forall j :: 0 <= j < attempt ==>
          !ReplacementAccepted(old(View()), dungeonId, oldSessionId, newSessionId, draws[j])
      {
        Held(dungeonId);
        if draws[attempt] != 0 {
          var taken := ReplaceIn(dungeonId, sessions[dungeonId], oldSessionId, newSessionId, draws[attempt]);
          if taken {
            ReplacementMovesTokens(old(View())[dungeonId], oldSessionId, newSessionId, draws[attempt]);
            assert FirstTaken(old(View()), dungeonId, oldSessionId, newSessionId, draws, attempt);
            return Some(draws[attempt]);
          }
        }
        attempt := attempt + 1;
      }
      token := None;
    }

    method ReplaceIn(id: DungeonId, session: DungeonUdpSession, old_: SessionId, new_: SessionId, token: Token)
      returns (taken: bool)
      requires Valid() && id in sessions && session == sessions[id]
      modifies session
      ensures Valid() && (taken <==> ReplacementAccepted(old(View()), id, old_, new_, token))
      ensures View() == if taken then old(View())[id := Replaced(old(View())[id], old_, new_, token)] else old(View())
    {
      hide DungeonUdpSession.Valid, Replaced, CanReplace;
      Held(id);
      Apart(id);
      taken := session.ReplaceParticipant(old_, new_, token);
      OneChanged(id);
    }

    method DisconnectParticipant(dungeonId: DungeonId, sessionId: SessionId) returns (known: bool)
      requires Valid()
      modifies sessions.Values
      ensures Valid()
      ensures View() == Quieted(old(View()), dungeonId, sessionId)
      ensures known <==> dungeonId in old(View()) && sessionId in old(View())[dungeonId].tokens
      ensures OnlyTouches(old(View()), View(), dungeonId)
      ensures dungeonId in View() ==>
        && View()[dungeonId].tokens == old(View())[dungeonId].tokens
        && RuntimeStateGone(old(View())[dungeonId], View()[dungeonId], {sessionId})
    {
      hide DungeonUdpSession.Valid, Disconnected, RuntimeStateGone;
      Held(dungeonId);
      if dungeonId !in sessions {
        return false;
      }
      Apart(dungeonId);
      known := sessions[dungeonId].DisconnectParticipant(sessionId);
      OneChanged(dungeonId);
    }

    method RemoveParticipant(dungeonId: DungeonId, sessionId: SessionId) returns (known: bool)
      requires Valid()
      modifies sessions.Values
      ensures Valid() && View() == Untokened(old(View()), dungeonId, sessionId)
      ensures known <==> dungeonId in old(View()) && sessionId in old(View())[dungeonId].tokens
      ensures OnlyTouches(old(View()), View(), dungeonId)
      ensures dungeonId in View() ==>
        && View()[dungeonId].tokens == old(View())[dungeonId].tokens - {sessionId}
        && RuntimeStateGone(old(View())[dungeonId], View()[dungeonId], {sessionId})
    {
      hide DungeonUdpSession.Valid, Removed, RuntimeStateGone;
      Held(dungeonId);
      if dungeonId !in sessions {
        return false;
      }
      Apart(dungeonId);
      known := sessions[dungeonId].RemoveParticipant(sessionId);
      OneChanged(dungeonId);
    }

    method Release(dungeonId: DungeonId) returns (known: bool)
      requires Valid()
      modifies this`sessions
      ensures Valid() && View() == old(View()) - {dungeonId} && (known <==> dungeonId in old(View()))
      ensures sessions == old(sessions) - {dungeonId}
    {
      hide DungeonUdpSession.Valid;
      known := dungeonId in sessions;
      sessions := sessions - {dungeonId};
    }

    method FindToken(dungeonId: DungeonId, sessionId: SessionId) returns (token: Option<Token>)
      ensures token == if dungeonId in View() then Lookup(View()[dungeonId].tokens, sessionId) else None
    {
      Held(dungeonId);
      token := if dungeonId in sessions && sessionId in sessions[dungeonId].tokens
        then Some(sessions[dungeonId].tokens[sessionId]) else None;
    }

    /** Whether every participant of a dungeon has an authenticated endpoint. */
    predicate AllParticipantsAuthenticated(dungeonId: DungeonId): (all: bool)
      requires Valid()
      reads this`sessions, sessions.Values
      ensures all <==> dungeonId in View() && View()[dungeonId].endpoints.Keys == View()[dungeonId].tokens.Keys
    {
      dungeonId in sessions && sessions[dungeonId].AllParticipantsAuthenticated()
    }

    method RefreshAllActivity(dungeonId: DungeonId, now: Time)
      requires Valid()
      modifies sessions.Values`lastActivity
      ensures Valid()
      ensures View() == Carried(old(View()), dungeonId, Refresh(now))
      ensures OnlyTouches(old(View()), View(), dungeonId)
      ensures dungeonId in View() ==>
        && View()[dungeonId].lastActivity.Keys == View()[dungeonId].endpoints.Keys
        && forall s :: s in View()[dungeonId].endpoints ==> View()[dungeonId].lastActivity[s] == now
    {
      hide DungeonUdpSession.Valid, Handled;
      Held(dungeonId);
      if dungeonId in sessions {
        Apart(dungeonId);
        sessions[dungeonId].RefreshAllActivity(now);
        OneChanged(dungeonId);
      }
    }

    method RemoveInactiveEndpoints(dungeonId: DungeonId, now: Time, idleTimeout: Time) returns (removed: seq<SessionId>)
      requires Valid()
      modifies sessions.Values
      ensures Valid()
      ensures View() == Carried(old(View()), dungeonId, Prune(now, idleTimeout))
      ensures ListsOnce(removed,
        if dungeonId in old(View()) && idleTimeout > 0 then IdleSessions(old(View())[dungeonId], now, idleTimeout) else {})
      ensures OnlyTouches(old(View()), View(), dungeonId)
      ensures dungeonId !in View() ==> removed == []
      ensures dungeonId in View() ==>
        var u := old(View())[dungeonId];
        var idle := set s | s in u.lastActivity && idleTimeout > 0 && now - u.lastActivity[s] >= idleTimeout;
        && ListsOnce(removed, idle) && View()[dungeonId].tokens == u.tokens
        && RuntimeStateGone(u, View()[dungeonId], idle)
    {
      hide DungeonUdpSession.Valid, Handled, IdleSessions, RuntimeStateGone, ListsOnce;
      Held(dungeonId);
      removed := [];
      ListNothing<SessionId>();
      if dungeonId in sessions {
        Apart(dungeonId);
        removed := sessions[dungeonId].RemoveInactiveEndpoints(now, idleTimeout);
        OneChanged(dungeonId);
      }
    }

    method TryPopAttack(dungeonId: DungeonId) returns (output: Option<Input<Attack>>)
      requires Valid()
      modifies sessions.Values`pendingAttacks
      ensures Valid() && View() == Carried(old(View()), dungeonId, PopAttack)
      ensures output == FirstAttack(old(View()), dungeonId)
    {
      hide DungeonUdpSession.Valid, Handled;
      Held(dungeonId);
      if dungeonId !in sessions {
        return None;
      }
      Apart(dungeonId);
      output := sessions[dungeonId].TryPopAttack();
      OneChanged(dungeonId);
    }

    method TryPopMovement(dungeonId: DungeonId) returns (output: Option<Input<Movement>>)
      requires Valid()
      modifies sessions.Values`pendingMovements
      ensures Valid() && View() == Carried(old(View()), dungeonId, PopMovement)
      ensures output == FirstMovement(old(View()), dungeonId)
    {
      hide DungeonUdpSession.Valid, Handled;
      Held(dungeonId);
      if dungeonId !in sessions {
        return None;
      }
      Apart(dungeonId);
      output := sessions[dungeonId].TryPopMovement();
      OneChanged(dungeonId);
    }

    method Stop()
      requires Valid()
      modifies this`sessions, this`stopping
      ensures Valid() && stopping && (!old(stopping) ==> View() == map[])
      ensures old(stopping) ==> View() == old(View())
    {
      if stopping {
        return;
      }
      stopping := true;
      sessions := map[];
    }
  }

  lemma ReplacementMovesTokens(u: Udp, old_: SessionId, new_: SessionId, token: Token)
    requires CanReplace(u, old_, new_, token)
    ensures old_ in u.tokens && Replaced(u, old_, new_, token).tokens == (u.tokens - {old_})[new_ := token]
    ensures RuntimeStateGone(u, Replaced(u, old_, new_, token), {old_})
  {
    hide RuntimeStateGone;
    ReplacementMovesOneToken(u, old_, new_, token);
  }

  // ---------------------------------------------------------------- steps on the sessions as values

  /** DisconnectParticipant: the session goes quiet and keeps its token. */
  ghost function Quieted(sessions: map<DungeonId, Udp>, id: DungeonId, s: SessionId): map<DungeonId, Udp> {
    if id in sessions then sessions[id := Disconnected(sessions[id], s)] else sessions
  }

  /** RemoveParticipant: the session goes quiet and loses its token. */
  ghost function Untokened(sessions: map<DungeonId, Udp>, id: DungeonId, s: SessionId): map<DungeonId, Udp> {
    if id in sessions then sessions[id := Removed(sessions[id], s)] else sessions
  }

  ghost function Carried(sessions: map<DungeonId, Udp>, id: DungeonId, e: Traffic): map<DungeonId, Udp> {
    if id in sessions then sessions[id := Handled(sessions[id], e)] else sessions
  }

  /** The inputs waiting for a dungeon. */
  ghost function AttackQueue(sessions: map<DungeonId, Udp>, id: DungeonId): seq<Input<Attack>> {
    if id in sessions then sessions[id].attacks.queue else []
  }

  ghost function MovementQueue(sessions: map<DungeonId, Udp>, id: DungeonId): seq<Input<Movement>> {
    if id in sessions then sessions[id].movements.queue else []
  }

  ghost function FirstAttack(sessions: map<DungeonId, Udp>, id: DungeonId): Option<Input<Attack>> {
    if AttackQueue(sessions, id) == [] then None else Some(AttackQueue(sessions, id)[0])
  }

  ghost function FirstMovement(sessions: map<DungeonId, Udp>, id: DungeonId): Option<Input<Movement>> {
    if MovementQueue(sessions, id) == [] then None else Some(MovementQueue(sessions, id)[0])
  }

  /** The sessions with another attack queue at one dungeon. */
  ghost function WithAttacks(sessions: map<DungeonId, Udp>, id: DungeonId, queue: seq<Input<Attack>>): map<DungeonId, Udp> {
    if id in sessions then sessions[id := sessions[id].(attacks := sessions[id].attacks.(queue := queue))] else sessions
  }

  ghost function WithMovements(sessions: map<DungeonId, Udp>, id: DungeonId, queue: seq<Input<Movement>>): map<DungeonId, Udp> {
    if id in sessions then sessions[id := sessions[id].(movements := sessions[id].movements.(queue := queue))] else sessions
  }

  ghost function Emptied(sessions: map<DungeonId, Udp>, id: DungeonId): map<DungeonId, Udp> {
    WithAttacks(WithMovements(sessions, id, []), id, [])
  }

  /** Popping takes the first input off the queue and nothing else. */
  lemma PoppedQueues(sessions: map<DungeonId, Udp>, id: DungeonId)
    ensures Carried(sessions, id, PopAttack) == WithAttacks(sessions, id, RestOf(AttackQueue(sessions, id)))
    ensures AttackQueue(Carried(sessions, id, PopAttack), id) == RestOf(AttackQueue(sessions, id))
    ensures Carried(sessions, id, PopMovement) == WithMovements(sessions, id, RestOf(MovementQueue(sessions, id)))
    ensures MovementQueue(Carried(sessions, id, PopMovement), id) == RestOf(MovementQueue(sessions, id))
  {
  }

  lemma QueuesReplaced(sessions: map<DungeonId, Udp>, id: DungeonId)
    ensures WithAttacks(sessions, id, AttackQueue(sessions, id)) == sessions
    ensures forall a, b :: WithAttacks(WithAttacks(sessions, id, a), id, b) == WithAttacks(sessions, id, b)
    ensures WithMovements(sessions, id, MovementQueue(sessions, id)) == sessions
    ensures forall a, b :: WithMovements(WithMovements(sessions, id, a), id, b) == WithMovements(sessions, id, b)
  {
  }
}
