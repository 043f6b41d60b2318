/** The registration state of src/DungeonUdpSession.cpp: tokens, endpoints, activity and the
    two input lanes, behind one lock. */
module UdpSession {
  import opened Common
  import opened Packet
  import opened Sequencing
  import opened InputLane

  type Token = nat
  type Endpoint = nat

  datatype Movement = Movement(moveX: real, moveY: real)
  datatype Attack = Attack(skillId: SkillId, directionX: real, directionY: real)

  datatype Udp = Udp(
    tokens: map<SessionId, Token>,
    endpoints: map<SessionId, Endpoint>,
    lastActivity: map<SessionId, Time>,
    movements: Lane<Movement>,
    attacks: Lane<Attack>)

  /** The containers agree: whoever has an endpoint has a token and an activity time, whoever
      has input has an endpoint, and tokens tell sessions apart. */
  ghost predicate Consistent(u: Udp) {
    && TokensTellApart(u.tokens)
    && u.endpoints.Keys <= u.tokens.Keys
    && u.lastActivity.Keys == u.endpoints.Keys
    && Bounded(u.movements, u.endpoints.Keys)
    && Bounded(u.attacks, u.endpoints.Keys)
  }

  ghost predicate TokensTellApart(tokens: map<SessionId, Token>) {
    && 0 !in tokens
    && (forall s :: s in tokens ==> tokens[s] != 0)
    && (forall s, t :: s in tokens && t in tokens && s != t ==> tokens[s] != tokens[t])
  }

  function NewUdp(tokens: map<SessionId, Token>): Udp {
    Udp(tokens, map[], map[], Lane(map[], []), Lane(map[], []))
  }

  /** RemoveParticipantRuntimeStateLocked, for any number of sessions. */
  function Silenced(u: Udp, sessions: set<SessionId>): Udp {
    u.(endpoints := u.endpoints - sessions,
       lastActivity := u.lastActivity - sessions,
       movements := Forgotten(u.movements, sessions),
       attacks := Forgotten(u.attacks, sessions))
  }

  predicate CanReplace(u: Udp, old_: SessionId, new_: SessionId, token: Token) {
    && old_ != 0 && new_ != 0 && token != 0 && old_ != new_
    && old_ in u.tokens && new_ !in u.tokens && token !in u.tokens.Values
  }

  function Replaced(u: Udp, old_: SessionId, new_: SessionId, token: Token): Udp {
    var silenced := Silenced(u, {old_});
    silenced.(tokens := (u.tokens - {old_})[new_ := token])
  }

  function Removed(u: Udp, s: SessionId): Udp {
    if s in u.tokens then Silenced(u, {s}).(tokens := u.tokens - {s}) else u
  }

  function Disconnected(u: Udp, s: SessionId): Udp {
    if s in u.tokens then Silenced(u, {s}) else u
  }

  /** A hello is good with the right token and from the endpoint already known, if any. */
  predicate GoodHello(u: Udp, s: SessionId, token: Token, sender: Endpoint) {
    s in u.tokens && u.tokens[s] == token && (s in u.endpoints ==> u.endpoints[s] == sender)
  }

  function Greeted(u: Udp, s: SessionId, token: Token, sender: Endpoint, now: Time): Udp {
    if GoodHello(u, s, token, sender)
    then u.(endpoints := u.endpoints[s := sender], lastActivity := u.lastActivity[s := now])
    else u
  }

  function Beaten(u: Udp, s: SessionId, sender: Endpoint, now: Time): Udp {
    if s in u.endpoints && u.endpoints[s] == sender then u.(lastActivity := u.lastActivity[s := now]) else u
  }

  function Steered(u: Udp, s: SessionId, sequence: UInt32, movement: Movement, now: Time): Udp {
    u.(lastActivity := u.lastActivity[s := now], movements := Offered(u.movements, Input(s, sequence, movement)))
  }

  function Attacked(u: Udp, s: SessionId, sequence: UInt32, attack: Attack, now: Time): Udp {
    u.(lastActivity := u.lastActivity[s := now], attacks := Offered(u.attacks, Input(s, sequence, attack)))
  }

  function Refreshed(u: Udp, now: Time): Udp {
    u.(lastActivity := u.lastActivity + map s | s in u.endpoints.Keys :: now)
  }

  function IdleSessions(u: Udp, now: Time, idleTimeout: Time): set<SessionId> {
    set s | s in u.lastActivity && now - u.lastActivity[s] >= idleTimeout
  }

  function Pruned(u: Udp, now: Time, idleTimeout: Time): Udp {
    if idleTimeout <= 0 then u else Silenced(u, IdleSessions(u, now, idleTimeout))
  }

  // ---------------------------------------------------------------- what the steps keep

  lemma SilencedIsConsistent(u: Udp, sessions: set<SessionId>)
    requires Consistent(u)
    ensures Consistent(Silenced(u, sessions))
  {
    ForgottenIsBounded(u.movements, u.endpoints.Keys, sessions);
    ForgottenIsBounded(u.attacks, u.endpoints.Keys, sessions);
  }

  lemma ForgottenIsBounded<M>(lane: Lane<M>, known: set<SessionId>, sessions: set<SessionId>)
    requires Bounded(lane, known)
    ensures Bounded(Forgotten(lane, sessions), known - sessions)
  {
    WithoutContents(lane.queue, sessions);
  }

  /** The steps that keep the tokens. */
  datatype Traffic =
    | Hello(s: SessionId, token: Token, sender: Endpoint, now: Time)
    | Heartbeat(s: SessionId, sender: Endpoint, now: Time)
    | Move(s: SessionId, sender: Endpoint, sequence: UInt32, movement: Movement, now: Time)
    | Strike(s: SessionId, sender: Endpoint, sequence: UInt32, attack: Attack, now: Time)
    | PopMovement
    | PopAttack
    | Refresh(now: Time)
    | Prune(now: Time, idleTimeout: Time)
    | Quiet(s: SessionId)

  /** A movement or attack is credited to some session registered at the sender's endpoint;
      several sessions can share one, and then any of them may be picked. */
  predicate Possible(u: Udp, e: Traffic) {
    match e
    case Move(s, sender, _, _, _) => s in u.endpoints && u.endpoints[s] == sender
    case Strike(s, sender, _, _, _) => s in u.endpoints && u.endpoints[s] == sender
    case _ => true
  }

  function Handled(u: Udp, e: Traffic): Udp {
    match e
    case Hello(s, token, sender, now) => Greeted(u, s, token, sender, now)
    case Heartbeat(s, sender, now) => Beaten(u, s, sender, now)
    case Move(s, _, sequence, movement, now) => Steered(u, s, sequence, movement, now)
    case Strike(s, _, sequence, attack, now) => Attacked(u, s, sequence, attack, now)
    case PopMovement => u.(movements := Popped(u.movements))
    case PopAttack => u.(attacks := Popped(u.attacks))
    case Refresh(now) => Refreshed(u, now)
    case Prune(now, idleTimeout) => Pruned(u, now, idleTimeout)
    case Quiet(s) => Disconnected(u, s)
  }

  lemma LaneStepsAreBounded<M>(lane: Lane<M>, known: set<SessionId>, input: Input<M>, s: SessionId)
    requires Bounded(lane, known)
    ensures Bounded(Popped(lane), known)
    ensures input.sessionId in known ==> Bounded(Offered(lane, input), known)
    ensures Bounded(lane, known + {s})
  {
  }

  lemma TrafficKeepsConsistent(u: Udp, e: Traffic)
    requires Consistent(u) && Possible(u, e)
    ensures Consistent(Handled(u, e)) && Handled(u, e).tokens == u.tokens
  {
    hide TokensTellApart, Bounded, Offered, Popped;
    var anyMove, anyStrike := Input(0, 0, Movement(0.0, 0.0)), Input(0, 0, Attack(0, 0.0, 0.0));
    match e
    case Hello(s, _, sender, _) =>
      LaneStepsAreBounded(u.movements, u.endpoints.Keys, anyMove, s);
      LaneStepsAreBounded(u.attacks, u.endpoints.Keys, anyStrike, s);
      assert u.endpoints[s := sender].Keys == u.endpoints.Keys + {s};
    case Move(s, _, sequence, movement, _) =>
      LaneStepsAreBounded(u.movements, u.endpoints.Keys, Input(s, sequence, movement), s);
    case Strike(s, _, sequence, attack, _) =>
      LaneStepsAreBounded(u.attacks, u.endpoints.Keys, Input(s, sequence, attack), s);
    case PopMovement => LaneStepsAreBounded(u.movements, u.endpoints.Keys, anyMove, 0);
    case PopAttack => LaneStepsAreBounded(u.attacks, u.endpoints.Keys, anyStrike, 0);
    case Prune(now, idleTimeout) => SilencedIsConsistent(u, IdleSessions(u, now, idleTimeout));
    case Quiet(s) => SilencedIsConsistent(u, {s});
    case Heartbeat(_, _, _) =>
    case Refresh(now) => assert Refreshed(u, now).lastActivity.Keys == u.endpoints.Keys;
  }

  lemma ReplaceKeepsConsistent(u: Udp, old_: SessionId, new_: SessionId, token: Token)
    requires Consistent(u) && CanReplace(u, old_, new_, token)
    ensures Consistent(Replaced(u, old_, new_, token))
  {
    SilencedIsConsistent(u, {old_});
    var tokens := Replaced(u, old_, new_, token).tokens;
    forall s | s in tokens && s != new_
      ensures tokens[s] != token
    {
      assert u.tokens[s] in u.tokens.Values;
    }
  }

  lemma RemoveKeepsConsistent(u: Udp, s: SessionId)
    requires Consistent(u)
    ensures Consistent(Removed(u, s))
  {
    SilencedIsConsistent(u, {s});
  }

  /** AllParticipantsAuthenticated compares two sizes; because every endpoint belongs to a
      token, equal sizes mean that every participant has its endpoint. */
  lemma SizesDecideAuthentication(u: Udp)
    requires Consistent(u)
    ensures |u.endpoints| == |u.tokens| <==> u.endpoints.Keys == u.tokens.Keys
  {
    MapSize(u.endpoints);
    MapSize(u.tokens);
    SameSizeSubset(u.endpoints.Keys, u.tokens.Keys);
  }

  /** Nothing of a replaced session's runtime state survives under either name. */
  lemma ReplacementStartsAfresh(u: Udp, old_: SessionId, new_: SessionId, token: Token)
    requires Consistent(u) && CanReplace(u, old_, new_, token)
    ensures
      var r := Replaced(u, old_, new_, token);
      && r.tokens.Keys == u.tokens.Keys - {old_} + {new_}
      && r.tokens[new_] == token && token != u.tokens[old_]
      && (forall s :: s in u.tokens && s != old_ ==> r.tokens[s] == u.tokens[s])
      && {old_, new_} !! r.endpoints.Keys && {old_, new_} !! r.lastActivity.Keys
      && {old_, new_} !! r.movements.last.Keys && {old_, new_} !! r.attacks.last.Keys
      && (forall i :: 0 <= i < |r.movements.queue| ==> r.movements.queue[i].sessionId !in {old_, new_})
      && (forall i :: 0 <= i < |r.attacks.queue| ==> r.attacks.queue[i].sessionId !in {old_, new_})
  {
    hide TokensTellApart, Bounded, Forgotten;
    assert u.tokens[old_] in u.tokens.Values;
    LaneForgetsBoth(u.movements, u.endpoints.Keys, old_, new_);
    LaneForgetsBoth(u.attacks, u.endpoints.Keys, old_, new_);
  }

  lemma LaneForgetsBoth<M>(lane: Lane<M>, sessions: set<SessionId>, old_: SessionId, new_: SessionId)
    requires Bounded(lane, sessions) && new_ !in sessions
    ensures {old_, new_} !! Forgotten(lane, {old_}).last.Keys
    ensures
      var queue := Forgotten(lane, {old_}).queue;
      forall i :: 0 <= i < |queue| ==> queue[i].sessionId !in {old_, new_}
  {
    hide Without;
    WithoutContents(lane.queue, {old_});
  }

  // ---------------------------------------------------------------- what the steps mean, container by container

  /** Nothing of some sessions' runtime state is left, and all of everybody else's: endpoint,
      activity, both remembered sequences, and the queued packets in their order. */
  ghost predicate RuntimeStateGone(before: Udp, after: Udp, gone: set<SessionId>) {
    && (forall s :: s in gone ==>
          && s !in after.endpoints && s !in after.lastActivity
          && s !in after.movements.last && s !in after.attacks.last)
    && (forall s :: s !in gone ==>
          && Lookup(after.endpoints, s) == Lookup(before.endpoints, s)
          && Lookup(after.lastActivity, s) == Lookup(before.lastActivity, s)
          && Lookup(after.movements.last, s) == Lookup(before.movements.last, s)
          && Lookup(after.attacks.last, s) == Lookup(before.attacks.last, s))
    && (exists places: seq<nat> :: LeavesOut(before.movements.queue, after.movements.queue, gone, places))
    && (exists places: seq<nat> :: LeavesOut(before.attacks.queue, after.attacks.queue, gone, places))
  }

  lemma SilencedLeavesNothing(u: Udp, gone: set<SessionId>)
    ensures RuntimeStateGone(u, Silenced(u, gone), gone) && Silenced(u, gone).tokens == u.tokens
  {
    hide LeavesOut, Without;
    WithoutLeavesOut(u.movements.queue, gone);
    WithoutLeavesOut(u.attacks.queue, gone);
  }

  lemma StrangersHaveNothing(u: Udp, gone: set<SessionId>)
    requires Consistent(u) && gone !! u.tokens.Keys
    ensures RuntimeStateGone(u, u, gone)
  {
    hide LeavesOut;
    NobodyLeftOut(u.movements.queue, gone);
    NobodyLeftOut(u.attacks.queue, gone);
  }

  /** A disconnect silences exactly that session and leaves every token alone. */
  lemma DisconnectSilencesOne(u: Udp, s: SessionId)
    requires Consistent(u)
    ensures Handled(u, Quiet(s)) == Disconnected(u, s) && Disconnected(u, s).tokens == u.tokens
    ensures RuntimeStateGone(u, Disconnected(u, s), {s})
  {
    hide RuntimeStateGone, Silenced, Consistent;
    if s in u.tokens {
      SilencedLeavesNothing(u, {s});
    } else {
      StrangersHaveNothing(u, {s});
    }
  }

  /** Removal silences the session as well, and takes exactly its token. */
  lemma RemovalTakesOneToken(u: Udp, s: SessionId)
    requires Consistent(u)
    ensures RuntimeStateGone(u, Removed(u, s), {s})
    ensures s !in Removed(u, s).tokens
    ensures forall t :: t != s ==> Lookup(Removed(u, s).tokens, t) == Lookup(u.tokens, t)
  {
    hide Silenced, LeavesOut;
    if s in u.tokens {
      SilencedLeavesNothing(u, {s});
    } else {
      StrangersHaveNothing(u, {s});
    }
  }

  /** A replacement silences the old session, moves its place to the new token and leaves
      everybody else's token alone. */
  lemma ReplacementMovesOneToken(u: Udp, old_: SessionId, new_: SessionId, token: Token)
    requires CanReplace(u, old_, new_, token)
    ensures RuntimeStateGone(u, Replaced(u, old_, new_, token), {old_})
    ensures forall t :: t != old_ && t != new_ ==>
      Lookup(Replaced(u, old_, new_, token).tokens, t) == Lookup(u.tokens, t)
    ensures Lookup(Replaced(u, old_, new_, token).tokens, new_) == Some(token)
    ensures old_ !in Replaced(u, old_, new_, token).tokens
  {
    hide Silenced, LeavesOut;
    SilencedLeavesNothing(u, {old_});
  }

  /** A prune silences exactly the sessions whose last activity lies the timeout or more back. */
  lemma PruneSilencesTheIdle(u: Udp, now: Time, idleTimeout: Time)
    requires Consistent(u)
    ensures
      var idle := set s | s in u.lastActivity && idleTimeout > 0 && now - u.lastActivity[s] >= idleTimeout;
      RuntimeStateGone(u, Handled(u, Prune(now, idleTimeout)), idle)
  {
    hide RuntimeStateGone, Silenced, Consistent;
    var idle := set s | s in u.lastActivity && idleTimeout > 0 && now - u.lastActivity[s] >= idleTimeout;
    if idleTimeout > 0 {
      assert idle == IdleSessions(u, now, idleTimeout);
      SilencedLeavesNothing(u, idle);
    } else {
      NobodyGone(u);
      assert idle == {};
    }
  }

  lemma NobodyGone(u: Udp)
    ensures RuntimeStateGone(u, u, {})
  {
    hide LeavesOut;
    NobodyLeftOut(u.movements.queue, {});
    NobodyLeftOut(u.attacks.queue, {});
  }

  /** An endpoint appears only by a hello that carries the session's token, and then it is the
      sender's; while it is there it stays the same; and it disappears only when its session is
      silenced, by a disconnect or for its silence. */
  lemma EndpointsComeByHello(u: Udp, e: Traffic, s: SessionId)
    requires Consistent(u)
    ensures
      var u' := Handled(u, e);
      && (s in u'.endpoints && s !in u.endpoints ==>
            e.Hello? && e.s == s && s in u.tokens && u.tokens[s] == e.token && u'.endpoints[s] == e.sender)
      && (s in u'.endpoints && s in u.endpoints ==> u'.endpoints[s] == u.endpoints[s])
      && (s in u.endpoints && s !in u'.endpoints ==>
            || (e.Quiet? && e.s == s)
            || (e.Prune? && e.idleTimeout > 0 && e.now - u.lastActivity[s] >= e.idleTimeout))
      && (e.Hello? && e.s == s && s in u.tokens && u.tokens[s] == e.token && s !in u.endpoints ==>
            s in u'.endpoints && u'.endpoints[s] == e.sender && u'.lastActivity[s] == e.now)
  {
    hide TokensTellApart, Bounded, Offered, Popped, Forgotten;
  }

  /** The activity of a session that stays is stamped by a refresh and by whatever comes from
      its own endpoint, with the right token where that is asked for, and by nothing else. */
  lemma ActivityComesFromTheEndpoint(u: Udp, e: Traffic, s: SessionId)
    requires Consistent(u) && Possible(u, e) && s in u.endpoints && s in Handled(u, e).endpoints
    ensures
      var stamped :=
        || e.Refresh?
        || (e.Hello? && e.s == s && u.tokens[s] == e.token && u.endpoints[s] == e.sender)
        || (e.Heartbeat? && e.s == s && u.endpoints[s] == e.sender)
        || (e.Move? && e.s == s && u.endpoints[s] == e.sender)
        || (e.Strike? && e.s == s && u.endpoints[s] == e.sender);
      Handled(u, e).lastActivity[s] == if stamped then e.now else u.lastActivity[s]
  {
    hide TokensTellApart, Bounded, Offered, Popped, Forgotten;
  }

  /** A movement enters the queue at its end, under a session whose endpoint is the sender,
      when there is room and its number is newer than the one remembered; the other lane and
      all endpoints stay. */
  lemma MovementIsCredited(u: Udp, e: Traffic)
    requires Consistent(u) && Possible(u, e) && e.Move?
    ensures e.s in u.endpoints && u.endpoints[e.s] == e.sender
    ensures
      var u' := Handled(u, e);
      var last := Lookup(u.movements.last, e.s);
      var queued := |u.movements.queue| < 256 && (last.None? || IsNewerSequence(e.sequence, last.value));
      && u'.attacks == u.attacks && u'.endpoints == u.endpoints && u'.tokens == u.tokens
      && u'.movements.queue == u.movements.queue + (if queued then [Input(e.s, e.sequence, e.movement)] else [])
      && u'.movements.last == if queued then u.movements.last[e.s := e.sequence] else u.movements.last
  {
  }

  /** Likewise an attack. */
  lemma AttackIsCredited(u: Udp, e: Traffic)
    requires Consistent(u) && Possible(u, e) && e.Strike?
    ensures e.s in u.endpoints && u.endpoints[e.s] == e.sender
    ensures
      var u' := Handled(u, e);
      var last := Lookup(u.attacks.last, e.s);
      var queued := |u.attacks.queue| < 256 && (last.None? || IsNewerSequence(e.sequence, last.value));
      && u'.movements == u.movements && u'.endpoints == u.endpoints && u'.tokens == u.tokens
      && u'.attacks.queue == u.attacks.queue + (if queued then [Input(e.s, e.sequence, e.attack)] else [])
      && u'.attacks.last == if queued then u.attacks.last[e.s := e.sequence] else u.attacks.last
  {
  }

  // ---------------------------------------------------------------- whole runs

  /** A session's containers after a history of traffic, if each packet was credited to a
      session registered at its sender. */
  function UdpAfter(tokens: map<SessionId, Token>, events: seq<Traffic>): Option<Udp> {
    if events == [] then Some(NewUdp(tokens))
    else
      var before := UdpAfter(tokens, events[..|events| - 1]);
      var e := events[|events| - 1];
      if before.Some? && Possible(before.value, e) then Some(Handled(before.value, e)) else None
  }

  /** Whose hello, and with which token, an endpoint rests on. */
  ghost predicate Greeting(e: Traffic, s: SessionId, token: Token, sender: Endpoint) {
    e.Hello? && e.s == s && e.token == token && e.sender == sender
  }

  /** Over every history: whoever has an endpoint has sent, from that very endpoint and with
      its own token, a hello; nothing later than that hello was a disconnect of the session. */
  lemma {:induction false} EveryEndpointWasGreeted(tokens: map<SessionId, Token>, events: seq<Traffic>, s: SessionId)
    requires TokensTellApart(tokens) && UdpAfter(tokens, events).Some?
    ensures
      var u := UdpAfter(tokens, events).value;
      && Consistent(u) && u.tokens == tokens
      && (s in u.endpoints ==> s in tokens && exists k ::
            && 0 <= k < |events| && Greeting(events[k], s, tokens[s], u.endpoints[s])
            && forall j :: k < j < |events| ==> events[j] != Quiet(s))
  {
    hide Consistent, TokensTellApart, Handled, Possible;
    if events == [] {
      NewUdpIsConsistent(tokens);
    } else {
      var init, e := events[..|events| - 1], events[|events| - 1];
      EveryEndpointWasGreeted(tokens, init, s);
      var before := UdpAfter(tokens, init).value;
      var u := UdpAfter(tokens, events).value;
      TrafficKeepsConsistent(before, e);
      EndpointsComeByHello(before, e, s);
      DisconnectSilencesSession(before, s);
      if s in u.endpoints {
        if s in before.endpoints {
          var k :| 0 <= k < |init| && Greeting(init[k], s, tokens[s], before.endpoints[s])
            && forall j :: k < j < |init| ==> init[j] != Quiet(s);
          assert events[k] == init[k];
          assert forall j :: k < j < |init| ==> events[j] == init[j];
        } else {
          assert Greeting(events[|init|], s, tokens[s], u.endpoints[s]);
        }
      }
    }
  }

  lemma NewUdpIsConsistent(tokens: map<SessionId, Token>)
    requires TokensTellApart(tokens)
    ensures Consistent(NewUdp(tokens))
  {
  }

  lemma DisconnectSilencesSession(u: Udp, s: SessionId)
    requires Consistent(u)
    ensures s !in Handled(u, Quiet(s)).endpoints
  {
    hide LeavesOut;
    DisconnectSilencesOne(u, s);
  }

  // ---------------------------------------------------------------- the session object

  class DungeonUdpSession {
    var tokens: map<SessionId, Token>
    var endpoints: map<SessionId, Endpoint>
    var lastActivity: map<SessionId, Time>
    var lastMovementSequences: map<SessionId, UInt32>
    var lastAttackSequences: map<SessionId, UInt32>
    var pendingMovements: seq<Input<Movement>>
    var pendingAttacks: seq<Input<Attack>>

    ghost function View(): Udp reads this {
      Udp(tokens, endpoints, lastActivity, Lane(lastMovementSequences, pendingMovements),
          Lane(lastAttackSequences, pendingAttacks))
    }

    ghost predicate Valid() reads this {
      Consistent(View())
    }

    constructor (tokens: map<SessionId, Token>)
      requires TokensTellApart(tokens)
      ensures Valid() && View() == NewUdp(tokens)
    {
      this.tokens, endpoints, lastActivity := tokens, map[], map[];
      lastMovementSequences, lastAttackSequences := map[], map[];
      pendingMovements, pendingAttacks := [], [];
    }

    method RemoveParticipantRuntimeState(sessionId: SessionId)
      requires Valid()
      modifies this
      ensures Valid() && View() == Silenced(old(View()), {sessionId}) && tokens == old(tokens)
      ensures RuntimeStateGone(old(View()), View(), {sessionId})
    {
      hide RuntimeStateGone;
      SilencedIsConsistent(View(), {sessionId});
      SilencedLeavesNothing(View(), {sessionId});
      endpoints := endpoints - {sessionId};
      lastActivity := lastActivity - {sessionId};
      lastMovementSequences := lastMovementSequences - {sessionId};
      lastAttackSequences := lastAttackSequences - {sessionId};
      pendingMovements := Without(pendingMovements, {sessionId});
      pendingAttacks := Without(pendingAttacks, {sessionId});
    }

    method DisconnectParticipant(sessionId: SessionId) returns (known: bool)
      requires Valid()
      modifies this
      ensures Valid() && View() == Disconnected(old(View()), sessionId)
      ensures tokens == old(tokens) && RuntimeStateGone(old(View()), View(), {sessionId})
      ensures known <==> sessionId in old(tokens)
    {
      hide RuntimeStateGone;
      DisconnectSilencesOne(View(), sessionId);
      if sessionId !in tokens {
        return false;
      }
      RemoveParticipantRuntimeState(sessionId);
      known := true;
    }

    method ReplaceParticipant(oldSessionId: SessionId, newSessionId: SessionId, newToken: Token) returns (ok: bool)
      requires Valid()
      modifies this
      ensures Valid() && (ok <==> CanReplace(old(View()), oldSessionId, newSessionId, newToken))
      ensures ok <==>
        && oldSessionId != 0 && newSessionId != 0 && newToken != 0
        && oldSessionId in old(tokens) && newSessionId !in old(tokens)
        && forall s :: s in old(tokens) ==> old(tokens)[s] != newToken
      ensures View() == if ok then Replaced(old(View()), oldSessionId, newSessionId, newToken) else old(View())
      ensures ok ==> RuntimeStateGone(old(View()), View(), {oldSessionId})
      ensures ok ==> tokens == (old(tokens) - {oldSessionId})[newSessionId := newToken]
    {
      hide RuntimeStateGone;
      if oldSessionId == 0 || newSessionId == 0 || newToken == 0 || oldSessionId == newSessionId {
        return false;
      }
      if oldSessionId !in tokens || newSessionId in tokens {
        return false;
      }
      if s :| s in tokens && tokens[s] == newToken {
        assert newToken in tokens.Values;
        return false;
      }
      assert newToken !in tokens.Values;
      ReplaceKeepsConsistent(View(), oldSessionId, newSessionId, newToken);
      ReplacementMovesOneToken(View(), oldSessionId, newSessionId, newToken);
      RemoveParticipantRuntimeState(oldSessionId);
      tokens := (tokens - {oldSessionId})[newSessionId := newToken];
      ok := true;
    }

    method RemoveParticipant(sessionId: SessionId) returns (known: bool)
      requires Valid()
      modifies this
      ensures Valid() && View() == Removed(old(View()), sessionId)
      ensures tokens == old(tokens) - {sessionId} && RuntimeStateGone(old(View()), View(), {sessionId})
      ensures known <==> sessionId in old(tokens)
    {
      hide RuntimeStateGone;
      RemovalTakesOneToken(View(), sessionId);
      if sessionId !in tokens {
        return false;
      }
      RemoveKeepsConsistent(View(), sessionId);
      RemoveParticipantRuntimeState(sessionId);
      tokens := tokens - {sessionId};
      known := true;
    }

    predicate AllParticipantsAuthenticated(): (all: bool)
      requires Valid()
      reads this
      ensures all <==> endpoints.Keys == tokens.Keys
    {
      SizesDecideAuthentication(View());
      |endpoints| == |tokens|
    }

    method RefreshAllActivity(now: Time)
      requires Valid()
      modifies this`lastActivity
      ensures Valid() && View() == Handled(old(View()), Refresh(now))
      ensures lastActivity.Keys == endpoints.Keys && forall s :: s in endpoints ==> lastActivity[s] == now
    {
      TrafficKeepsConsistent(View(), Refresh(now));
      lastActivity := Stamped(lastActivity, endpoints.Keys, now);
    }

    /** The refresh loop: one stamp per registered endpoint. */
    static method Stamped(activity: map<SessionId, Time>, registered: set<SessionId>, now: Time)
      returns (stamped: map<SessionId, Time>)
      ensures stamped == activity + map s | s in registered :: now
    {
      stamped := activity;
      var rest := registered;
      ghost var done: set<SessionId> := {};
      while rest != {}
        invariant done + rest == registered
        invariant stamped == activity + map s | s in done :: now
        decreases |rest|
      {
        var s :| s in rest;
        stamped := stamped[s := now];
        rest := rest - {s};
        done := done + {s};
      }
      assert done == registered;
    }

    /** The result lists each dropped session once. */
    method RemoveInactiveEndpoints(now: Time, idleTimeout: Time) returns (removed: seq<SessionId>)
      requires Valid()
      modifies this
      ensures Valid() && View() == Handled(old(View()), Prune(now, idleTimeout))
      ensures ListsOnce(removed, if idleTimeout <= 0 then {} else IdleSessions(old(View()), now, idleTimeout))
      ensures
        var idle := set s | s in old(lastActivity) && idleTimeout > 0 && now - old(lastActivity)[s] >= idleTimeout;
        ListsOnce(removed, idle) && tokens == old(tokens) && RuntimeStateGone(old(View()), View(), idle)
    {
      hide RuntimeStateGone;
      PruneSilencesTheIdle(View(), now, idleTimeout);
      removed := [];
      if idleTimeout > 0 {
        removed := EraseInactive(now, idleTimeout);
      }
    }

    /** Erases while walking the activity table. */
    method EraseInactive(now: Time, idleTimeout: Time) returns (removed: seq<SessionId>)
      requires Valid() && idleTimeout > 0
      modifies this
      ensures Valid() && View() == Silenced(old(View()), IdleSessions(old(View()), now, idleTimeout))
      ensures ListsOnce(removed, IdleSessions(old(View()), now, idleTimeout))
    {
      hide RuntimeStateGone, Bounded, TokensTellApart, Forgotten, Without;
      removed := [];
      ghost var before := View();
      ghost var gone: set<SessionId> := {};
      var rest := lastActivity.Keys;
      NobodySilenced(before);
      while rest != {}
        invariant View() == Silenced(before, gone)
        invariant rest <= before.lastActivity.Keys && ListsOnce(removed, gone)
        invariant forall s :: s in gone ==> s in before.lastActivity && s !in rest
        invariant forall s :: s in before.lastActivity && s !in rest ==>
          (s in gone <==> now - before.lastActivity[s] >= idleTimeout)
        decreases |rest|
      {
        var s :| s in rest;
        rest := rest - {s};
        if now - lastActivity[s] >= idleTimeout {
          SilencedTwice(before, gone, s);
          ListOneMore(removed, gone, s);
          removed := removed + [s];
          SilencedIsConsistent(before, gone);
          gone := gone + {s};
          RemoveParticipantRuntimeState(s);
        }
      }
      SilencedIsConsistent(before, gone);
      assert gone == IdleSessions(before, now, idleTimeout);
    }

    static lemma NobodySilenced(u: Udp)
      ensures Silenced(u, {}) == u
    {
      WithoutNobody(u.movements.queue);
      WithoutNobody(u.attacks.queue);
      assert u.endpoints - {} == u.endpoints && u.lastActivity - {} == u.lastActivity;
      assert u.movements.last - {} == u.movements.last && u.attacks.last - {} == u.attacks.last;
    }

    static lemma SilencedTwice(u: Udp, sessions: set<SessionId>, s: SessionId)
      ensures Silenced(Silenced(u, sessions), {s}) == Silenced(u, sessions + {s})
    {
      WithoutTwice(u.movements.queue, sessions, {s});
      WithoutTwice(u.attacks.queue, sessions, {s});
      assert u.endpoints - sessions - {s} == u.endpoints - (sessions + {s});
      assert u.lastActivity - sessions - {s} == u.lastActivity - (sessions + {s});
      assert u.movements.last - sessions - {s} == u.movements.last - (sessions + {s});
      assert u.attacks.last - sessions - {s} == u.attacks.last - (sessions + {s});
    }

    method TryPopMovement() returns (output: Option<Input<Movement>>)
      requires Valid()
      modifies this`pendingMovements
      ensures Valid() && View() == Handled(old(View()), PopMovement)
      ensures output == if old(pendingMovements) == [] then None else Some(old(pendingMovements)[0])
    {
      if pendingMovements == [] {
        return None;
      }
      output := Some(pendingMovements[0]);
      pendingMovements := pendingMovements[1..];
    }

    method TryPopAttack() returns (output: Option<Input<Attack>>)
      requires Valid()
      modifies this`pendingAttacks
      ensures Valid() && View() == Handled(old(View()), PopAttack)
      ensures output == if old(pendingAttacks) == [] then None else Some(old(pendingAttacks)[0])
    {
      if pendingAttacks == [] {
        return None;
      }
      output := Some(pendingAttacks[0]);
      pendingAttacks := pendingAttacks[1..];
    }

    /** The copy a snapshot is sent to: the endpoint of every registered session, one after the other. */
    method CopyEndpoints() returns (destinations: seq<Endpoint>, ghost order: seq<SessionId>)
      ensures ListsOnce(order, endpoints.Keys) && |destinations| == |order|
      ensures forall i :: 0 <= i < |order| ==> order[i] in endpoints && destinations[i] == endpoints[order[i]]
    {
      hide ListsOnce;
      destinations, order := [], [];
      var rest := endpoints.Keys;
      ghost var done: set<SessionId> := {};
      ListNothing<SessionId>();
      WalkBegins(endpoints.Keys);
      while rest != {}
        invariant Walk(endpoints.Keys, done, rest) && ListsOnce(order, done) && |destinations| == |order|
        invariant forall i :: 0 <= i < |order| ==> order[i] in endpoints && destinations[i] == endpoints[order[i]]
        decreases |rest|
      {
        var s :| s in rest;
        WalkOn(endpoints.Keys, done, rest, s);
        ListOneMore(order, done, s);
        destinations, order := destinations + [endpoints[s]], order + [s];
        rest, done := rest - {s}, done + {s};
      }
      WalkEnds(endpoints.Keys, done, rest);
    }

    method HandleHello(sessionId: SessionId, token: Token, sender: Endpoint, now: Time) returns (success: bool)
      requires Valid()
      modifies this
      ensures Valid() && View() == Handled(old(View()), Hello(sessionId, token, sender, now))
      ensures success <==>
        && sessionId in old(tokens) && old(tokens)[sessionId] == token
        && (sessionId in old(endpoints) ==> old(endpoints)[sessionId] == sender)
      ensures tokens == old(tokens)
      ensures endpoints == if success then old(endpoints)[sessionId := sender] else old(endpoints)
      ensures lastActivity == if success then old(lastActivity)[sessionId := now] else old(lastActivity)
    {
      success := false;
      if sessionId in tokens && tokens[sessionId] == token {
        if sessionId !in endpoints {
          endpoints := endpoints[sessionId := sender];
          lastActivity := lastActivity[sessionId := now];
          success := true;
        } else if endpoints[sessionId] == sender {
          lastActivity := lastActivity[sessionId := now];
          assert endpoints[sessionId := sender] == endpoints;
          success := true;
        }
      }
    }

    method HandleHeartbeat(sessionId: SessionId, sender: Endpoint, now: Time)
      requires Valid()
      modifies this
      ensures Valid() && View() == Handled(old(View()), Heartbeat(sessionId, sender, now))
      ensures endpoints == old(endpoints)
      ensures lastActivity ==
        if sessionId in endpoints && endpoints[sessionId] == sender then old(lastActivity)[sessionId := now]
        else old(lastActivity)
    {
      if sessionId !in endpoints || endpoints[sessionId] != sender {
        return;
      }
      lastActivity := lastActivity[sessionId := now];
    }

    method HandlePlayerMovement(sender: Endpoint, sequence: UInt32, movement: Movement, now: Time)
      returns (sessionId: SessionId)
      requires Valid()
      modifies this
      ensures Valid()
      ensures sessionId == 0 ==> View() == old(View()) && sender !in old(endpoints).Values
      ensures sessionId != 0 ==>
        && Possible(old(View()), Move(sessionId, sender, sequence, movement, now))
        && View() == Handled(old(View()), Move(sessionId, sender, sequence, movement, now))
      ensures sessionId != 0 ==>
        && sessionId in old(endpoints) && old(endpoints)[sessionId] == sender
        && lastActivity == old(lastActivity)[sessionId := now]
        && pendingMovements == old(pendingMovements) + (
             if |old(pendingMovements)| < 256 && (sessionId in old(lastMovementSequences) ==>
                IsNewerSequence(sequence, old(lastMovementSequences)[sessionId]))
             then [Input(sessionId, sequence, movement)] else [])
    {
      sessionId := 0;
      if s :| s in endpoints && endpoints[s] == sender {
        sessionId := s;
      }
      if sessionId == 0 {
        return;
      }
      lastActivity := lastActivity[sessionId := now];
      if |pendingMovements| >= MAX_PENDING {
        return;
      }
      if sessionId in lastMovementSequences &&
         !IsNewerSequence(sequence, lastMovementSequences[sessionId]) {
        return;
      }
      lastMovementSequences := lastMovementSequences[sessionId := sequence];
      pendingMovements := pendingMovements + [Input(sessionId, sequence, movement)];
    }

    method HandlePlayerAttack(sender: Endpoint, sequence: UInt32, attack: Attack, now: Time)
      returns (sessionId: SessionId)
      requires Valid()
      modifies this
      ensures Valid()
      ensures sessionId == 0 ==> View() == old(View()) && sender !in old(endpoints).Values
      ensures sessionId != 0 ==>
        && Possible(old(View()), Strike(sessionId, sender, sequence, attack, now))
        && View() == Handled(old(View()), Strike(sessionId, sender, sequence, attack, now))
      ensures sessionId != 0 ==>
        && sessionId in old(endpoints) && old(endpoints)[sessionId] == sender
        && lastActivity == old(lastActivity)[sessionId := now]
        && pendingAttacks == old(pendingAttacks) + (
             if |old(pendingAttacks)| < 256 && (sessionId in old(lastAttackSequences) ==>
                IsNewerSequence(sequence, old(lastAttackSequences)[sessionId]))
             then [Input(sessionId, sequence, attack)] else [])
    {
      sessionId := 0;
      if s :| s in endpoints && endpoints[s] == sender {
        sessionId := s;
      }
      if sessionId == 0 {
        return;
      }
      lastActivity := lastActivity[sessionId := now];
      if |pendingAttacks| >= MAX_PENDING {
        return;
      }
      if sessionId in lastAttackSequences &&
         !IsNewerSequence(sequence, lastAttackSequences[sessionId]) {
        return;
      }
      lastAttackSequences := lastAttackSequences[sessionId := sequence];
      pendingAttacks := pendingAttacks + [Input(sessionId, sequence, attack)];
    }
  }
}
