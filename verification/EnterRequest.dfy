/** An enter request among the calls of other threads: its own locked sections in their order, and
    whatever runs of other sections come before, between and after them. */
module EnterRequests {
  import opened Common
  import opened DungeonRegistry
  import opened UdpSession
  import opened DungeonUdpManagers
  import opened LifecycleRuns

  /** What another call may do while the request of session `s` holds no lock: anything but a section of
      this request, `mine` being its dungeon, or of something else on the session's own strand. And
      once the request has taken its dungeon out, releasing the UDP session is up to it alone. */
  ghost predicate Foreign(e: Event, s: SessionId, mine: Option<DungeonId>, releasing: bool) {
    match e
    case Open(leader, _, _, _, _) => leader != s
    case ListParticipants(id) => mine != Some(id)
    case Allocate(id, _, _) => mine != Some(id)
    case FindToken(id) => mine != Some(id)
    case GiveUp(id) => mine != Some(id)
    case ReleaseUdp(id) => releasing ==> mine != Some(id)
    case Register(t, _, _, _, _) => t != s
    case Abandon(t, _, _) => t != s
    case Disconnect(t, _, _) => t != s
    case _ => true
  }

  ghost predicate EveryForeign(events: seq<Event>, s: SessionId, mine: Option<DungeonId>, releasing: bool) {
    forall k :: 0 <= k < |events| ==> Foreign(events[k], s, mine, releasing)
  }

  // ---------------------------------------------------------------- what others leave alone

  lemma AskerStays(w: World, e: Event, s: SessionId)
    requires Enabled(w, e) && MayAsk(w, s) && Foreign(e, s, None, false)
    ensures MayAsk(Next(w, e), s)
  {
    hide Enabled, Next, Asking;
    StaysThere(w, e, s);
    if Asking(Next(w, e), s) {
      AskingBefore(w, e, s);
    }
  }

  lemma AskingBefore(w: World, e: Event, s: SessionId)
    requires Enabled(w, e) && Foreign(e, s, None, false) && Asking(Next(w, e), s)
    ensures Asking(w, s)
  {
    hide Enabled, Next, Leads;
    var id :| Leads(Next(w, e), id, s);
    if e.Open? && id == w.registry.next {
      OpenedByOther(w, e, s);
    } else {
      LeadsBefore(w, e, id, s);
    }
  }

  lemma OpenedByOther(w: World, e: Event, s: SessionId)
    requires e.Open? && e.leader != s && Enabled(w, e) && Leads(Next(w, e), w.registry.next, s)
    ensures Leads(w, w.registry.next, s)
  {
    hide Opened, FreshRoster, MayAsk;
  }

  lemma StaysThere(w: World, e: Event, s: SessionId)
    requires Enabled(w, e) && Foreign(e, s, None, false)
    requires s in w.registered && s !in w.absent && s !in w.reconnects && s !in w.abandoned
    ensures
      var w' := Next(w, e);
      s in w'.registered && s !in w'.absent && s !in w'.reconnects && s !in w'.abandoned
  {
    if OnStrand(e) {
      hide CanAnswer, CanReport, CanReturn, Asking, Answered, Departed, Returned, Replaced, ReplacementAccepted;
    } else {
      hide Enabled, Next;
      SessionsStay(w, e);
    }
  }

  lemma {:induction false} AskerStaysOver(w: World, events: seq<Event>, s: SessionId)
    requires After(w, events).Some? && MayAsk(w, s) && EveryForeign(events, s, None, false)
    ensures MayAsk(After(w, events).value, s)
  {
    hide Enabled, Next, MayAsk, Foreign;
    if events != [] {
      AskerStaysOver(w, events[..|events| - 1], s);
      AskerStays(After(w, events[..|events| - 1]).value, events[|events| - 1], s);
    }
  }

  /** What a request has done so far, and what it has still to release, is as it was. */
  ghost predicate SameRequest(w: World, w': World, id: DungeonId, releasing: bool) {
    && (id in w'.entering <==> id in w.entering) && (id in w'.finding <==> id in w.finding)
    && (id in w.entering ==>
          && w'.entering[id].leader == w.entering[id].leader && w'.entering[id].listed == w.entering[id].listed
          && w'.entering[id].refused == w.entering[id].refused)
    && (id in w.finding ==> w'.finding[id] == w.finding[id])
    && (releasing && id in w.releases ==> id in w'.releases)
  }

  lemma RequestStays(w: World, e: Event, s: SessionId, id: DungeonId, releasing: bool)
    requires Enabled(w, e) && Foreign(e, s, Some(id), releasing) && id < w.registry.next
    ensures SameRequest(w, Next(w, e), id, releasing) && id < Next(w, e).registry.next
  {
    hide Enabled, Next, SameRequest;
    NumbersGrow(w, e);
    match e
    case Open(_, _, _, _, _) => RequestStaysInRequests(w, e, s, id, releasing);
    case ListParticipants(_) => RequestStaysInRequests(w, e, s, id, releasing);
    case Allocate(_, _, _) => RequestStaysInRequests(w, e, s, id, releasing);
    case FindToken(_) => RequestStaysInRequests(w, e, s, id, releasing);
    case GiveUp(_) => RequestStaysInRequests(w, e, s, id, releasing);
    case Cancel(_) => RequestStaysWhenClosed(w, e, id, releasing);
    case Finish(_) => RequestStaysWhenClosed(w, e, id, releasing);
    case _ => RequestStaysElsewhere(w, e, s, id, releasing);
  }

  lemma RequestStaysInRequests(w: World, e: Event, s: SessionId, id: DungeonId, releasing: bool)
    requires Enabled(w, e) && Foreign(e, s, Some(id), releasing) && id < w.registry.next
    requires e.Open? || e.ListParticipants? || e.Allocate? || e.FindToken? || e.GiveUp?
    ensures SameRequest(w, Next(w, e), id, releasing)
  {
    hide FreshRoster, FreshTokens, AllocationAccepted, MayAsk, Opened, Closed;
  }

  lemma RequestStaysWhenClosed(w: World, e: Event, id: DungeonId, releasing: bool)
    requires Enabled(w, e) && (e.Cancel? || e.Finish?)
    ensures SameRequest(w, Next(w, e), id, releasing)
  {
    hide Closed;
  }

  lemma RequestStaysElsewhere(w: World, e: Event, s: SessionId, id: DungeonId, releasing: bool)
    requires Enabled(w, e) && Foreign(e, s, Some(id), releasing)
    requires !e.Open? && !e.ListParticipants? && !e.Allocate? && !e.FindToken? && !e.GiveUp? && !e.Cancel? && !e.Finish?
    ensures SameRequest(w, Next(w, e), id, releasing)
  {
    hide Possible, CanAnswer, CanReport, CanReturn, RemovedSeats, ReleasedIds, Asking, SomebodyGone, Handled;
    hide Quieted, Untokened, Answered, Departed, Returned, Swept, WithState;
  }

  lemma {:induction false} RequestStaysOver(w: World, events: seq<Event>, s: SessionId, id: DungeonId, releasing: bool)
    requires After(w, events).Some? && EveryForeign(events, s, Some(id), releasing) && id < w.registry.next
    ensures SameRequest(w, After(w, events).value, id, releasing) && id < After(w, events).value.registry.next
  {
    hide Enabled, Next, Foreign;
    if events != [] {
      RequestStaysOver(w, events[..|events| - 1], s, id, releasing);
      RequestStays(After(w, events[..|events| - 1]).value, events[|events| - 1], s, id, releasing);
    }
  }

  // ---------------------------------------------------------------- own sections and others'

  /** The sections of the request, and before, between and after them those of other calls. */
  ghost function Weave(own: seq<Event>, others: seq<seq<Event>>): seq<Event>
    requires |others| == |own| + 1
  {
    if own == [] then others[0]
    else Weave(own[..|own| - 1], others[..|own|]) + [own[|own| - 1]] + others[|own|]
  }

  lemma WeaveSection(own: seq<Event>, others: seq<seq<Event>>, e: Event)
    requires |others| == |own| + 1
    ensures Weave(own + [e], others + [[]]) == Weave(own, others) + [e]
  {
    assert (own + [e])[..|own|] == own && (others + [[]])[..|own| + 1] == others;
  }

  lemma WeaveOthers(own: seq<Event>, others: seq<seq<Event>>, more: seq<Event>)
    requires |others| == |own| + 1
    ensures Weave(own, others[|own| := others[|own|] + more]) == Weave(own, others) + more
  {
    var longer := others[|own| := others[|own|] + more];
    if own != [] {
      assert longer[..|own|] == others[..|own|];
    }
  }

  /** Any run of other calls may come in between: the whole stays one run, everything that holds at every
      moment of every run still holds, and the request finds its own affairs as it has left them. */
  lemma AnyRunMayComeBetween(
    w: World, own: seq<Event>, others: seq<seq<Event>>, more: seq<Event>, s: SessionId, id: DungeonId, releasing: bool)
    requires |others| == |own| + 1 && After(w, Weave(own, others)).Some?
    requires
      var v := After(w, Weave(own, others)).value;
      Orderly(v) && id < v.registry.next && After(v, more).Some? && EveryForeign(more, s, Some(id), releasing)
    ensures
      var v := After(w, Weave(own, others)).value;
      && After(w, Weave(own, others[|own| := others[|own|] + more])) == After(v, more)
      && Orderly(After(v, more).value) && SameRequest(v, After(v, more).value, id, releasing)
  {
    hide Orderly, SameRequest, EveryForeign, After, Weave;
    var v := After(w, Weave(own, others)).value;
    WeaveOthers(own, others, more);
    AfterConcat(w, Weave(own, others), more);
    OrderlyOver(v, more);
    RequestStaysOver(v, more, s, id, releasing);
  }

  /** Nobody else gets in between. */
  ghost predicate Undisturbed(others: seq<seq<Event>>) {
    forall k :: 0 <= k < |others| ==> others[k] == []
  }

  lemma UndisturbedMore(others: seq<seq<Event>>)
    ensures Undisturbed(others + [[]]) <==> Undisturbed(others)
  {
    if Undisturbed(others + [[]]) {
      forall k | 0 <= k < |others|
        ensures others[k] == []
      {
        assert (others + [[]])[k] == others[k];
      }
    }
  }

  lemma {:induction false} WeaveUndisturbed(own: seq<Event>, others: seq<seq<Event>>)
    requires |others| == |own| + 1 && Undisturbed(others)
    ensures Weave(own, others) == own
  {
    if own != [] {
      WeaveUndisturbed(own[..|own| - 1], others[..|own|]);
    }
  }
}
