/** Shared vocabulary: optional values, identifiers, time, and the two facts
    about finite collections that several components rest on. */
module Common {
  datatype Option<+T> = None | Some(value: T)

  type Byte = x: int | 0 <= x < 0x100
  type UInt16 = x: int | 0 <= x < 0x1_0000
  type UInt32 = x: int | 0 <= x < 0x1_0000_0000

  type SessionId = nat
  type PlayerId = nat
  type PartyId = nat
  type DungeonId = nat
  type SkillId = UInt32

  const MAX_PARTY_MEMBERS := 4

  /** A steady-clock reading; durations are differences of readings. */
  type Time = int

  function Lookup<K, V>(m: map<K, V>, k: K): Option<V> {
    if k in m then Some(m[k]) else None
  }

  ghost predicate Distinct<T>(s: seq<T>) {
    forall i, j :: 0 <= i < j < |s| ==> s[i] != s[j]
  }

  /** The list holds each member of the set once and nothing else. */
  ghost predicate ListsOnce<T>(list: seq<T>, members: set<T>) {
    Distinct(list) && (forall x | x in list :: x in members) && (forall x | x in members :: x in list)
  }

  lemma ListNothing<T>()
    ensures ListsOnce<T>([], {})
  {
  }

  lemma ListMore<T>(a: seq<T>, as_: set<T>, b: seq<T>, bs: set<T>)
    requires ListsOnce(a, as_) && ListsOnce(b, bs) && as_ !! bs
    ensures ListsOnce(a + b, as_ + bs)
  {
    forall i, j | 0 <= i < j < |a + b|
      ensures (a + b)[i] != (a + b)[j]
    {
      if i < |a| <= j {
        assert a[i] in as_ && b[j - |a|] in bs;
      }
    }
  }

  lemma ListOneMore<T>(list: seq<T>, members: set<T>, x: T)
    requires ListsOnce(list, members) && x !in members
    ensures ListsOnce(list + [x], members + {x})
  {
  }

  lemma ListMaybe<T>(list: seq<T>, members: set<T>, x: T, more: bool)
    requires ListsOnce(list, members) && x !in members
    ensures ListsOnce(list + if more then [x] else [], members + if more then {x} else {})
  {
    if !more {
      assert list + [] == list && members + {} == members;
    }
  }

  /** A walk over a set: what has been visited and what is left. */
  ghost predicate Walk<T>(whole: set<T>, done: set<T>, rest: set<T>) {
    whole == done + rest && done !! rest
  }

  lemma WalkBegins<T>(whole: set<T>)
    ensures Walk(whole, {}, whole)
  {
  }

  lemma WalkOn<T>(whole: set<T>, done: set<T>, rest: set<T>, x: T)
    requires Walk(whole, done, rest) && x in rest
    ensures Walk(whole, done + {x}, rest - {x}) && x !in done && x in whole
    ensures |rest - {x}| < |rest|
  {
  }

  lemma WalkEnds<T>(whole: set<T>, done: set<T>, rest: set<T>)
    requires Walk(whole, done, rest)
    ensures rest == {} ==> done == whole
  {
  }

  /** A subset is the whole set exactly when it is as large. */
  lemma SameSizeSubset<T>(a: set<T>, b: set<T>)
    requires a <= b
    ensures |a| <= |b|
    ensures |a| == |b| <==> a == b
  {
    assert b == a + (b - a);
    assert |b| == |a| + |b - a|;
    if |a| == |b| {
      assert b - a == {};
    }
  }

  lemma DifferenceSize<T>(whole: set<T>, part: set<T>)
    requires part <= whole
    ensures |whole - part| == |whole| - |part|
  {
    assert whole == part + (whole - part);
  }

  /** A map has as many entries as it has keys. */
  lemma MapSize<K, V>(m: map<K, V>)
    ensures |m| == |m.Keys|
  {
  }

  /** A map that tells its keys apart has as many values as keys. */
  lemma {:induction false} ImageSize<K, V>(m: map<K, V>)
    requires forall a, b :: a in m && b in m && a != b ==> m[a] != m[b]
    ensures |m.Values| == |m.Keys|
    decreases |m.Keys|
  {
    if m.Keys == {} {
      assert m.Values == {};
    } else {
      var a :| a in m;
      var rest := m - {a};
      assert rest.Keys == m.Keys - {a};
      ImageSize(rest);
      assert m.Values == rest.Values + {m[a]} by {
        assert forall k :: k in m ==> k == a || (k in rest && rest[k] == m[k]);
        assert forall v :: v in m.Values <==> exists k :: k in m && m[k] == v;
        assert m[a] in m.Values;
      }
      assert m[a] !in rest.Values;
    }
  }

  /** The first n numbers. */
  ghost function Numbers(n: nat): (numbers: set<nat>)
    ensures |numbers| == n && forall i: nat :: i in numbers <==> i < n
  {
    if n == 0 then {}
    else
      var smaller := Numbers(n - 1);
      var numbers := smaller + {n - 1};
      assert n - 1 !in smaller && forall i: nat :: i in numbers <==> i < n;
      numbers
  }

  // ---------------------------------------------------------------- lists without some sessions

  ghost function Excluding(order: seq<SessionId>, gone: set<SessionId>): seq<SessionId> {
    if order == [] then []
    else
      Excluding(order[..|order| - 1], gone) +
        (if order[|order| - 1] in gone then [] else [order[|order| - 1]])
  }

  lemma {:induction false} ExcludingListsOnce(order: seq<SessionId>, members: set<SessionId>, gone: set<SessionId>)
    requires ListsOnce(order, members)
    ensures ListsOnce(Excluding(order, gone), members - gone)
  {
    if order == [] {
    } else {
      var init, last := order[..|order| - 1], order[|order| - 1];
      assert order == init + [last];
      assert ListsOnce(init, members - {last});
      ExcludingListsOnce(init, members - {last}, gone);
      if last in gone {
        assert members - {last} - gone == members - gone;
        assert Excluding(order, gone) == Excluding(init, gone);
      } else {
        ListOneMore(Excluding(init, gone), members - {last} - gone, last);
        assert members - {last} - gone + {last} == members - gone;
      }
    }
  }

  lemma {:induction false} ExcludingTwice(order: seq<SessionId>, a: set<SessionId>, b: set<SessionId>)
    ensures Excluding(Excluding(order, a), b) == Excluding(order, a + b)
  {
    if order != [] {
      var init, last := order[..|order| - 1], order[|order| - 1];
      ExcludingTwice(init, a, b);
      if last !in a {
        assert (Excluding(init, a) + [last])[..|Excluding(init, a)|] == Excluding(init, a);
      } else {
        assert Excluding(order, a) == Excluding(init, a);
        assert Excluding(order, a + b) == Excluding(init, a + b);
      }
    }
  }

  lemma {:induction false} ExcludingNobody(order: seq<SessionId>)
    ensures Excluding(order, {}) == order
  {
    if order != [] {
      ExcludingNobody(order[..|order| - 1]);
    }
  }

  /** `part` is `whole` with some elements left out; `places` says where each element stood. */
  ghost predicate PicksInOrder<T>(whole: seq<T>, part: seq<T>, places: seq<nat>) {
    && |places| == |part|
    && (forall k :: 0 <= k < |part| ==> places[k] < |whole| && part[k] == whole[places[k]])
    && (forall j, k :: 0 <= j < k < |places| ==> places[j] < places[k])
  }

  ghost predicate KeepsOrder<T>(whole: seq<T>, part: seq<T>) {
    exists places: seq<nat> :: PicksInOrder(whole, part, places)
  }

  lemma {:induction false} ExcludingKeepsOrder(order: seq<SessionId>, gone: set<SessionId>)
    ensures KeepsOrder(order, Excluding(order, gone))
    ensures forall s :: s in Excluding(order, gone) <==> s in order && s !in gone
  {
    if order == [] {
      assert PicksInOrder(order, Excluding(order, gone), []);
    } else {
      var init, last := order[..|order| - 1], order[|order| - 1];
      assert order == init + [last];
      ExcludingKeepsOrder(init, gone);
      var places: seq<nat> :| PicksInOrder(init, Excluding(init, gone), places);
      PickOneMore(init, Excluding(init, gone), places, last);
      assert last in gone ==> Excluding(order, gone) == Excluding(init, gone);
    }
  }

  lemma PickOneMore<T>(whole: seq<T>, part: seq<T>, places: seq<nat>, last: T)
    requires PicksInOrder(whole, part, places)
    ensures KeepsOrder(whole + [last], part) && KeepsOrder(whole + [last], part + [last])
  {
    assert PicksInOrder(whole + [last], part, places);
    assert PicksInOrder(whole + [last], part + [last], places + [|whole|]);
  }

  /** std::remove followed by erase. */
  method WithoutSession(list: seq<SessionId>, sessionId: SessionId) returns (rest: seq<SessionId>)
    ensures rest == Excluding(list, {sessionId})
  {
    rest := [];
    var i := 0;
    while i < |list|
      invariant 0 <= i <= |list|
      invariant rest == Excluding(list[..i], {sessionId})
    {
      assert list[..i + 1][..i] == list[..i];
      if list[i] != sessionId {
        rest := rest + [list[i]];
      }
      i := i + 1;
    }
    assert list[..i] == list;
  }
}
