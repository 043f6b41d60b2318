/** The character of src/DungeonPlayerState.cpp: hit points, mana, cooldowns and the skill
    state machine; and the client's acceptance test for its snapshots. */
module PlayerState {
  import opened Common
  import opened DungeonRoom
  import opened RoomStates

  datatype Skill = Skill(
    id: SkillId,
    manaCost: UInt32,
    cooldownTicks: UInt32,
    startupTicks: UInt32,
    activeTicks: UInt32,
    recoveryTicks: UInt32)

  datatype Phase = Idle | Startup | Active | Recovery

  datatype BeginSkillResult = Success | Dead | InvalidSkill | NotEnoughMana | OnCooldown | Busy

  datatype MovePlayerResult = Moved | MoverDead | WrongRoom | LeftRoom | Blocked

  /** The action fields: what is under way, and the two phase lengths still to come. */
  datatype Action = Action(skillId: SkillId, phase: Phase, remaining: UInt32, active: UInt32, recovery: UInt32)

  const NO_ACTION := Action(0, Idle, 0, 0, 0)

  /** The fields combat works on. */
  datatype Fighter = Fighter(
    hp: UInt32,
    maxHp: UInt32,
    mp: UInt32,
    maxMp: UInt32,
    cooldowns: map<SkillId, UInt32>,
    action: Action)

  /** What every reachable fighter satisfies. */
  ghost predicate Fit(f: Fighter) {
    && f.maxHp > 0 && f.maxMp > 0 && f.hp <= f.maxHp && f.mp <= f.maxMp
    && 0 !in f.cooldowns
    && (forall id :: id in f.cooldowns ==> f.cooldowns[id] > 0)
    && (f.action.phase.Idle? ==> f.action == NO_ACTION)
    && (!f.action.phase.Idle? ==> f.action.skillId != 0 && f.action.remaining > 0 && f.action.active > 0)
    && (f.hp == 0 ==> f.action == NO_ACTION)
  }

  function NewFighter(maxHp: UInt32, maxMp: UInt32): Fighter {
    Fighter(maxHp, maxHp, maxMp, maxMp, map[], NO_ACTION)
  }

  function BeginResult(f: Fighter, skill: Skill): BeginSkillResult {
    if f.hp == 0 then Dead
    else if skill.id == 0 || skill.activeTicks == 0 then InvalidSkill
    else if skill.id in f.cooldowns then OnCooldown
    else if !f.action.phase.Idle? then Busy
    else if f.mp < skill.manaCost then NotEnoughMana
    else Success
  }

  function FirstAction(skill: Skill): Action {
    if skill.startupTicks > 0
    then Action(skill.id, Startup, skill.startupTicks, skill.activeTicks, skill.recoveryTicks)
    else Action(skill.id, Active, skill.activeTicks, skill.activeTicks, skill.recoveryTicks)
  }

  function Begun(f: Fighter, skill: Skill): Fighter {
    if !BeginResult(f, skill).Success? then f
    else
      f.(mp := f.mp - skill.manaCost,
         cooldowns := if skill.cooldownTicks > 0 then f.cooldowns[skill.id := skill.cooldownTicks] else f.cooldowns,
         action := FirstAction(skill))
  }

  function CooledDown(cooldowns: map<SkillId, UInt32>): map<SkillId, UInt32>
    requires forall id :: id in cooldowns ==> cooldowns[id] > 0
  {
    map id | id in cooldowns && cooldowns[id] > 1 :: cooldowns[id] - 1
  }

  function NextAction(a: Action): Action
    requires !a.phase.Idle? ==> a.remaining > 0
  {
    if a.phase.Idle? then a
    else if a.remaining > 1 then a.(remaining := a.remaining - 1)
    else if a.phase.Startup? then a.(phase := Active, remaining := a.active)
    else if a.phase.Active? && a.recovery > 0 then a.(phase := Recovery, remaining := a.recovery)
    else NO_ACTION
  }

  ghost function Ticked(f: Fighter): Fighter
    requires Fit(f)
  {
    f.(cooldowns := CooledDown(f.cooldowns), action := NextAction(f.action))
  }

  function Harmed(f: Fighter, damage: UInt32): Fighter {
    if damage == 0 || f.hp == 0 then f
    else if damage >= f.hp then f.(hp := 0, action := NO_ACTION)
    else f.(hp := f.hp - damage)
  }

  // ---------------------------------------------------------------- the skill timeline

  datatype Act = Begin(skill: Skill) | Tick | Harm(damage: UInt32)

  ghost function Acted(f: Fighter, act: Act): (r: Fighter)
    requires Fit(f)
    ensures Fit(r) && r.maxHp == f.maxHp && r.maxMp == f.maxMp && r.hp <= f.hp
  {
    match act
    case Begin(skill) => Begun(f, skill)
    case Tick => Ticked(f)
    case Harm(damage) => Harmed(f, damage)
  }

  ghost function AfterActs(f: Fighter, acts: seq<Act>): (r: Fighter)
    requires Fit(f)
    ensures Fit(r) && r.maxHp == f.maxHp && r.maxMp == f.maxMp && r.hp <= f.hp
  {
    if acts == [] then f else Acted(AfterActs(f, acts[..|acts| - 1]), acts[|acts| - 1])
  }

  function Ticks(acts: seq<Act>): nat {
    if acts == [] then 0 else Ticks(acts[..|acts| - 1]) + (if acts[|acts| - 1].Tick? then 1 else 0)
  }

  function CastLength(skill: Skill): nat {
    skill.startupTicks as int + skill.activeTicks + skill.recoveryTicks
  }

  /** Where a cast stands k ticks after it began. */
  function Schedule(skill: Skill, k: nat): Action {
    var s: int, a: int, r: int := skill.startupTicks, skill.activeTicks, skill.recoveryTicks;
    if k < s then Action(skill.id, Startup, s - k, a, r)
    else if k < s + a then Action(skill.id, Active, s + a - k, a, r)
    else if k < s + a + r then Action(skill.id, Recovery, s + a + r - k, a, r)
    else NO_ACTION
  }

  lemma ScheduleTicks(skill: Skill, k: nat)
    requires skill.activeTicks > 0 && k < CastLength(skill)
    ensures !Schedule(skill, k).phase.Idle? && Schedule(skill, k).remaining > 0
    ensures NextAction(Schedule(skill, k)) == Schedule(skill, k + 1)
  {
  }

  /** Closed form: k ticks into a cast the action is the schedule's k-th entry, whatever other
      calls came in between, as long as the caster lives. */
  lemma {:induction false} Timeline(f: Fighter, skill: Skill, acts: seq<Act>)
    requires Fit(f) && BeginResult(f, skill).Success?
    requires Ticks(acts) < CastLength(skill) || (Ticks(acts) == CastLength(skill) && acts[|acts| - 1].Tick?)
    requires AfterActs(Begun(f, skill), acts).hp > 0
    ensures AfterActs(Begun(f, skill), acts).action == Schedule(skill, Ticks(acts))
  {
    if acts != [] {
      var init := acts[..|acts| - 1];
      Timeline(f, skill, init);
      ScheduleTicks(skill, Ticks(init));
    }
  }

  /** A cast starts its cooldown clock, which nothing but ticks can move: the death of the
      caster, other casts and failed calls all leave it running. */
  lemma {:induction false} CooldownRuns(f: Fighter, skill: Skill, acts: seq<Act>)
    requires Fit(f) && BeginResult(f, skill).Success?
    requires Ticks(acts) < skill.cooldownTicks || (Ticks(acts) == skill.cooldownTicks && acts != [] && acts[|acts| - 1].Tick?)
    ensures Lookup(AfterActs(Begun(f, skill), acts).cooldowns, skill.id) ==
      if Ticks(acts) < skill.cooldownTicks then Some(skill.cooldownTicks - Ticks(acts)) else None
  {
    if acts != [] {
      CooldownRuns(f, skill, acts[..|acts| - 1]);
    }
  }

  /** Two casts of one skill are at least max(cooldown, whole cast) ticks apart, and any two
      casts at least the first one's length, over every history. */
  lemma CastsAreSpaced(f: Fighter, skill: Skill, acts: seq<Act>, next: Skill)
    requires Fit(f) && BeginResult(f, skill).Success?
    ensures BeginResult(AfterActs(Begun(f, skill), acts), next).Success? ==>
      && CastLength(skill) <= Ticks(acts)
      && (next.id == skill.id ==> skill.cooldownTicks <= Ticks(acts))
  {
    var g := AfterActs(Begun(f, skill), acts);
    if g.hp > 0 && Ticks(acts) < CastLength(skill) {
      Timeline(f, skill, acts);
      ScheduleTicks(skill, Ticks(acts));
    }
    if Ticks(acts) < skill.cooldownTicks {
      CooldownRuns(f, skill, acts);
    }
  }

  /** Both clocks of a cast while its caster casts nothing else: they run for good, not only up to
      the end of the cast. */
  lemma {:induction false} ClocksRun(f: Fighter, skill: Skill, acts: seq<Act>)
    requires Fit(f) && BeginResult(f, skill).Success? && forall i :: 0 <= i < |acts| ==> !acts[i].Begin?
    ensures
      var g := AfterActs(Begun(f, skill), acts);
      && g.mp == f.mp - skill.manaCost
      && (g.hp > 0 ==> g.action == Schedule(skill, Ticks(acts)))
      && (skill.id in g.cooldowns <==> Ticks(acts) < skill.cooldownTicks)
      && (skill.id in g.cooldowns ==> g.cooldowns[skill.id] == skill.cooldownTicks - Ticks(acts))
  {
    if acts != [] {
      var init := acts[..|acts| - 1];
      ClocksRun(f, skill, init);
      if acts[|acts| - 1].Tick? && Ticks(init) < CastLength(skill) {
        ScheduleTicks(skill, Ticks(init));
      }
    }
  }

  /** Who casts nothing else can cast the same skill again exactly when alive, with both clocks run
      down and the mana for it, down to the last point. */
  lemma CastAgain(f: Fighter, skill: Skill, acts: seq<Act>)
    requires Fit(f) && BeginResult(f, skill).Success? && forall i :: 0 <= i < |acts| ==> !acts[i].Begin?
    ensures
      var g := AfterActs(Begun(f, skill), acts);
      BeginResult(g, skill).Success? <==>
        && g.hp > 0 && f.mp >= 2 * skill.manaCost as int
        && Ticks(acts) >= CastLength(skill) && Ticks(acts) >= skill.cooldownTicks
  {
    ClocksRun(f, skill, acts);
  }

  ghost function Spent(f: Fighter, acts: seq<Act>): nat
    requires Fit(f)
  {
    if acts == [] then 0
    else
      var before := AfterActs(f, acts[..|acts| - 1]);
      var act := acts[|acts| - 1];
      Spent(f, acts[..|acts| - 1]) +
        (if act.Begin? && BeginResult(before, act.skill).Success? then act.skill.manaCost else 0)
  }

  /** Mana is only ever spent on successful casts. */
  lemma {:induction false} ManaIsConserved(f: Fighter, acts: seq<Act>)
    requires Fit(f)
    ensures AfterActs(f, acts).mp + Spent(f, acts) == f.mp
  {
    if acts != [] {
      ManaIsConserved(f, acts[..|acts| - 1]);
    }
  }

  // ---------------------------------------------------------------- snapshots

  datatype PlayerSnapshot = PlayerSnapshot(
    roomId: RoomId,
    position: Position,
    currentHp: UInt32,
    maxHp: UInt32,
    alive: bool,
    currentMp: UInt32,
    maxMp: UInt32,
    skillId: SkillId,
    phase: Phase,
    remainingTicks: UInt32,
    cooldowns: seq<(SkillId, UInt32)>)

  /** The cooldown list of a snapshot: every entry of the table once, ascending by skill. */
  ghost predicate ListsCooldowns(list: seq<(SkillId, UInt32)>, cooldowns: map<SkillId, UInt32>) {
    && (forall i, j :: 0 <= i < j < |list| ==> list[i].0 < list[j].0)
    && (forall i :: 0 <= i < |list| ==> list[i].0 in cooldowns && cooldowns[list[i].0] == list[i].1)
    && ListedIds(list) == cooldowns.Keys
  }

  ghost function ListedIds(list: seq<(SkillId, UInt32)>): set<SkillId> {
    set i | 0 <= i < |list| :: list[i].0
  }

  lemma ListedIdsAppend(list: seq<(SkillId, UInt32)>, entry: (SkillId, UInt32))
    ensures ListedIds(list + [entry]) == ListedIds(list) + {entry.0}
  {
    var more := list + [entry];
    forall id | id in ListedIds(list) || id == entry.0
      ensures id in ListedIds(more)
    {
      if id == entry.0 {
        assert more[|list|].0 == id;
      } else {
        var i :| 0 <= i < |list| && list[i].0 == id;
        assert more[i].0 == id;
      }
    }
  }

  ghost predicate Depicts(s: PlayerSnapshot, f: Fighter) {
    && s.currentHp == f.hp && s.maxHp == f.maxHp && (s.alive <==> f.hp > 0)
    && s.currentMp == f.mp && s.maxMp == f.maxMp
    && s.skillId == f.action.skillId && s.phase == f.action.phase && s.remainingTicks == f.action.remaining
    && ListsCooldowns(s.cooldowns, f.cooldowns)
  }

  /** What the C# client demands of one player of a snapshot. */
  ghost predicate AcceptedByClient(s: PlayerSnapshot) {
    && s.maxHp > 0 && s.currentHp <= s.maxHp && (s.alive <==> s.currentHp > 0)
    && s.maxMp > 0 && s.currentMp <= s.maxMp
    && (if s.phase.Idle? then s.skillId == 0 && s.remainingTicks == 0 else s.skillId != 0 && s.remainingTicks != 0)
    && (forall i :: 0 <= i < |s.cooldowns| ==> s.cooldowns[i].0 != 0 && s.cooldowns[i].1 != 0)
    && (forall i, j :: 0 <= i < j < |s.cooldowns| ==> s.cooldowns[i].0 != s.cooldowns[j].0)
  }

  /** Producer meets consumer: whatever a new character goes through, every snapshot of it
      passes the client's test. */
  lemma SnapshotsAreAccepted(maxHp: UInt32, maxMp: UInt32, acts: seq<Act>, s: PlayerSnapshot)
    requires maxHp > 0 && maxMp > 0
    requires Depicts(s, AfterActs(NewFighter(maxHp, maxMp), acts))
    ensures AcceptedByClient(s)
  {
    var f := AfterActs(NewFighter(maxHp, maxMp), acts);
    forall i | 0 <= i < |s.cooldowns|
      ensures s.cooldowns[i].0 != 0 && s.cooldowns[i].1 != 0
    {
      assert s.cooldowns[i].0 in f.cooldowns;
    }
  }

  /** The per-player part of TryDecodeSnapshot, with its set of skill ids already seen. */
  method TryDecodePlayer(s: PlayerSnapshot) returns (accepted: bool)
    ensures accepted <==> AcceptedByClient(s)
  {
    if s.maxHp == 0 || s.currentHp > s.maxHp || s.alive != (s.currentHp > 0) ||
       s.maxMp == 0 || s.currentMp > s.maxMp {
      return false;
    }
    if (s.phase.Idle? && (s.skillId != 0 || s.remainingTicks != 0)) ||
       (!s.phase.Idle? && (s.skillId == 0 || s.remainingTicks == 0)) {
      return false;
    }
    var seen: set<SkillId> := {};
    var index := 0;
    while index < |s.cooldowns|
      invariant 0 <= index <= |s.cooldowns|
      invariant forall i :: 0 <= i < index ==>
        s.cooldowns[i].0 != 0 && s.cooldowns[i].1 != 0 && s.cooldowns[i].0 in seen
      invariant forall i, j :: 0 <= i < j < index ==> s.cooldowns[i].0 != s.cooldowns[j].0
      invariant forall id :: id in seen ==> exists i :: 0 <= i < index && s.cooldowns[i].0 == id
    {
      var entry := s.cooldowns[index];
      if entry.0 == 0 || entry.1 == 0 || entry.0 in seen {
        return false;
      }
      seen := seen + {entry.0};
      index := index + 1;
    }
    accepted := true;
  }

  // ---------------------------------------------------------------- the character object

  class DungeonPlayerState {
    var sessionId: SessionId
    var roomId: RoomId
    var position: Position
    var currentHp: UInt32
    const maxHp: UInt32
    var currentMp: UInt32
    const maxMp: UInt32
    var cooldowns: map<SkillId, UInt32>
    var action: Action

    ghost function View(): Fighter reads this {
      Fighter(currentHp, maxHp, currentMp, maxMp, cooldowns, action)
    }

    ghost predicate Valid() reads this {
      Fit(View()) && sessionId != 0 && roomId != 0 && position.z >= 0.0
    }

    constructor (sessionId: SessionId, roomId: RoomId, position: Position, maxMp: UInt32, maxHp: UInt32)
      requires sessionId != 0 && roomId != 0 && position.z >= 0.0 && maxMp != 0 && maxHp != 0
      ensures Valid() && View() == NewFighter(maxHp, maxMp)
      ensures this.sessionId == sessionId && this.roomId == roomId && this.position == position
      ensures currentHp == this.maxHp == maxHp && currentMp == this.maxMp == maxMp
      ensures cooldowns == map[] && action.phase.Idle?
    {
      this.sessionId, this.roomId, this.position := sessionId, roomId, position;
      currentHp, this.maxHp, currentMp, this.maxMp := maxHp, maxHp, maxMp, maxMp;
      cooldowns, action := map[], NO_ACTION;
    }

    /** A new label on the same character. */
    method RebindSession(sessionId: SessionId) returns (ok: bool)
      modifies this`sessionId
      ensures ok <==> sessionId != 0
      ensures this.sessionId == if ok then sessionId else old(this.sessionId)
      ensures old(Valid()) ==> Valid()
    {
      if sessionId == 0 {
        return false;
      }
      this.sessionId := sessionId;
      ok := true;
    }

    method ApplyDamage(damage: UInt32) returns (applied: bool)
      requires Valid()
      modifies this`currentHp, this`action
      ensures Valid() && View() == Harmed(old(View()), damage)
      ensures applied <==> damage > 0 && old(currentHp) > 0
      ensures currentHp == if damage < old(currentHp) then old(currentHp) - damage else 0
      ensures action == if currentHp == 0 then NO_ACTION else old(action)
    {
      if damage == 0 || currentHp == 0 {
        return false;
      }
      currentHp := if damage >= currentHp then 0 else currentHp - damage;
      if currentHp == 0 {
        action := NO_ACTION;
      }
      applied := true;
    }

    method BeginSkill(skill: Skill) returns (result: BeginSkillResult)
      requires Valid()
      modifies this`currentMp, this`cooldowns, this`action
      ensures Valid() && result == BeginResult(old(View()), skill) && View() == Begun(old(View()), skill)
      ensures result.Dead? <==> currentHp == 0
      ensures result.InvalidSkill? <==> currentHp > 0 && (skill.id == 0 || skill.activeTicks == 0)
      ensures result.OnCooldown? ==> skill.id in old(cooldowns)
      ensures result.Busy? ==> skill.id !in old(cooldowns) && !old(action).phase.Idle?
      ensures result.NotEnoughMana? ==>
        skill.id !in old(cooldowns) && old(action).phase.Idle? && old(currentMp) < skill.manaCost
      ensures result.Success? <==>
        && currentHp > 0 && skill.id != 0 && skill.activeTicks > 0 && skill.id !in old(cooldowns)
        && old(action).phase.Idle? && old(currentMp) >= skill.manaCost
      ensures !result.Success? ==> currentMp == old(currentMp) && cooldowns == old(cooldowns) && action == old(action)
      ensures result.Success? ==>
        && currentMp == old(currentMp) - skill.manaCost && action == Schedule(skill, 0)
        && (forall id :: id != skill.id ==> Lookup(cooldowns, id) == Lookup(old(cooldowns), id))
        && Lookup(cooldowns, skill.id) == if skill.cooldownTicks > 0 then Some(skill.cooldownTicks) else None
    {
      if currentHp == 0 {
        return Dead;
      }
      if skill.id == 0 || skill.activeTicks == 0 {
        return InvalidSkill;
      }
      if skill.id in cooldowns {
        return OnCooldown;
      }
      if !action.phase.Idle? {
        return Busy;
      }
      if currentMp < skill.manaCost {
        return NotEnoughMana;
      }
      currentMp := currentMp - skill.manaCost;
      if skill.cooldownTicks > 0 {
        cooldowns := cooldowns[skill.id := skill.cooldownTicks];
      }
      action := action.(skillId := skill.id, active := skill.activeTicks, recovery := skill.recoveryTicks);
      if skill.startupTicks > 0 {
        action := action.(phase := Startup, remaining := skill.startupTicks);
      } else {
        action := action.(phase := Active, remaining := skill.activeTicks);
      }
      result := Success;
    }

    /** The cooldown loop of AdvanceCombatTick. */
    method TickCooldowns()
      requires forall id :: id in cooldowns ==> cooldowns[id] > 0
      modifies this`cooldowns
      ensures cooldowns == CooledDown(old(cooldowns))
    {
      var rest := cooldowns.Keys;
      ghost var before := cooldowns;
      while rest != {}
        invariant rest <= before.Keys
        invariant cooldowns == map id | id in before && (id in rest || before[id] > 1) ::
          if id in rest then before[id] else before[id] - 1
        decreases |rest|
      {
        var id :| id in rest;
        var remaining := cooldowns[id] - 1;
        if remaining == 0 {
          cooldowns := cooldowns - {id};
        } else {
          cooldowns := cooldowns[id := remaining];
        }
        rest := rest - {id};
      }
    }

    method AdvanceCombatTick()
      requires Valid()
      modifies this`cooldowns, this`action
      ensures Valid() && View() == Ticked(old(View()))
    {
      TickCooldowns();
      if action.phase.Idle? {
        return;
      }
      action := action.(remaining := action.remaining - 1);
      if action.remaining > 0 {
        return;
      }
      if action.phase.Startup? {
        action := action.(phase := Active, remaining := action.active);
        return;
      }
      if action.phase.Active? && action.recovery > 0 {
        action := action.(phase := Recovery, remaining := action.recovery);
        return;
      }
      action := NO_ACTION;
    }

    method Snapshot() returns (s: PlayerSnapshot)
      requires Valid()
      ensures Depicts(s, View()) && s.roomId == roomId && s.position == position
    {
      var list := SortedCooldowns(cooldowns);
      s := PlayerSnapshot(roomId, position, currentHp, maxHp, currentHp > 0, currentMp, maxMp,
        action.skillId, action.phase, action.remaining, list);
    }

    /** The table as a list sorted by skill id. */
    static method SortedCooldowns(table: map<SkillId, UInt32>) returns (list: seq<(SkillId, UInt32)>)
      ensures ListsCooldowns(list, table)
    {
      list := [];
      var rest := table.Keys;
      while rest != {}
        invariant ListedBelow(list, table, rest)
        decreases |rest|
      {
        ghost var least := Least(rest);
        var id :| id in rest && forall other :: other in rest ==> id <= other;
        ListNext(list, table, rest, id);
        list := list + [(id, table[id])];
        rest := rest - {id};
      }
    }

    /** All of the table but `rest` is listed, in order, and below everything in `rest`. */
    static ghost predicate ListedBelow(
      list: seq<(SkillId, UInt32)>, table: map<SkillId, UInt32>, rest: set<SkillId>)
    {
      && rest <= table.Keys
      && ListsCooldowns(list, table - rest)
      && (forall i, id :: 0 <= i < |list| && id in rest ==> list[i].0 < id)
    }

    static lemma ListNext(list: seq<(SkillId, UInt32)>, table: map<SkillId, UInt32>, rest: set<SkillId>, id: SkillId)
      requires ListedBelow(list, table, rest)
      requires id in rest && forall other :: other in rest ==> id <= other
      ensures ListedBelow(list + [(id, table[id])], table, rest - {id})
    {
      ListedIdsAppend(list, (id, table[id]));
      assert (table - (rest - {id})).Keys == (table - rest).Keys + {id};
    }

    static lemma Least(ids: set<SkillId>) returns (least: SkillId)
      requires ids != {}
      ensures least in ids && forall other :: other in ids ==> least <= other
      decreases |ids|
    {
      var x :| x in ids;
      var rest := ids - {x};
      least := x;
      if rest != {} {
        var other := Least(rest);
        least := if other < x then other else x;
      }
      forall id | id in ids
        ensures least <= id
      {
        assert id == x || id in rest;
      }
    }

    static function ToMovePlayerResult(result: PositionCheckResult): MovePlayerResult {
      match result
      case Valid => Moved
      case OutsideRoom => LeftRoom
      case BlockedByObstacle => Blocked
    }

    method MoveTo(room: RoomState, nextPosition: Position) returns (result: MovePlayerResult)
      requires Valid() && room.Valid()
      modifies this`position
      ensures Valid()
      ensures result == if currentHp == 0 then MoverDead
                        else if roomId != room.roomTemplate.id then WrongRoom
                        else ToMovePlayerResult(room.PositionResult(nextPosition))
      ensures position == if result.Moved? then nextPosition else old(position)
      ensures result.Moved? ==>
        && currentHp > 0 && roomId == room.roomTemplate.id && position.z >= 0.0
        && 0.0 <= position.x <= room.roomTemplate.width && 0.0 <= position.y <= room.roomTemplate.depth
    {
      if currentHp == 0 {
        return MoverDead;
      }
      if roomId != room.roomTemplate.id {
        return WrongRoom;
      }
      var checkResult := room.CheckPosition(nextPosition);
      if !checkResult.Valid? {
        return ToMovePlayerResult(checkResult);
      }
      position := nextPosition;
      result := Moved;
    }

    method EnterRoom(room: RoomState, spawnPosition: Position) returns (result: MovePlayerResult)
      requires Valid() && room.Valid() && room.roomTemplate.id != 0
      modifies this`position, this`roomId
      ensures Valid()
      ensures result == if currentHp == 0 then MoverDead else ToMovePlayerResult(room.PositionResult(spawnPosition))
      ensures position == if result.Moved? then spawnPosition else old(position)
      ensures roomId == if result.Moved? then room.roomTemplate.id else old(roomId)
      ensures result.Moved? ==>
        && currentHp > 0 && position.z >= 0.0
        && 0.0 <= position.x <= room.roomTemplate.width && 0.0 <= position.y <= room.roomTemplate.depth
    {
      if currentHp == 0 {
        return MoverDead;
      }
      var checkResult := room.CheckPosition(spawnPosition);
      if !checkResult.Valid? {
        return ToMovePlayerResult(checkResult);
      }
      roomId := room.roomTemplate.id;
      position := spawnPosition;
      result := Moved;
    }
  }
}
