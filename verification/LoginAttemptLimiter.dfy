/** The sliding-window login limiter of src/LoginAttemptLimiter.cpp. */
module LoginAttemptLimiters {
  import opened Common

  type History = seq<Time>
  type Attempts = map<string, History>

  datatype Options = Options(
    maxAttemptsPerIp: nat,
    maxAttemptsPerAccount: nat,
    maxConcurrentPasswordJobs: nat,
    maxTrackedIps: nat,
    maxTrackedAccounts: nat,
    attemptWindow: Time)

  predicate IsValid(o: Options) {
    && o.maxAttemptsPerIp > 0 && o.maxAttemptsPerAccount > 0 && o.maxConcurrentPasswordJobs > 0
    && o.maxTrackedIps > 0 && o.maxTrackedAccounts > 0 && o.attemptWindow > 0
  }

  datatype Status = Accepted | RateLimitedByIp | RateLimitedByAccount | BusyTracking | BusyJobs

  datatype Limiter = Limiter(ips: Attempts, accounts: Attempts, jobs: nat, accepted: nat)

  const IDLE := Limiter(map[], map[], 0, 0)

  // ---------------------------------------------------------------- keys

  function IpKey(clientAddress: string): (key: string)
    ensures key != "" && (clientAddress != "" ==> key == clientAddress)
  {
    if clientAddress == [] then "unknown" else clientAddress
  }

  function ToLower(c: char): char {
    if 'A' <= c <= 'Z' then (c as int + 32) as char else c
  }

  /** The account name, case folded. */
  function Folded(loginId: string): string {
    seq(|loginId|, i requires 0 <= i < |loginId| => ToLower(loginId[i]))
  }

  /** The same letter, or the two cases of one ASCII letter. */
  ghost predicate CaseTwins(x: char, y: char) {
    || x == y
    || ('A' <= x <= 'Z' && y as int == x as int + 32)
    || ('A' <= y <= 'Z' && x as int == y as int + 32)
  }

  /** Two spellings share one budget exactly when they differ in the case of ASCII letters only; the
      budget's key is a spelling of its own, without upper-case letters. */
  lemma FoldingMerges(a: string, b: string)
    ensures Folded(a) == Folded(b) <==> |a| == |b| && forall i :: 0 <= i < |a| ==> CaseTwins(a[i], b[i])
    ensures |Folded(a)| == |a| && forall i :: 0 <= i < |a| ==>
      CaseTwins(a[i], Folded(a)[i]) && !('A' <= Folded(a)[i] <= 'Z')
  {
    forall i | 0 <= i < |a| && |a| == |b|
      ensures CaseTwins(a[i], b[i]) <==> Folded(a)[i] == Folded(b)[i]
    {
      TwinsFoldAlike(a[i], b[i]);
    }
    if |a| == |b| && (forall i :: 0 <= i < |a| ==> CaseTwins(a[i], b[i])) {
      assert Folded(a) == Folded(b);
    }
  }

  lemma TwinsFoldAlike(x: char, y: char)
    ensures CaseTwins(x, y) <==> ToLower(x) == ToLower(y)
  {
  }

  // ---------------------------------------------------------------- the attempt histories

  function HistoryOf(attempts: Attempts, key: string): History {
    if key in attempts then attempts[key] else []
  }

  /** Without the attempts at the front that are no younger than the cutoff. */
  function Pruned(h: History, cutoff: Time): History {
    if h != [] && h[0] <= cutoff then Pruned(h[1..], cutoff) else h
  }

  /** FindAndPrune: one key's history; an empty one is forgotten. */
  function KeyPruned(attempts: Attempts, key: string, cutoff: Time): Attempts {
    if key !in attempts then attempts
    else if Pruned(attempts[key], cutoff) == [] then attempts - {key}
    else attempts[key := Pruned(attempts[key], cutoff)]
  }

  function AllPruned(attempts: Attempts, cutoff: Time): Attempts {
    map key | key in attempts && Pruned(attempts[key], cutoff) != [] :: Pruned(attempts[key], cutoff)
  }

  /** What making room for a key leaves: everybody's history is pruned when the table is full. */
  function RoomMade(attempts: Attempts, key: string, cap: nat, cutoff: Time): Attempts {
    if key !in attempts && |attempts| >= cap then AllPruned(attempts, cutoff) else attempts
  }

  predicate NoRoom(attempts: Attempts, key: string, cap: nat) {
    key !in attempts && |attempts| >= cap
  }

  function Pushed(attempts: Attempts, key: string, now: Time): Attempts {
    attempts[key := HistoryOf(attempts, key) + [now]]
  }

  // ---------------------------------------------------------------- one attempt

  /** The two rate checks. */
  function Checked(l: Limiter, o: Options, ip: string, account: string, cutoff: Time): (Limiter, Option<Status>) {
    var ips := KeyPruned(l.ips, ip, cutoff);
    if |HistoryOf(ips, ip)| >= o.maxAttemptsPerIp then (l.(ips := ips), Some(RateLimitedByIp))
    else
      var accounts := KeyPruned(l.accounts, account, cutoff);
      (l.(ips := ips, accounts := accounts),
       if |HistoryOf(accounts, account)| >= o.maxAttemptsPerAccount then Some(RateLimitedByAccount) else None)
  }

  /** Room in the tables, a free job, and the attempt is noted. */
  function Admitted(l: Limiter, o: Options, ip: string, account: string, now: Time): (Limiter, Status) {
    var cutoff := now - o.attemptWindow;
    var ips := RoomMade(l.ips, ip, o.maxTrackedIps, cutoff);
    var accounts := RoomMade(l.accounts, account, o.maxTrackedAccounts, cutoff);
    if NoRoom(ips, ip, o.maxTrackedIps) || NoRoom(accounts, account, o.maxTrackedAccounts)
    then (l.(ips := ips, accounts := accounts), BusyTracking)
    else if l.jobs >= o.maxConcurrentPasswordJobs then (l.(ips := ips, accounts := accounts), BusyJobs)
    else (Limiter(Pushed(ips, ip, now), Pushed(accounts, account, now), l.jobs + 1, l.accepted + 1), Accepted)
  }

  function Acquire(l: Limiter, o: Options, ip: string, account: string, now: Time): (Limiter, Status) {
    var (checked, refusal) := Checked(l, o, ip, account, now - o.attemptWindow);
    if refusal.Some? then (checked, refusal.value) else Admitted(checked, o, ip, account, now)
  }

  lemma OnlyAcceptedCount(l: Limiter, o: Options, ip: string, account: string, now: Time)
    ensures
      var (l', status) := Acquire(l, o, ip, account, now);
      var more := if status.Accepted? then 1 else 0;
      l'.accepted == l.accepted + more && l'.jobs == l.jobs + more
  {
  }

  function Released(l: Limiter): Limiter {
    if l.jobs > 0 then l.(jobs := l.jobs - 1) else l
  }

  // ---------------------------------------------------------------- the verdict by recent attempts

  /** The attempts of a history that still count: from its first one after the cutoff on. */
  ghost predicate Counting(h: History, cutoff: Time, recent: History) {
    && |recent| <= |h| && recent == h[|h| - |recent|..]
    && (forall i :: 0 <= i < |h| - |recent| ==> h[i] <= cutoff)
    && (recent != [] ==> recent[0] > cutoff)
  }

  /** The keys with an attempt after the cutoff. */
  ghost function Busy(attempts: Attempts, cutoff: Time): set<string> {
    set key | key in attempts && exists i :: 0 <= i < |attempts[key]| && attempts[key][i] > cutoff
  }

  lemma {:induction false} PrunedIsCounting(h: History, cutoff: Time)
    ensures Counting(h, cutoff, Pruned(h, cutoff))
    decreases |h|
  {
    if h != [] && h[0] <= cutoff {
      PrunedIsCounting(h[1..], cutoff);
      var rest := Pruned(h[1..], cutoff);
      assert rest == h[|h| - |rest|..];
    }
  }

  /** Where the attempts that count begin is settled by the history. */
  lemma CountingIsUnique(h: History, cutoff: Time, a: History, b: History)
    requires Counting(h, cutoff, a) && Counting(h, cutoff, b)
    ensures a == b
  {
    assert a != [] ==> a[0] == h[|h| - |a|];
    assert b != [] ==> b[0] == h[|h| - |b|];
  }

  lemma CountingIsRecent(h: History, cutoff: Time, recent: History)
    requires Counting(h, cutoff, recent)
    ensures recent != [] <==> exists i :: 0 <= i < |h| && h[i] > cutoff
  {
    if recent != [] {
      assert recent[0] == h[|h| - |recent|];
    }
  }

  lemma PrunedCounts(h: History, cutoff: Time)
    ensures Counting(h, cutoff, Pruned(h, cutoff))
    ensures forall recent :: Counting(h, cutoff, recent) ==> recent == Pruned(h, cutoff)
    ensures Pruned(h, cutoff) != [] <==> exists i :: 0 <= i < |h| && h[i] > cutoff
  {
    hide Pruned, Counting;
    PrunedIsCounting(h, cutoff);
    CountingIsRecent(h, cutoff, Pruned(h, cutoff));
    forall recent | Counting(h, cutoff, recent)
      ensures recent == Pruned(h, cutoff)
    {
      CountingIsUnique(h, cutoff, recent, Pruned(h, cutoff));
    }
  }

  lemma BusyAreLeft(attempts: Attempts, cutoff: Time)
    ensures AllPruned(attempts, cutoff).Keys == Busy(attempts, cutoff)
  {
    hide Pruned;
    forall key | key in attempts {
      PrunedCounts(attempts[key], cutoff);
    }
  }

  lemma FewerBusy(attempts: Attempts, key: string, cutoff: Time)
    ensures Busy(KeyPruned(attempts, key, cutoff), cutoff) == Busy(attempts, cutoff)
  {
    hide Pruned;
    if key in attempts {
      PrunedCounts(attempts[key], cutoff);
      var h, rest := attempts[key], Pruned(attempts[key], cutoff);
      forall i | 0 <= i < |rest| && rest[i] > cutoff
        ensures h[|h| - |rest| + i] > cutoff
      {
      }
      if exists i :: 0 <= i < |h| && h[i] > cutoff {
        assert rest[0] > cutoff;
      }
    }
  }

  /** A table has no room for a key exactly if the key has no recent attempt and as many others as
      the table may hold have one. */
  lemma NoRoomMeansBusy(attempts: Attempts, key: string, cap: nat, cutoff: Time)
    requires |attempts| <= cap
    ensures
      var table := RoomMade(KeyPruned(attempts, key, cutoff), key, cap, cutoff);
      NoRoom(table, key, cap) <==> key !in Busy(attempts, cutoff) && |Busy(attempts, cutoff)| >= cap
  {
    hide Pruned, AllPruned, Busy;
    var pruned := KeyPruned(attempts, key, cutoff);
    KeyIsBusy(attempts, key, cutoff);
    FewerBusy(attempts, key, cutoff);
    BusyAreLeft(pruned, cutoff);
    MapSize(AllPruned(pruned, cutoff));
    BusyAreKeys(pruned, cutoff);
  }

  lemma KeyIsBusy(attempts: Attempts, key: string, cutoff: Time)
    ensures key in KeyPruned(attempts, key, cutoff) <==> key in Busy(attempts, cutoff)
  {
    hide Pruned;
    if key in attempts {
      PrunedCounts(attempts[key], cutoff);
    }
  }

  lemma BusyAreKeys(attempts: Attempts, cutoff: Time)
    ensures Busy(attempts, cutoff) <= attempts.Keys && |Busy(attempts, cutoff)| <= |attempts|
  {
    MapSize(attempts);
    SameSizeSubset(Busy(attempts, cutoff), attempts.Keys);
  }

  /** The verdict on an attempt by what still counts: too many from the address, too many for the
      account, a table full of others with recent attempts, too many jobs, in this order; and
      nothing else is ever refused. What is accepted is added to what counts, and to nothing else. */
  lemma VerdictByRecentAttempts(
    l: Limiter, o: Options, ip: string, account: string, now: Time, byIp: History, byAccount: History)
    requires |l.ips| <= o.maxTrackedIps && |l.accounts| <= o.maxTrackedAccounts
    requires Counting(HistoryOf(l.ips, ip), now - o.attemptWindow, byIp)
    requires Counting(HistoryOf(l.accounts, account), now - o.attemptWindow, byAccount)
    ensures
      var (l', status) := Acquire(l, o, ip, account, now);
      var cutoff := now - o.attemptWindow;
      var full :=
        || (byIp == [] && |Busy(l.ips, cutoff)| >= o.maxTrackedIps)
        || (byAccount == [] && |Busy(l.accounts, cutoff)| >= o.maxTrackedAccounts);
      && (status.RateLimitedByIp? <==> |byIp| >= o.maxAttemptsPerIp)
      && (status.RateLimitedByAccount? <==> |byIp| < o.maxAttemptsPerIp && |byAccount| >= o.maxAttemptsPerAccount)
      && (status.BusyTracking? <==>
            |byIp| < o.maxAttemptsPerIp && |byAccount| < o.maxAttemptsPerAccount && full)
      && (status.Accepted? <==>
            && |byIp| < o.maxAttemptsPerIp && |byAccount| < o.maxAttemptsPerAccount && !full
            && l.jobs < o.maxConcurrentPasswordJobs)
      && (status.Accepted? ==>
            && HistoryOf(l'.ips, ip) == byIp + [now] && HistoryOf(l'.accounts, account) == byAccount + [now]
            && l'.jobs == l.jobs + 1 && l'.accepted == l.accepted + 1)
      && (!status.Accepted? ==> l'.jobs == l.jobs && l'.accepted == l.accepted)
  {
    hide Pruned, KeyPruned, RoomMade, NoRoom, Counting, Busy;
    var cutoff := now - o.attemptWindow;
    PrunedCounts(HistoryOf(l.ips, ip), cutoff);
    PrunedCounts(HistoryOf(l.accounts, account), cutoff);
    KeyPrunedSize(l.ips, ip, cutoff, []);
    KeyPrunedSize(l.accounts, account, cutoff, []);
    NoRoomMeansBusy(l.ips, ip, o.maxTrackedIps, cutoff);
    NoRoomMeansBusy(l.accounts, account, o.maxTrackedAccounts, cutoff);
    RecentIsBusy(l.ips, ip, cutoff, byIp);
    RecentIsBusy(l.accounts, account, cutoff, byAccount);
    RoomMadeHistory(KeyPruned(l.ips, ip, cutoff), ip, o.maxTrackedIps, cutoff);
    RoomMadeHistory(KeyPruned(l.accounts, account, cutoff), account, o.maxTrackedAccounts, cutoff);
  }

  lemma RecentIsBusy(attempts: Attempts, key: string, cutoff: Time, recent: History)
    requires Counting(HistoryOf(attempts, key), cutoff, recent)
    ensures recent != [] <==> key in Busy(attempts, cutoff)
  {
    hide Pruned;
    PrunedCounts(HistoryOf(attempts, key), cutoff);
  }

  lemma RoomMadeHistory(attempts: Attempts, key: string, cap: nat, cutoff: Time)
    ensures HistoryOf(RoomMade(attempts, key, cap, cutoff), key) == HistoryOf(attempts, key)
  {
    hide Pruned;
  }

  // ---------------------------------------------------------------- runs

  datatype Op = Attempt(clientAddress: string, loginId: string, now: Time) | Release

  /** The limiter with the log of everything it ever accepted, per key. */
  datatype Book = Book(l: Limiter, ipLog: Attempts, accountLog: Attempts, last: Time, released: nat)

  /** The clock is read before the lock is taken, so a call can be overtaken: no reading lies more
      than `skew` behind an earlier one. Every permit is released at most once. */
  predicate Possible(b: Book, skew: Time, op: Op) {
    match op
    case Attempt(_, _, now) => now >= b.last - skew
    case Release => b.released < b.l.accepted
  }

  function Later(last: Time, now: Time): Time {
    if now > last then now else last
  }

  function Step(b: Book, o: Options, op: Op): Book {
    match op
    case Attempt(clientAddress, loginId, now) =>
      var ip, account := IpKey(clientAddress), Folded(loginId);
      var (l, status) := Acquire(b.l, o, ip, account, now);
      if status.Accepted?
      then Book(l, Pushed(b.ipLog, ip, now), Pushed(b.accountLog, account, now), Later(b.last, now), b.released)
      else b.(l := l, last := Later(b.last, now))
    case Release => b.(l := Released(b.l), released := b.released + 1)
  }

  ghost function After(o: Options, skew: Time, start: Time, ops: seq<Op>): Option<Book> {
    if ops == [] then Some(Book(IDLE, map[], map[], start, 0))
    else
      var before := After(o, skew, start, ops[..|ops| - 1]);
      if before.Some? && Possible(before.value, skew, ops[|ops| - 1])
      then Some(Step(before.value, o, ops[|ops| - 1])) else None
  }

  /** At most `max` attempts in `window`, on clock readings `skew` apart. */
  datatype Rule = Rule(max: nat, window: Time, skew: Time)

  function IpRule(o: Options, skew: Time): Rule {
    Rule(o.maxAttemptsPerIp, o.attemptWindow, skew)
  }

  function AccountRule(o: Options, skew: Time): Rule {
    Rule(o.maxAttemptsPerAccount, o.attemptWindow, skew)
  }

  /** Attempts with at least max - 1 others between them are the window, less the skew, apart. */
  predicate Spaced(log: History, max: nat, gap: Time) {
    forall i, j :: 0 <= i && i + max <= j < |log| ==> log[j] - log[i] >= gap
  }

  /** A history is the recent end of its log; what it has forgotten is out of the window. */
  ghost predicate Fits(h: History, log: History, r: Rule, last: Time) {
    && |h| <= |log| && |h| <= r.max && h == log[|log| - |h|..]
    && Spaced(log, r.max, r.window - r.skew)
    && (forall i :: 0 <= i < |log| - |h| ==> log[i] <= last - r.window)
  }

  ghost predicate AllFit(attempts: Attempts, log: Attempts, r: Rule, last: Time) {
    forall key :: Fits(HistoryOf(attempts, key), HistoryOf(log, key), r, last)
  }

  ghost predicate Invariant(b: Book, o: Options, skew: Time) {
    && AllFit(b.l.ips, b.ipLog, IpRule(o, skew), b.last)
    && AllFit(b.l.accounts, b.accountLog, AccountRule(o, skew), b.last)
    && |b.l.ips| <= o.maxTrackedIps && |b.l.accounts| <= o.maxTrackedAccounts
    && b.l.accepted == b.released + b.l.jobs && b.l.jobs <= o.maxConcurrentPasswordJobs
  }

  lemma {:induction false} PrunedFits(h: History, log: History, r: Rule, last: Time, now: Time)
    requires Fits(h, log, r, last)
    ensures Fits(Pruned(h, now - r.window), log, r, Later(last, now))
    decreases |h|
  {
    if h != [] && h[0] <= now - r.window {
      assert h[1..] == log[|log| - |h[1..]|..];
      assert log[|log| - |h|] == h[0];
      PrunedFits(h[1..], log, r, Later(last, now), now);
    }
  }

  lemma PushedFits(h: History, log: History, r: Rule, last: Time, now: Time)
    requires Fits(h, log, r, last) && |h| < r.max && now >= last - r.skew
    ensures Fits(h + [now], log + [now], r, last)
  {
    var longer := log + [now];
    assert longer[|longer| - |h + [now]|..] == h + [now];
    forall i, j | 0 <= i && i + r.max <= j < |longer|
      ensures longer[j] - longer[i] >= r.window - r.skew
    {
      if j == |log| {
        assert log[i] <= last - r.window;
      } else {
        assert log[j] - log[i] >= r.window - r.skew;
      }
    }
  }

  lemma KeyPrunedFits(attempts: Attempts, log: Attempts, key: string, r: Rule, last: Time, now: Time)
    requires AllFit(attempts, log, r, last)
    ensures AllFit(KeyPruned(attempts, key, now - r.window), log, r, Later(last, now))
    ensures |KeyPruned(attempts, key, now - r.window)| <= |attempts|
  {
    hide Fits, Pruned;
    PrunedFits(HistoryOf(attempts, key), HistoryOf(log, key), r, last, now);
    KeyPrunedSize(attempts, key, now - r.window, []);
    forall k
      ensures Fits(HistoryOf(KeyPruned(attempts, key, now - r.window), k), HistoryOf(log, k), r, Later(last, now))
    {
      assert Fits(HistoryOf(attempts, k), HistoryOf(log, k), r, last);
      OneLaterFits(HistoryOf(attempts, k), HistoryOf(log, k), r, last, Later(last, now));
    }
  }

  lemma OneLaterFits(h: History, log: History, r: Rule, last: Time, later: Time)
    requires Fits(h, log, r, last) && later >= last
    ensures Fits(h, log, r, later)
  {
  }

  lemma RoomMadeFits(attempts: Attempts, log: Attempts, key: string, cap: nat, r: Rule, last: Time, now: Time)
    requires AllFit(attempts, log, r, last) && now <= last
    ensures AllFit(RoomMade(attempts, key, cap, now - r.window), log, r, last)
    ensures |RoomMade(attempts, key, cap, now - r.window)| <= |attempts|
    ensures HistoryOf(RoomMade(attempts, key, cap, now - r.window), key) == HistoryOf(attempts, key)
  {
    hide AllFit, Pruned, AllPruned;
    AllPrunedFits(attempts, log, r, last, now);
    AllPrunedSize(attempts, now - r.window);
    AllPrunedHistory(attempts, now - r.window, key);
  }

  lemma AllPrunedHistory(attempts: Attempts, cutoff: Time, key: string)
    ensures HistoryOf(AllPruned(attempts, cutoff), key) == Pruned(HistoryOf(attempts, key), cutoff)
    ensures key !in attempts ==> HistoryOf(AllPruned(attempts, cutoff), key) == []
  {
  }

  lemma AllPrunedFits(attempts: Attempts, log: Attempts, r: Rule, last: Time, now: Time)
    requires AllFit(attempts, log, r, last) && now <= last
    ensures AllFit(AllPruned(attempts, now - r.window), log, r, last)
  {
    hide Fits, Pruned, AllPruned, HistoryOf;
    forall k
      ensures Fits(HistoryOf(AllPruned(attempts, now - r.window), k), HistoryOf(log, k), r, last)
    {
      assert Fits(HistoryOf(attempts, k), HistoryOf(log, k), r, last);
      AllPrunedHistory(attempts, now - r.window, k);
      PrunedFits(HistoryOf(attempts, k), HistoryOf(log, k), r, last, now);
    }
  }

  lemma AllPrunedSize(attempts: Attempts, cutoff: Time)
    ensures |AllPruned(attempts, cutoff)| <= |attempts|
  {
    hide Pruned;
    var pruned := AllPruned(attempts, cutoff);
    MapSize(attempts);
    MapSize(pruned);
    SameSizeSubset(pruned.Keys, attempts.Keys);
  }

  lemma PushedAllFits(attempts: Attempts, log: Attempts, key: string, cap: nat, r: Rule, last: Time, now: Time)
    requires AllFit(attempts, log, r, last) && |attempts| <= cap && now >= last - r.skew
    requires |HistoryOf(attempts, key)| < r.max && !NoRoom(attempts, key, cap)
    ensures AllFit(Pushed(attempts, key, now), Pushed(log, key, now), r, last)
    ensures |Pushed(attempts, key, now)| <= cap
  {
    forall k
      ensures Fits(HistoryOf(Pushed(attempts, key, now), k), HistoryOf(Pushed(log, key, now), k), r, last)
    {
      assert Fits(HistoryOf(attempts, k), HistoryOf(log, k), r, last);
      if k == key {
        PushedFits(HistoryOf(attempts, key), HistoryOf(log, key), r, last, now);
      }
    }
    MapSize(attempts);
    MapSize(Pushed(attempts, key, now));
    assert Pushed(attempts, key, now).Keys == attempts.Keys + {key};
  }

  lemma StepKeeps(b: Book, o: Options, skew: Time, op: Op)
    requires IsValid(o) && skew >= 0 && Invariant(b, o, skew) && Possible(b, skew, op)
    ensures Invariant(Step(b, o, op), o, skew)
  {
    hide AllFit, KeyPruned, RoomMade, Pushed, Folded;
    match op
    case Release =>
    case Attempt(clientAddress, loginId, now) =>
      var ip, account, cutoff := IpKey(clientAddress), Folded(loginId), now - o.attemptWindow;
      var ipRule, accountRule, last := IpRule(o, skew), AccountRule(o, skew), Later(b.last, now);
      KeyPrunedFits(b.l.ips, b.ipLog, ip, ipRule, b.last, now);
      KeyPrunedFits(b.l.accounts, b.accountLog, account, accountRule, b.last, now);
      LaterFits(b.l.accounts, b.accountLog, accountRule, b.last, last);
      var ips, accounts := KeyPruned(b.l.ips, ip, cutoff), KeyPruned(b.l.accounts, account, cutoff);
      RoomMadeFits(ips, b.ipLog, ip, o.maxTrackedIps, ipRule, last, now);
      RoomMadeFits(accounts, b.accountLog, account, o.maxTrackedAccounts, accountRule, last, now);
      var (l, status) := Acquire(b.l, o, ip, account, now);
      if status.Accepted? {
        PushedAllFits(RoomMade(ips, ip, o.maxTrackedIps, cutoff), b.ipLog, ip, o.maxTrackedIps, ipRule, last, now);
        PushedAllFits(RoomMade(accounts, account, o.maxTrackedAccounts, cutoff), b.accountLog, account,
                      o.maxTrackedAccounts, accountRule, last, now);
      }
  }

  lemma LaterFits(attempts: Attempts, log: Attempts, r: Rule, last: Time, later: Time)
    requires AllFit(attempts, log, r, last) && later >= last
    ensures AllFit(attempts, log, r, later)
  {
    forall k
      ensures Fits(HistoryOf(attempts, k), HistoryOf(log, k), r, later)
    {
      assert Fits(HistoryOf(attempts, k), HistoryOf(log, k), r, last);
    }
  }

  lemma {:induction false} EveryRunFits(o: Options, skew: Time, start: Time, ops: seq<Op>)
    requires IsValid(o) && skew >= 0 && After(o, skew, start, ops).Some?
    ensures Invariant(After(o, skew, start, ops).value, o, skew)
  {
    if ops != [] {
      EveryRunFits(o, skew, start, ops[..|ops| - 1]);
      StepKeeps(After(o, skew, start, ops[..|ops| - 1]).value, o, skew, ops[|ops| - 1]);
    }
  }

  // ---------------------------------------------------------------- the bound

  function CountIn(log: History, from: Time, to: Time): nat {
    if log == [] then 0
    else CountIn(log[..|log| - 1], from, to) + if from <= log[|log| - 1] < to then 1 else 0
  }

  lemma {:induction false} CountAtMost(log: History, n: nat, from: Time, to: Time)
    requires n <= |log| && forall i :: 0 <= i < |log| - n ==> log[i] < from
    ensures CountIn(log, from, to) <= n
  {
    if log != [] {
      CountAtMost(log[..|log| - 1], if n == 0 then 0 else n - 1, from, to);
    }
  }

  lemma {:induction false} SpacedMeansBounded(log: History, max: nat, gap: Time, from: Time)
    requires Spaced(log, max, gap)
    ensures CountIn(log, from, from + gap) <= max
  {
    if |log| <= max {
      CountAtMost(log, |log|, from, from + gap);
    } else {
      var last := log[|log| - 1];
      if from <= last < from + gap {
        assert forall i :: 0 <= i < |log| - max ==> log[|log| - 1] - log[i] >= gap;
        CountAtMost(log, max, from, from + gap);
      } else {
        SpacedMeansBounded(log[..|log| - 1], max, gap, from);
      }
    }
  }

  /** In every run, every window of the configured length, less the skew of the clock readings,
      wherever it starts, holds at most the configured number of accepted attempts per address and
      per case-folded account; in clock order that is the whole window. The tables never outgrow
      their caps; and the accepted attempts are the released ones and the running ones, of which
      there are never too many. */
  lemma NoWindowOverflows(o: Options, skew: Time, start: Time, ops: seq<Op>, key: string, from: Time)
    requires IsValid(o) && skew >= 0 && After(o, skew, start, ops).Some?
    ensures
      var b := After(o, skew, start, ops).value;
      && CountIn(HistoryOf(b.ipLog, key), from, from + o.attemptWindow - skew) <= o.maxAttemptsPerIp
      && CountIn(HistoryOf(b.accountLog, key), from, from + o.attemptWindow - skew) <= o.maxAttemptsPerAccount
      && |b.l.ips| <= o.maxTrackedIps && |b.l.accounts| <= o.maxTrackedAccounts
      && b.l.accepted == b.released + b.l.jobs <= b.released + o.maxConcurrentPasswordJobs
  {
    hide After, AllFit, CountIn, IsValid;
    EveryRunFits(o, skew, start, ops);
    var b := After(o, skew, start, ops).value;
    FitMeansBounded(b.l.ips, b.ipLog, IpRule(o, skew), b.last, key, from);
    FitMeansBounded(b.l.accounts, b.accountLog, AccountRule(o, skew), b.last, key, from);
  }

  lemma FitMeansBounded(attempts: Attempts, log: Attempts, r: Rule, last: Time, key: string, from: Time)
    requires AllFit(attempts, log, r, last)
    ensures CountIn(HistoryOf(log, key), from, from + r.window - r.skew) <= r.max
  {
    assert Fits(HistoryOf(attempts, key), HistoryOf(log, key), r, last);
    SpacedMeansBounded(HistoryOf(log, key), r.max, r.window - r.skew, from);
  }

  /** Two attempts allowed in a window, and everything else in plenty. */
  function TwoPer(window: Time): Options {
    Options(2, 9, 9, 9, 9, window)
  }

  /** Four attempts of different accounts from one address; the last call was overtaken. */
  function Overtaken(ip: string, names: seq<string>, window: Time, skew: Time): seq<Op>
    requires |names| == 4
  {
    [Attempt(ip, names[0], 0), Attempt(ip, names[1], 0), Attempt(ip, names[2], window), Attempt(ip, names[3], window - skew)]
  }

  /** The bound is tight: whatever the skew, up to the whole window, there is a run with it in which
      a window longer by one than the bound says holds one attempt too many. */
  lemma ClockOrderMatters(ip: string, names: seq<string>, window: Time, skew: Time)
    requires 1 <= skew <= window && ip != ""
    requires |names| == 4 && forall i, j :: 0 <= i < j < 4 ==> Folded(names[i]) != Folded(names[j])
    ensures
      var end := After(TwoPer(window), skew, 0, Overtaken(ip, names, window, skew));
      end.Some? && CountIn(HistoryOf(end.value.ipLog, ip), 0, window - skew + 1) == TwoPer(window).maxAttemptsPerIp + 1
  {
    hide Step, Folded, CountIn;
    var ops, o := Overtaken(ip, names, window, skew), TwoPer(window);
    var b0 := Book(IDLE, map[], map[], 0, 0);
    var b1 := Step(b0, o, ops[0]);
    var b2 := Step(b1, o, ops[1]);
    var b3 := Step(b2, o, ops[2]);
    var b4 := Step(b3, o, ops[3]);
    FirstTwo(b0, ip, names, window);
    LastTwo(b2, ip, names, window, skew);
    ThreeInOneWindow(window, skew);
    assert ops[..4] == ops && ops[..3][..2] == ops[..2] && ops[..2][..1] == ops[..1] && ops[..1][..0] == [];
    assert After(o, skew, 0, ops[..1]) == Some(b1);
    assert After(o, skew, 0, ops[..2]) == Some(b2);
    assert ops[..4][..3] == ops[..3] && After(o, skew, 0, ops[..3]) == Some(b3);
  }

  lemma FirstTwo(b: Book, ip: string, names: seq<string>, window: Time)
    requires b == Book(IDLE, map[], map[], 0, 0) && window >= 1 && ip != ""
    requires |names| == 4 && Folded(names[0]) != Folded(names[1])
    ensures
      var b1 := Step(b, TwoPer(window), Attempt(ip, names[0], 0));
      var b2 := Step(b1, TwoPer(window), Attempt(ip, names[1], 0));
      && b1.last == b2.last == 0 && b2.l.jobs == 2 && |b2.l.ips| <= 2 && |b2.l.accounts| <= 2
      && b2.l.ips == map[ip := [0, 0]] && b2.l.accounts == map[Folded(names[0]) := [0], Folded(names[1]) := [0]]
      && b2.ipLog == map[ip := [0, 0]]
  {
    hide Step, Folded;
    var u, v, none: History := Folded(names[0]), Folded(names[1]), [];
    assert none + [0] == [0] && [0] + [0] == [0, 0];
    StepAccepted(b, TwoPer(window), ip, names[0], 0);
    var b1 := Step(b, TwoPer(window), Attempt(ip, names[0], 0));
    assert b1.l.ips == map[ip := [0]] && b1.l.accounts == map[u := [0]] && b1.ipLog == map[ip := [0]];
    assert Pruned([0], 0 - window) == [0] && HistoryOf(b1.l.accounts, v) == none;
    StepAccepted(b1, TwoPer(window), ip, names[1], 0);
  }

  lemma LastTwo(b: Book, ip: string, names: seq<string>, window: Time, skew: Time)
    requires 1 <= skew <= window && ip != "" && b.last == 0 && b.l.jobs == 2
    requires |names| == 4 && forall i, j :: 0 <= i < j < 4 ==> Folded(names[i]) != Folded(names[j])
    requires b.l.ips == map[ip := [0, 0]] && b.l.accounts.Keys == {Folded(names[0]), Folded(names[1])}
    requires |b.l.ips| <= 2 && |b.l.accounts| <= 2
    requires b.ipLog == map[ip := [0, 0]]
    ensures
      var b3 := Step(b, TwoPer(window), Attempt(ip, names[2], window));
      var b4 := Step(b3, TwoPer(window), Attempt(ip, names[3], window - skew));
      b3.last == window && b4.ipLog == map[ip := [0, 0, window, window - skew]]
  {
    hide Step, Folded;
    Third(b, ip, names[2], window);
    var b3 := Step(b, TwoPer(window), Attempt(ip, names[2], window));
    assert Folded(names[3]) !in b3.l.accounts;
    Fourth(b3, ip, names[3], window, skew);
  }

  lemma Third(b: Book, ip: string, name: string, window: Time)
    requires window >= 1 && ip != "" && b.last == 0 && b.l.jobs == 2
    requires b.l.ips == map[ip := [0, 0]] && |b.l.ips| <= 2 && |b.l.accounts| <= 2 && Folded(name) !in b.l.accounts
    requires b.ipLog == map[ip := [0, 0]]
    ensures
      var b3 := Step(b, TwoPer(window), Attempt(ip, name, window));
      && b3.last == window && b3.l.jobs == 3 && b3.l.ips == map[ip := [window]]
      && b3.l.accounts.Keys == b.l.accounts.Keys + {Folded(name)} && |b3.l.ips| <= 3 && |b3.l.accounts| <= 3
      && b3.ipLog == map[ip := [0, 0, window]]
  {
    hide Step, Folded, Pruned;
    var none: History := [];
    BothPruned();
    NothingPruned(window - window);
    assert none + [window] == [window] && [0, 0] + [window] == [0, 0, window];
    StepAccepted(b, TwoPer(window), ip, name, window);
    Overwritten(ip, [0, 0], [window]);
    Overwritten(ip, [0, 0], [0, 0, window]);
  }

  lemma Overwritten(key: string, before: History, after: History)
    ensures map[key := before][key := after] == map[key := after]
  {
  }

  lemma BothPruned()
    ensures Pruned([0, 0], 0) == []
  {
    assert [0, 0][1..] == [0] && [0][1..] == [] && Pruned([0], 0) == [];
  }

  lemma NothingPruned(cutoff: Time)
    ensures Pruned([], cutoff) == []
  {
  }

  lemma Fourth(b: Book, ip: string, name: string, window: Time, skew: Time)
    requires 1 <= skew <= window && ip != "" && b.last == window && b.l.jobs == 3
    requires b.l.ips == map[ip := [window]] && |b.l.ips| <= 3 && |b.l.accounts| <= 3 && Folded(name) !in b.l.accounts
    requires b.ipLog == map[ip := [0, 0, window]]
    ensures Step(b, TwoPer(window), Attempt(ip, name, window - skew)).ipLog == map[ip := [0, 0, window, window - skew]]
  {
    hide Step, Folded;
    assert Pruned([window], window - skew - window) == [window];
    StepAccepted(b, TwoPer(window), ip, name, window - skew);
    assert [0, 0, window] + [window - skew] == [0, 0, window, window - skew];
    Overwritten(ip, [0, 0, window], [0, 0, window, window - skew]);
  }

  /** An attempt that nothing stands against, with its log. */
  lemma StepAccepted(b: Book, o: Options, ip: string, name: string, now: Time)
    requires ip != ""
    requires |Pruned(HistoryOf(b.l.ips, ip), now - o.attemptWindow)| < o.maxAttemptsPerIp
    requires |Pruned(HistoryOf(b.l.accounts, Folded(name)), now - o.attemptWindow)| < o.maxAttemptsPerAccount
    requires |b.l.ips| < o.maxTrackedIps && |b.l.accounts| < o.maxTrackedAccounts && b.l.jobs < o.maxConcurrentPasswordJobs
    ensures
      var account := Folded(name);
      var b' := Step(b, o, Attempt(ip, name, now));
      && b'.l.ips == b.l.ips[ip := Pruned(HistoryOf(b.l.ips, ip), now - o.attemptWindow) + [now]]
      && b'.l.accounts == b.l.accounts[account := Pruned(HistoryOf(b.l.accounts, account), now - o.attemptWindow) + [now]]
      && b'.l.jobs == b.l.jobs + 1
      && b'.ipLog == Pushed(b.ipLog, ip, now) && b'.last == Later(b.last, now)
      && |b'.l.ips| <= |b.l.ips| + 1 && |b'.l.accounts| <= |b.l.accounts| + 1
  {
    hide Pruned, Acquire, Folded;
    OneMoreKey(b.l.ips, ip, Pruned(HistoryOf(b.l.ips, ip), now - o.attemptWindow) + [now]);
    OneMoreKey(b.l.accounts, Folded(name), Pruned(HistoryOf(b.l.accounts, Folded(name)), now - o.attemptWindow) + [now]);
    AcquireWithRoom(b.l, o, ip, Folded(name), now);
  }

  lemma OneMoreKey(attempts: Attempts, key: string, h: History)
    ensures |attempts[key := h]| <= |attempts| + 1
  {
    MapSize(attempts);
    MapSize(attempts[key := h]);
    assert attempts[key := h].Keys == attempts.Keys + {key};
  }

  lemma ThreeInOneWindow(window: Time, skew: Time)
    requires 1 <= skew <= window
    ensures CountIn([0, 0, window, window - skew], 0, window - skew + 1) == 3
  {
    var log := [0, 0, window, window - skew];
    assert log[..3] == [0, 0, window] && [0, 0, window][..2] == [0, 0] && [0, 0][..1] == [0] && [0][..0] == [];
    assert CountIn([0], 0, window - skew + 1) == 1 && CountIn([0, 0], 0, window - skew + 1) == 2;
    assert CountIn([0, 0, window], 0, window - skew + 1) == 2;
  }

  /** An attempt that nothing stands against. */
  lemma AcquireWithRoom(l: Limiter, o: Options, ip: string, account: string, now: Time)
    requires |Pruned(HistoryOf(l.ips, ip), now - o.attemptWindow)| < o.maxAttemptsPerIp
    requires |Pruned(HistoryOf(l.accounts, account), now - o.attemptWindow)| < o.maxAttemptsPerAccount
    requires |l.ips| < o.maxTrackedIps && |l.accounts| < o.maxTrackedAccounts && l.jobs < o.maxConcurrentPasswordJobs
    ensures Acquire(l, o, ip, account, now).1 == Accepted
    ensures Acquire(l, o, ip, account, now).0 ==
      Limiter(l.ips[ip := Pruned(HistoryOf(l.ips, ip), now - o.attemptWindow) + [now]],
              l.accounts[account := Pruned(HistoryOf(l.accounts, account), now - o.attemptWindow) + [now]],
              l.jobs + 1, l.accepted + 1)
  {
    hide KeyPruned, Pruned, HistoryOf;
    var cutoff := now - o.attemptWindow;
    KeyPrunedSize(l.ips, ip, cutoff, Pruned(HistoryOf(l.ips, ip), cutoff) + [now]);
    KeyPrunedSize(l.accounts, account, cutoff, Pruned(HistoryOf(l.accounts, account), cutoff) + [now]);
  }

  lemma KeyPrunedSize(attempts: Attempts, key: string, cutoff: Time, h: History)
    ensures |KeyPruned(attempts, key, cutoff)| <= |attempts|
    ensures HistoryOf(KeyPruned(attempts, key, cutoff), key) == Pruned(HistoryOf(attempts, key), cutoff)
    ensures KeyPruned(attempts, key, cutoff)[key := h] == attempts[key := h]
  {
    MapSize(attempts);
    MapSize(KeyPruned(attempts, key, cutoff));
    SameSizeSubset(KeyPruned(attempts, key, cutoff).Keys, attempts.Keys);
  }

  // ---------------------------------------------------------------- the limiter object

  datatype Rejections = Rejections(byIp: nat, byAccount: nat, byConcurrency: nat, byTrackingCapacity: nat)

  class LoginAttemptLimiter {
    const options: Options
    var ipAttempts: Attempts
    var accountAttempts: Attempts
    var concurrentPasswordJobs: nat
    var acceptedAttempts: nat
    var rejections: Rejections

    ghost function View(): Limiter reads this {
      Limiter(ipAttempts, accountAttempts, concurrentPasswordJobs, acceptedAttempts)
    }

    constructor (options: Options)
      requires IsValid(options)
      ensures View() == IDLE && this.options == options && rejections == Rejections(0, 0, 0, 0)
    {
      this.options := options;
      ipAttempts, accountAttempts, concurrentPasswordJobs, acceptedAttempts := map[], map[], 0, 0;
      rejections := Rejections(0, 0, 0, 0);
    }

    static method PruneFront(history: History, cutoff: Time) returns (pruned: History)
      ensures pruned == Pruned(history, cutoff)
    {
      pruned := history;
      while pruned != [] && pruned[0] <= cutoff
        invariant Pruned(pruned, cutoff) == Pruned(history, cutoff)
      {
        pruned := pruned[1..];
      }
    }

    static method FindAndPrune(attempts: Attempts, key: string, cutoff: Time) returns (pruned: Attempts, found: bool)
      ensures pruned == KeyPruned(attempts, key, cutoff)
      ensures found <==> key in pruned
    {
      if key !in attempts {
        return attempts, false;
      }
      var history := PruneFront(attempts[key], cutoff);
      if history == [] {
        return attempts - {key}, false;
      }
      pruned, found := attempts[key := history], true;
    }

    /** Erases while walking the table. */
    static method PruneExpired(attempts: Attempts, cutoff: Time) returns (pruned: Attempts)
      ensures pruned == AllPruned(attempts, cutoff)
    {
      pruned := attempts;
      var rest := attempts.Keys;
      while rest != {}
        invariant rest <= attempts.Keys
        invariant pruned == map key | key in attempts && (key in rest || Pruned(attempts[key], cutoff) != []) ::
          if key in rest then attempts[key] else Pruned(attempts[key], cutoff)
        decreases |rest|
      {
        var key :| key in rest;
        var history := PruneFront(pruned[key], cutoff);
        if history == [] {
          pruned := pruned - {key};
        } else {
          pruned := pruned[key := history];
        }
        rest := rest - {key};
      }
    }

    /** When the table is full everybody's expired attempts go. */
    static method MakeRoom(attempts: Attempts, key: string, cap: nat, cutoff: Time) returns (roomy: Attempts)
      ensures roomy == RoomMade(attempts, key, cap, cutoff)
    {
      roomy := attempts;
      if key !in attempts && |attempts| >= cap {
        roomy := PruneExpired(attempts, cutoff);
      }
    }

    method CheckRates(ipKey: string, accountKey: string, cutoff: Time) returns (refusal: Option<Status>)
      requires IsValid(options)
      modifies this`ipAttempts, this`accountAttempts
      ensures (View(), refusal) == Checked(old(View()), options, ipKey, accountKey, cutoff)
    {
      hide KeyPruned;
      var ipFound, accountFound;
      ipAttempts, ipFound := FindAndPrune(ipAttempts, ipKey, cutoff);
      if ipFound && |ipAttempts[ipKey]| >= options.maxAttemptsPerIp {
        return Some(RateLimitedByIp);
      }
      accountAttempts, accountFound := FindAndPrune(accountAttempts, accountKey, cutoff);
      if accountFound && |accountAttempts[accountKey]| >= options.maxAttemptsPerAccount {
        return Some(RateLimitedByAccount);
      }
      refusal := None;
    }

    method Admit(ipKey: string, accountKey: string, now: Time) returns (status: Status)
      modifies this`ipAttempts, this`accountAttempts, this`concurrentPasswordJobs, this`acceptedAttempts
      ensures (View(), status) == Admitted(old(View()), options, ipKey, accountKey, now)
    {
      hide RoomMade;
      var cutoff := now - options.attemptWindow;
      ipAttempts := MakeRoom(ipAttempts, ipKey, options.maxTrackedIps, cutoff);
      accountAttempts := MakeRoom(accountAttempts, accountKey, options.maxTrackedAccounts, cutoff);
      if (ipKey !in ipAttempts && |ipAttempts| >= options.maxTrackedIps) ||
         (accountKey !in accountAttempts && |accountAttempts| >= options.maxTrackedAccounts) {
        return BusyTracking;
      }
      if concurrentPasswordJobs >= options.maxConcurrentPasswordJobs {
        return BusyJobs;
      }
      ipAttempts := ipAttempts[ipKey := HistoryOf(ipAttempts, ipKey) + [now]];
      accountAttempts := accountAttempts[accountKey := HistoryOf(accountAttempts, accountKey) + [now]];
      concurrentPasswordJobs := concurrentPasswordJobs + 1;
      acceptedAttempts := acceptedAttempts + 1;
      status := Accepted;
    }

    method TryAcquire(clientAddress: string, accountLoginId: string, now: Time) returns (status: Status)
      requires IsValid(options)
      modifies this
      ensures (View(), status) == Acquire(old(View()), options, IpKey(clientAddress), Folded(accountLoginId), now)
      ensures rejections == Counted(old(rejections), status)
      ensures rejections.byIp == old(rejections.byIp) + if status.RateLimitedByIp? then 1 else 0
      ensures rejections.byAccount == old(rejections.byAccount) + if status.RateLimitedByAccount? then 1 else 0
      ensures rejections.byTrackingCapacity == old(rejections.byTrackingCapacity) + if status.BusyTracking? then 1 else 0
      ensures rejections.byConcurrency == old(rejections.byConcurrency) + if status.BusyJobs? then 1 else 0
      ensures acceptedAttempts == old(acceptedAttempts) + if status.Accepted? then 1 else 0
      ensures concurrentPasswordJobs == old(concurrentPasswordJobs) + if status.Accepted? then 1 else 0
    {
      hide Checked, Admitted, Folded, IpKey;
      OnlyAcceptedCount(View(), options, IpKey(clientAddress), Folded(accountLoginId), now);
      var ipKey := IpKey(clientAddress);
      var accountKey := Folded(accountLoginId);
      var refusal := CheckRates(ipKey, accountKey, now - options.attemptWindow);
      if refusal.Some? {
        status := refusal.value;
      } else {
        status := Admit(ipKey, accountKey, now);
      }
      rejections := Counted(rejections, status);
    }

    static function Counted(r: Rejections, status: Status): Rejections {
      match status
      case Accepted => r
      case RateLimitedByIp => r.(byIp := r.byIp + 1)
      case RateLimitedByAccount => r.(byAccount := r.byAccount + 1)
      case BusyTracking => r.(byTrackingCapacity := r.byTrackingCapacity + 1)
      case BusyJobs => r.(byConcurrency := r.byConcurrency + 1)
    }

    /** The destructor of a permit. */
    method ReleasePermit()
      modifies this`concurrentPasswordJobs
      ensures View() == Released(old(View()))
      ensures concurrentPasswordJobs == if old(concurrentPasswordJobs) > 0 then old(concurrentPasswordJobs) - 1 else 0
    {
      if concurrentPasswordJobs > 0 {
        concurrentPasswordJobs := concurrentPasswordJobs - 1;
      }
    }
  }
}
