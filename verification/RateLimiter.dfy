/**
 * The sliding-window limiter: one Lua script over a sorted set shared by every instance. Each call brings its
 * own clock reading `now` and its own limit; the key expires by the server's clock. A rejected caller is told
 * how long to wait (429 of RFC 6585, section 4; Retry-After of RFC 9110, section 10.2.3).
 */
module RateLimiter {
  import opened Options
  import opened Sums

  const WINDOW_MS := 5_000

  /** The sorted set (member -> score) under one key and the instant after which the key is gone. */
  datatype Key = Key(members: map<string, int>, deadline: Option<int>)

  /** One evaluation of the script: the caller's clock, the server's clock, the caller's limit and a unique member. */
  datatype Call = Call(now: int, server: int, limit: int, member: string)

  datatype Reply = Reply(allowed: bool, count: int, retryAfter: int)

  const EMPTY := Key(map[], None)

  /** The key as the server sees it at a given instant: PEXPIRE drops it once the deadline has passed. */
  function Alive(k: Key, server: int): Key {
    if k.deadline.Some? && server > k.deadline.value then EMPTY else k
  }

  /** ZREMRANGEBYSCORE key 0 (now - window). */
  function Pruned(members: map<string, int>, now: int): map<string, int> {
    map m | m in members && !(0 <= members[m] <= now - WINDOW_MS) :: members[m]
  }

  ghost function Oldest(members: map<string, int>): (score: int)
    requires members != map[]
    ensures exists m :: m in members && members[m] == score
    ensures forall m | m in members :: score <= members[m]
  {
    LowestScoreExists(members);
    var m :| m in members && forall n | n in members :: members[m] <= members[n];
    members[m]
  }

  lemma {:induction false} LowestScoreExists(members: map<string, int>)
    requires members != map[]
    ensures exists m :: m in members && forall n | n in members :: members[m] <= members[n]
    decreases |members|
  {
    var m :| m in members;
    if members - {m} == map[] {
      assert forall n | n in members && n != m :: n in members - {m};
    } else {
      LowestScoreExists(members - {m});
      var r :| r in members - {m} && forall n | n in members - {m} :: members[r] <= members[n];
      assert forall n | n in members && n != m :: n in members - {m};
    }
  }

  function CeilDiv(a: int, b: int): int
    requires b > 0
  {
    (a + b - 1) / b
  }

  function RetrySeconds(now: int, oldest: int): int {
    var wait := CeilDiv(WINDOW_MS - (now - oldest), 1000);
    if wait < 1 then 1 else wait
  }

  /** The script. */
  ghost function Script(k: Key, c: Call): (Key, Reply) {
    var live := Alive(k, c.server);
    var kept := Pruned(live.members, c.now);
    if |kept| >= c.limit then
      var retry := if kept == map[] then 1 else RetrySeconds(c.now, Oldest(kept));
      (if kept == map[] then EMPTY else Key(kept, live.deadline), Reply(false, |kept|, retry))
    else
      (Key(kept[c.member := c.now], Some(c.server + WINDOW_MS)), Reply(true, |kept| + 1, 0))
  }

  // ---- Runs ----

  ghost function StateBefore(calls: seq<Call>, i: nat): Key
    requires i <= |calls|
    decreases i
  {
    if i == 0 then EMPTY else Script(StateBefore(calls, i - 1), calls[i - 1]).0
  }

  ghost function ReplyTo(calls: seq<Call>, i: nat): Reply
    requires i < |calls|
  {
    Script(StateBefore(calls, i), calls[i]).1
  }

  /** What call i finds in the set once it has pruned it. */
  ghost function Seen(calls: seq<Call>, i: nat): map<string, int>
    requires i < |calls|
  {
    Pruned(Alive(StateBefore(calls, i), calls[i].server).members, calls[i].now)
  }

  ghost predicate Admitted(calls: seq<Call>, i: nat)
    requires i < |calls|
  {
    ReplyTo(calls, i).allowed
  }

  /** Every caller's clock is within e of the server's, which never goes back; members are unique. */
  ghost predicate Skewed(calls: seq<Call>, e: int) {
    && e >= 0
    && (forall i | 0 <= i < |calls| :: calls[i].server - e <= calls[i].now <= calls[i].server + e && calls[i].now >= 0)
    && (forall i, j | 0 <= i <= j < |calls| :: calls[i].server <= calls[j].server)
    && (forall i, j | 0 <= i < j < |calls| :: calls[i].member != calls[j].member)
  }

  /** Every entry of the set is an admitted request with the clock reading of its caller. */
  lemma {:induction false} EntriesWereAdmitted(calls: seq<Call>, j: nat, m: string)
    requires j <= |calls| && m in StateBefore(calls, j).members
    ensures exists i ::
              0 <= i < j && Admitted(calls, i) && calls[i].member == m &&
                  StateBefore(calls, j).members[m] == calls[i].now
    decreases j
  {
    if m in StateBefore(calls, j - 1).members &&
        StateBefore(calls, j).members[m] == StateBefore(calls, j - 1).members[m] {
      EntriesWereAdmitted(calls, j - 1, m);
    } else {
      assert Admitted(calls, j - 1);
    }
  }

  /** Call c is in the set, which lives for a window after it. */
  ghost predicate Counted(k: Key, c: Call) {
    && c.member in k.members && k.members[c.member] == c.now
    && k.deadline.Some? && k.deadline.value >= c.server + WINDOW_MS
  }

  /** An admitted request stays in the set, and keeps the key alive, while the server's clock plus the skew is
      less than a window ahead of it: no call can have pruned it and the key cannot have expired. */
  lemma {:induction false} StillCounted(calls: seq<Call>, e: int, i: nat, j: nat)
    requires Skewed(calls, e) && i < j < |calls| && Admitted(calls, i)
    requires calls[j].server + e < calls[i].now + WINDOW_MS
    ensures Counted(StateBefore(calls, j), calls[i])
    decreases j
  {
    if j == i + 1 {
      AdmissionEnters(StateBefore(calls, i), calls[i]);
    } else {
      assert calls[j - 1].server <= calls[j].server;
      StillCounted(calls, e, i, j - 1);
      assert calls[i].server <= calls[j - 1].server;
      CountedStays(StateBefore(calls, j - 1), calls[i], calls[j - 1]);
    }
  }

  lemma AdmissionEnters(k: Key, c: Call)
    requires Script(k, c).1.allowed
    ensures Counted(Script(k, c).0, c)
  {
  }

  /** A call that neither finds the key expired nor prunes or overwrites an entry leaves it there. */
  lemma CountedStays(k: Key, c: Call, later: Call)
    requires Counted(k, c) && later.member != c.member && later.now < c.now + WINDOW_MS
    requires c.server <= later.server <= c.server + WINDOW_MS
    ensures Counted(Script(k, later).0, c)
  {
    assert c.member in Pruned(Alive(k, later.server).members, later.now);
  }

  /** ... and then call j itself counts it too. */
  lemma CountedBy(calls: seq<Call>, e: int, i: nat, j: nat)
    requires Skewed(calls, e) && i < j < |calls| && Admitted(calls, i)
    requires calls[j].now - calls[i].now < WINDOW_MS - 2 * e
    ensures calls[i].member in Seen(calls, j)
  {
    StillCounted(calls, e, i, j);
  }

  /** Callers' clocks that never go back from call to call, and never fall behind the server's over any stretch: one
      clock for everybody, clocks with a constant offset, or a server that runs slow. */
  ghost predicate Steady(calls: seq<Call>) {
    && (forall i | 0 <= i < |calls| :: calls[i].now >= 0)
    && (forall i, j {:trigger Follows(calls[i], calls[j])} | 0 <= i < j < |calls| :: Follows(calls[i], calls[j]))
  }

  predicate Follows(c: Call, d: Call) {
    c.now <= d.now && 0 <= d.server - c.server <= d.now - c.now && c.member != d.member
  }

  lemma OneClockIsSteady(calls: seq<Call>)
    requires Skewed(calls, 0)
    ensures Steady(calls)
  {
    forall i, j | 0 <= i < j < |calls| ensures Follows(calls[i], calls[j]) {
      assert calls[i].server <= calls[j].server;
    }
  }

  lemma {:induction false} SteadilyCounted(calls: seq<Call>, i: nat, j: nat)
    requires Steady(calls) && i < j < |calls| && Admitted(calls, i) && calls[j].now < calls[i].now + WINDOW_MS
    ensures Counted(StateBefore(calls, j), calls[i])
    decreases j
  {
    if j == i + 1 {
      AdmissionEnters(StateBefore(calls, i), calls[i]);
    } else {
      assert Follows(calls[i], calls[j - 1]) && Follows(calls[j - 1], calls[j]);
      SteadilyCounted(calls, i, j - 1);
      CountedStays(StateBefore(calls, j - 1), calls[i], calls[j - 1]);
    }
  }

  lemma SteadilySeen(calls: seq<Call>, i: nat, j: nat)
    requires Steady(calls) && i < j < |calls| && Admitted(calls, i) && calls[j].now < calls[i].now + WINDOW_MS
    ensures calls[i].member in Seen(calls, j)
  {
    SteadilyCounted(calls, i, j);
    assert Follows(calls[i], calls[j]);
  }

  lemma {:induction false} MemberCount(calls: seq<Call>, s: set<nat>)
    requires forall i | i in s :: 0 <= i < |calls|
    requires forall i, j | 0 <= i < j < |calls| :: calls[i].member != calls[j].member
    ensures |set i | i in s :: calls[i].member| == |s|
    decreases |s|
  {
    var names := set i | i in s :: calls[i].member;
    if s == {} {
      assert names == {};
    } else {
      var x :| x in s;
      MemberCount(calls, s - {x});
      var rest := set i | i in s - {x} :: calls[i].member;
      assert names == rest + {calls[x].member};
      assert calls[x].member !in rest;
    }
  }

  lemma {:induction false} Latest(s: set<nat>) returns (j: nat)
    requires s != {}
    ensures j in s && forall i | i in s :: i <= j
    decreases |s|
  {
    var x :| x in s;
    if s == {x} {
      j := x;
    } else {
      var rest := Latest(s - {x});
      j := if x > rest then x else rest;
      assert forall i | i in s && i != x :: i in s - {x};
    }
  }

  ghost function AdmittedIn(calls: seq<Call>, from: int, to: int): set<nat> {
    set i: nat | 0 <= i < |calls| && Admitted(calls, i) && from <= calls[i].now < to
  }

  /** With clocks at most e apart from the server's and no caller's limit above L, any stretch of caller time of
      length window - 2e holds at most L admitted requests, over the whole run and across key expiry. */
  lemma WindowBound(calls: seq<Call>, e: int, limit: nat, from: int)
    requires Skewed(calls, e) && forall i | 0 <= i < |calls| :: calls[i].limit <= limit
    ensures |AdmittedIn(calls, from, from + WINDOW_MS - 2 * e)| <= limit
  {
    var s := AdmittedIn(calls, from, from + WINDOW_MS - 2 * e);
    if s != {} {
      var j := Latest(s);
      assert Admitted(calls, j) && |Seen(calls, j)| < calls[j].limit <= limit;
      EarlierAreSeen(calls, e, s, j);
    }
  }

  lemma EarlierAreSeen(calls: seq<Call>, e: int, s: set<nat>, j: nat)
    requires Skewed(calls, e) && j in s && j < |calls|
    requires forall i | i in s :: i <= j && Admitted(calls, i) && calls[j].now - calls[i].now < WINDOW_MS - 2 * e
    ensures |s| - 1 <= |Seen(calls, j)|
  {
    var earlier := set i | i in s - {j} :: calls[i].member;
    forall m | m in earlier ensures m in Seen(calls, j).Keys {
      var i :| i in s - {j} && calls[i].member == m;
      CountedBy(calls, e, i, j);
    }
    SubsetCard(earlier, Seen(calls, j).Keys);
    MemberCount(calls, s - {j});
    assert |Seen(calls, j).Keys| == |Seen(calls, j)|;
  }

  /** Without skew the window is the full 5000 ms. */
  lemma ExactWindowBound(calls: seq<Call>, limit: nat, from: int)
    requires Skewed(calls, 0) && forall i | 0 <= i < |calls| :: calls[i].limit <= limit
    ensures |AdmittedIn(calls, from, from + WINDOW_MS)| <= limit
  {
    WindowBound(calls, 0, limit, from);
  }

  /** Two callers run e ahead of the server; a window later one runs e ahead and the next e behind. */
  function TightRun(e: nat): (calls: seq<Call>)
    ensures |calls| == 4
  {
    [Call(10_000 + e, 10_000, 2, "a"), Call(10_000 + e, 10_000, 2, "b"),
     Call(15_000 + e, 15_000, 2, "c"), Call(15_000 - e, 15_000, 2, "d")]
  }

  function TightKey(e: nat, n: nat): Key
    requires n < 4
  {
    match n
    case 0 => EMPTY
    case 1 => Key(map["a" := 10_000 + e], Some(15_000))
    case 2 => Key(map["a" := 10_000 + e, "b" := 10_000 + e], Some(15_000))
    case 3 => Key(map["c" := 15_000 + e], Some(20_000))
  }

  lemma TightStep(e: nat, n: nat)
    requires n < 4
    ensures Script(TightKey(e, n), TightRun(e)[n]).1.allowed
    ensures n < 3 ==> Script(TightKey(e, n), TightRun(e)[n]).0 == TightKey(e, n + 1)
  {
    var k, c := TightKey(e, n), TightRun(e)[n];
    if n == 2 {
      assert Pruned(k.members, c.now) == map[];
    } else {
      assert Pruned(k.members, c.now) == k.members;
    }
  }

  lemma {:induction false} TightStates(e: nat, n: nat)
    requires n < 4
    ensures StateBefore(TightRun(e), n) == TightKey(e, n) && Admitted(TightRun(e), n)
    decreases n
  {
    if n > 0 {
      TightStates(e, n - 1);
      TightStep(e, n - 1);
    }
    TightStep(e, n);
  }

  lemma TightClocks(e: nat)
    ensures Skewed(TightRun(e), e) && forall i | 0 <= i < |TightRun(e)| :: TightRun(e)[i].limit == 2
    requires e <= 10_000
  {
    var calls := TightRun(e);
    assert calls[0].member == "a" && calls[1].member == "b" && calls[2].member == "c" && calls[3].member == "d";
    assert forall i, j | 0 <= i < j < |calls| :: calls[i].member[0] != calls[j].member[0];
  }

  /** One more millisecond and the bound fails: three requests get in at limit 2, no two of them more than
      window - 2e apart. */
  lemma WindowBoundIsTight(e: nat)
    requires 2 * e <= WINDOW_MS
    ensures var calls := TightRun(e);
            && Skewed(calls, e) && (forall i | 0 <= i < |calls| :: calls[i].limit == 2)
            && Admitted(calls, 0) && Admitted(calls, 1) && Admitted(calls, 3)
            && calls[0].now == calls[1].now && calls[3].now - calls[0].now == WINDOW_MS - 2 * e
  {
    TightClocks(e);
    TightStates(e, 0);
    TightStates(e, 1);
    TightStates(e, 3);
  }

  // ---- Refinement of a log that never forgets ----

  /** The requests a naive limiter, which keeps every admission for ever, would count at call i. */
  ghost function NaiveLog(calls: seq<Call>, i: nat): set<nat>
    requires i < |calls|
    decreases i, 0
  {
    set j: nat | 0 <= j < i && calls[j].now > calls[i].now - WINDOW_MS && NaiveAdmits(calls, j)
  }

  ghost predicate NaiveAdmits(calls: seq<Call>, i: nat)
    requires i < |calls|
    decreases i, 1
  {
    |NaiveLog(calls, i)| < calls[i].limit
  }

  /** With steady clocks, the pruned, expiring set decides and counts exactly as the full log does. */
  lemma {:induction false} RefinesNaiveLog(calls: seq<Call>, i: nat)
    requires Steady(calls) && i < |calls|
    ensures Admitted(calls, i) == NaiveAdmits(calls, i)
    ensures ReplyTo(calls, i).count == |NaiveLog(calls, i)| + if NaiveAdmits(calls, i) then 1 else 0
    decreases i
  {
    forall j | 0 <= j < i ensures Admitted(calls, j) == NaiveAdmits(calls, j) {
      RefinesNaiveLog(calls, j);
    }
    SeenCountsTheLog(calls, i, NaiveLog(calls, i));
  }

  lemma SeenCountsTheLog(calls: seq<Call>, i: nat, log: set<nat>)
    requires Steady(calls) && i < |calls|
    requires forall j :: j in log <==> 0 <= j < i && calls[j].now > calls[i].now - WINDOW_MS && Admitted(calls, j)
    ensures |Seen(calls, i)| == |log|
  {
    KeptIsTheLog(calls, i, log);
    forall j, k | 0 <= j < k < |calls| ensures calls[j].member != calls[k].member {
      assert Follows(calls[j], calls[k]);
    }
    MemberCount(calls, log);
    assert |Seen(calls, i).Keys| == |Seen(calls, i)|;
  }

  lemma KeptIsTheLog(calls: seq<Call>, i: nat, log: set<nat>)
    requires Steady(calls) && i < |calls|
    requires forall j :: j in log <==> 0 <= j < i && calls[j].now > calls[i].now - WINDOW_MS && Admitted(calls, j)
    ensures Seen(calls, i).Keys ==
            set j | j in log :: calls[j].member
  {
    var kept := Seen(calls, i);
    var names := set j | j in log :: calls[j].member;
    forall m | m in names ensures m in kept {
      var j :| j in log && calls[j].member == m;
      SteadilySeen(calls, j, i);
    }
    forall m | m in kept ensures m in names {
      EntriesWereAdmitted(calls, i, m);
      var j :| 0 <= j < i && Admitted(calls, j) && calls[j].member == m &&
          StateBefore(calls, i).members[m] == calls[j].now;
      assert j in log;
    }
  }

  // ---- Retry-After ----

  ghost predicate SharedLimit(calls: seq<Call>, limit: int) {
    forall i | 0 <= i < |calls| :: calls[i].limit == limit && calls[i].now >= 0
  }

  lemma PrunedShrinks(members: map<string, int>, now: int)
    ensures Pruned(members, now).Keys <= members.Keys && |Pruned(members, now)| <= |members|
  {
    SubsetCard(Pruned(members, now).Keys, members.Keys);
    assert |members.Keys| == |members|;
    assert |Pruned(members, now).Keys| == |Pruned(members, now)|;
  }

  lemma RejectionOnlyPrunes(k: Key, c: Call)
    requires !Script(k, c).1.allowed
    ensures var k' := Script(k, c).0;
            && k'.members.Keys <= k.members.Keys && |k'.members| <= |k.members|
            && (forall m | m in k'.members :: k'.members[m] == k.members[m])
            && (c.limit >= 0 ==> |k'.members| >= c.limit)
  {
    PrunedShrinks(Alive(k, c.server).members, c.now);
    assert |EMPTY.members| == 0;
  }

  lemma AdmissionAddsOne(k: Key, c: Call)
    requires Script(k, c).1.allowed
    ensures |Script(k, c).0.members| <= c.limit
  {
    var kept := Pruned(Alive(k, c.server).members, c.now);
    assert |kept[c.member := c.now]| <= |kept| + 1;
  }

  /** The set never holds more than the shared limit. */
  lemma {:induction false} NeverOverLimit(calls: seq<Call>, limit: nat, i: nat)
    requires SharedLimit(calls, limit) && i <= |calls|
    ensures |StateBefore(calls, i).members| <= limit
    decreases i
  {
    if i > 0 {
      NeverOverLimit(calls, limit, i - 1);
      if Admitted(calls, i - 1) {
        AdmissionAddsOne(StateBefore(calls, i - 1), calls[i - 1]);
      } else {
        RejectionOnlyPrunes(StateBefore(calls, i - 1), calls[i - 1]);
      }
    }
  }

  lemma {:induction false} OnlyShrinksWhileRejecting(calls: seq<Call>, i: nat, j: nat)
    requires i < j <= |calls| && forall k | i < k < j :: !Admitted(calls, k)
    ensures StateBefore(calls, j).members.Keys <= StateBefore(calls, i + 1).members.Keys
    ensures forall m | m in StateBefore(calls, j).members ::
              StateBefore(calls, j).members[m] == StateBefore(calls, i + 1).members[m]
    decreases j
  {
    if j > i + 1 {
      OnlyShrinksWhileRejecting(calls, i, j - 1);
      assert !Admitted(calls, j - 1);
      RejectionOnlyPrunes(StateBefore(calls, j - 1), calls[j - 1]);
    }
  }

  lemma RetryCoversTheWait(now: int, oldest: int)
    ensures 1000 * RetrySeconds(now, oldest) >= WINDOW_MS - (now - oldest)
    ensures RetrySeconds(now, oldest) > 1 ==> 1000 * (RetrySeconds(now, oldest) - 1) < WINDOW_MS - (now - oldest)
  {
  }

  /** A rejection leaves exactly `limit` entries, and its advice is about the oldest of them. */
  lemma RejectionFindsTheSetFull(calls: seq<Call>, limit: nat, i: nat)
    requires SharedLimit(calls, limit) && limit >= 1 && i < |calls| && !Admitted(calls, i)
    ensures var full := StateBefore(calls, i + 1).members;
            && full != map[] && |full| == limit && (forall m | m in full :: full[m] >= 0)
            && ReplyTo(calls, i).retryAfter == RetrySeconds(calls[i].now, Oldest(full))
  {
    var full := StateBefore(calls, i + 1).members;
    NeverOverLimit(calls, limit, i + 1);
    RejectionOnlyPrunes(StateBefore(calls, i), calls[i]);
    RejectedReply(StateBefore(calls, i), calls[i]);
    forall m | m in full ensures full[m] >= 0 {
      EntriesWereAdmitted(calls, i + 1, m);
    }
  }

  /** A rejected caller that waits as told, with no admission in between, gets in - exactly when the limit lets
      anyone in at all. Skew does not matter here: it is the caller's own clock that has to advance. */
  lemma RetryAfterIsEnough(calls: seq<Call>, limit: int, i: nat, j: nat)
    requires SharedLimit(calls, limit) && i < j < |calls| && !Admitted(calls, i)
    requires forall k | i < k < j :: !Admitted(calls, k)
    requires calls[j].now >= calls[i].now + 1000 * ReplyTo(calls, i).retryAfter
    ensures Admitted(calls, j) <==> limit >= 1
  {
    if limit >= 1 {
      var full := StateBefore(calls, i + 1).members;
      RejectionFindsTheSetFull(calls, limit, i);
      OnlyShrinksWhileRejecting(calls, i, j);
      OldestIsGone(full, calls[i].now, Alive(StateBefore(calls, j), calls[j].server).members, calls[j].now);
    }
  }

  lemma RejectedReply(k: Key, c: Call)
    requires !Script(k, c).1.allowed && Script(k, c).0.members != map[]
    ensures Script(k, c).1.retryAfter == RetrySeconds(c.now, Oldest(Script(k, c).0.members))
  {
  }

  /** Whoever is turned away is told to wait at least a second, whoever is let in not at all. */
  lemma RetryAfterIsPositive(k: Key, c: Call)
    ensures var r := Script(k, c).1; if r.allowed then r.retryAfter == 0 else r.retryAfter >= 1
  {
  }

  /** After the advised wait the oldest entry is out of the window. */
  lemma OldestIsGone(full: map<string, int>, rejectedAt: int, later: map<string, int>, now: int)
    requires full != map[] && (forall m | m in full :: full[m] >= 0)
    requires later.Keys <= full.Keys && forall m | m in later :: later[m] == full[m]
    requires now >= rejectedAt + 1000 * RetrySeconds(rejectedAt, Oldest(full))
    ensures |Pruned(later, now)| < |full|
  {
    var m :| m in full && full[m] == Oldest(full);
    RetryCoversTheWait(rejectedAt, Oldest(full));
    var kept := Pruned(later, now);
    assert m !in kept;
    SubsetCard(kept.Keys, full.Keys - {m});
    assert |full.Keys| == |full| && |kept.Keys| == |kept|;
  }

  /** And it is not told to wait a second more than needed: one second less, and it is rejected again. */
  lemma RetryAfterIsLeast(calls: seq<Call>, limit: int, i: nat, j: nat)
    requires Steady(calls) && SharedLimit(calls, limit) && limit >= 1 && i < j < |calls| && !Admitted(calls, i)
    requires ReplyTo(calls, i).retryAfter > 1
    requires calls[j].now <= calls[i].now + 1000 * (ReplyTo(calls, i).retryAfter - 1)
    ensures !Admitted(calls, j)
  {
    var before := Seen(calls, i);
    RetryCoversTheWait(calls[i].now, Oldest(before));
    var kept := Seen(calls, j);
    forall m | m in before ensures m in kept {
      EntriesWereAdmitted(calls, i, m);
      var k :| 0 <= k < i && Admitted(calls, k) && calls[k].member == m &&
          StateBefore(calls, i).members[m] == calls[k].now;
      SteadilySeen(calls, k, j);
    }
    SubsetCard(before.Keys, kept.Keys);
    assert |before.Keys| == |before| && |kept.Keys| == |kept|;
  }

  // ---- The script over a sorted set updated in place ----

  class SortedSet {
    var members: map<string, int>
    var deadline: Option<int>

    ghost function Contents(): Key
      reads this
    {
      Key(members, deadline)
    }

    /** What the server does before it runs a command on a key whose deadline has passed. */
    method ExpireIfDue(server: int)
      modifies this
      ensures Contents() == Alive(old(Contents()), server)
    {
      if deadline.Some? && server > deadline.value {
        members, deadline := map[], None;
      }
    }

    method ZRemRangeByScore(low: int, high: int)
      modifies `members
      ensures members == map m | m in old(members) && !(low <= old(members)[m] <= high) :: old(members)[m]
    {
      var rest := members.Keys;
      ghost var all := members;
      while rest != {}
        invariant rest <= all.Keys
        invariant members == map m | m in all && (m in rest || !(low <= all[m] <= high)) :: all[m]
        decreases rest
      {
        var m :| m in rest;
        rest := rest - {m};
        if low <= members[m] <= high {
          members := members - {m};
        }
      }
    }

    /** ZRANGE key 0 0 WITHSCORES: the lowest score, if there is any entry. */
    method LowestScore() returns (lowest: Option<int>)
      ensures lowest.None? <==> members == map[]
      ensures lowest.Some? ==> lowest.value == Oldest(members)
    {
      var rest := members.Keys;
      lowest := None;
      while rest != {}
        invariant rest <= members.Keys
        invariant lowest.None? <==> rest == members.Keys
        invariant lowest.Some? ==> exists m :: m in members && members[m] == lowest.value
        invariant lowest.Some? ==> forall m | m in members && m !in rest :: lowest.value <= members[m]
        decreases rest
      {
        var m :| m in rest;
        rest := rest - {m};
        if lowest.None? || members[m] < lowest.value {
          lowest := Some(members[m]);
        }
      }
    }

    /** One atomic evaluation of the sliding-window script. */
    method Check(c: Call) returns (r: Reply)
      modifies this
      ensures r == Script(old(Contents()), c).1
      ensures Contents() == Script(old(Contents()), c).0
    {
      ExpireIfDue(c.server);
      ZRemRangeByScore(0, c.now - WINDOW_MS);
      var count := |members|;
      if count >= c.limit {
        var oldest := LowestScore();
        if oldest.None? {
          deadline := None;
          return Reply(false, count, 1);
        }
        return Reply(false, count, RetrySeconds(c.now, oldest.value));
      }
      members := members[c.member := c.now];
      deadline := Some(c.server + WINDOW_MS);
      return Reply(true, count + 1, 0);
    }

    method Reset()
      modifies this
      ensures Contents() == EMPTY
    {
      members, deadline := map[], None;
    }
  }
}
