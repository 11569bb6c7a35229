/**
 * Single-flight cache-aside on one key: a lock with a time to live, a second check, a compare-and-delete release, a
 * polling loop, and a fallback to the source. Callers interleave statement by statement against a clock in
 * milliseconds; the source is a value that may change with time.
 */
module Cache {
  import opened Options

  const CACHE_TTL_SECONDS := 300
  const CACHE_TTL_JITTER_SECONDS := 60
  const LOCK_TTL_MS := 5000
  const LOCK_WAIT_MS := 25
  const LOCK_WAIT_ATTEMPTS := 200

  // ---- Jitter ----

  /** `random` is Math.random's: at least 0, less than 1. */
  function GetCacheTtlSeconds(random: real): (ttl: int)
    requires 0.0 <= random < 1.0
    ensures 300 <= ttl <= 360
  {
    CACHE_TTL_SECONDS + (random * (CACHE_TTL_JITTER_SECONDS + 1) as real).Floor
  }

  /** Every whole number of seconds from 300 to 360 can come up, and no other. */
  lemma TtlRange(ttl: int)
    ensures (exists random | 0.0 <= random < 1.0 :: GetCacheTtlSeconds(random) == ttl) <==> 300 <= ttl <= 360
  {
    if 300 <= ttl <= 360 {
      var random := (ttl - 300) as real / 61.0;
      assert random * 61.0 == (ttl - 300) as real;
      assert GetCacheTtlSeconds(random) == ttl;
    }
  }

  // ---- The protocol ----

  /** A cached value, null being None; when it was loaded and stored is history. */
  datatype Entry = Entry(value: Option<nat>, expires: nat, loadedAt: nat, storedAt: nat)
  datatype Lock = Lock(owner: nat, expires: nat)

  /** What a call returns, and when; a value loaded for this very call is not `cached`, and its storedAt is its
      loadedAt. */
  datatype Reply = Reply(value: Option<nat>, loadedAt: nat, storedAt: nat, at: nat, cached: bool)

  datatype Phase =
    | Fresh
    | Missed
    | Holding
    | Checked
    | Loaded(value: Option<nat>, at: nat)
    | Releasing(toReturn: Option<Reply>)
    | Waiting(attempt: nat, wakeAt: nat)
    | Fallback
    | FallbackLoaded(value: Option<nat>, at: nat)
    | Done(reply: Reply)
    | Threw
    | Gone

  /** One SET of the entry: the lifetime drawn, and whether Redis refused it. */
  datatype Stored = Stored(ttl: nat, dropped: bool)

  /** `lockAt` is when the call tried for the lock; its own number serves as its token. `stores` is history. */
  datatype Caller = Caller(phase: Phase, lockAt: nat, lookups: nat, loads: nat, stores: seq<Stored>)

  /** `loads` counts loader calls by anybody. */
  datatype State = State(clock: nat, cache: Option<Entry>, lock: Option<Lock>, callers: map<nat, Caller>, loads: nat)

  datatype Action =
    | FirstCheck(c: nat)
    | TryLock(c: nat)
    | SecondCheck(c: nat)
    | Load(c: nat)
    | Store(c: nat, ttl: nat, dropped: bool)
    | Release(c: nat)
    | Poll(c: nat)
    | Throw(c: nat)
    | Crash(c: nat)
    | Tick(ms: nat)
    | EvictCache
    | EvictLock

  type Source = nat -> Option<nat>

  /** A key is gone once the clock has passed its expiry; a cached null counts as a miss. */
  predicate Hit(s: State) {
    s.cache.Some? && s.clock <= s.cache.value.expires && s.cache.value.value.Some?
  }

  predicate LockLive(s: State) {
    s.lock.Some? && s.clock <= s.lock.value.expires
  }

  predicate Active(caller: Caller) {
    !caller.phase.Done? && !caller.phase.Threw? && !caller.phase.Gone?
  }

  predicate Enabled(s: State, a: Action) {
    match a
    case FirstCheck(c) => c in s.callers && s.callers[c].phase.Fresh?
    case TryLock(c) => c in s.callers && s.callers[c].phase.Missed?
    case SecondCheck(c) => c in s.callers && s.callers[c].phase.Holding?
    case Load(c) => c in s.callers && (s.callers[c].phase.Checked? || s.callers[c].phase.Fallback?)
    case Store(c, ttl, _) =>
      c in s.callers && (s.callers[c].phase.Loaded? || s.callers[c].phase.FallbackLoaded?) && 300 <= ttl <= 360
    case Release(c) => c in s.callers && s.callers[c].phase.Releasing?
    case Poll(c) => c in s.callers && s.callers[c].phase.Waiting? && s.callers[c].phase.wakeAt <= s.clock
    case Throw(c) => c in s.callers && Active(s.callers[c])
    case Crash(c) => c in s.callers && Active(s.callers[c])
    case Tick(_) => true
    case EvictCache => true
    case EvictLock => true
  }

  function With(s: State, c: nat, caller: Caller): State {
    s.(callers := s.callers[c := caller])
  }

  function CachedReply(s: State): Reply
    requires Hit(s)
  {
    Reply(s.cache.value.value, s.cache.value.loadedAt, s.cache.value.storedAt, s.clock, true)
  }

  /** After a read of the cache: a hit leads to `hit`, a miss to `miss`. */
  function Read(s: State, c: nat, hit: Phase, miss: Phase): State
    requires c in s.callers
  {
    With(s, c, s.callers[c].(phase := if Hit(s) then hit else miss, lookups := s.callers[c].lookups + 1))
  }

  function Polled(attempt: nat, now: nat): Phase {
    if attempt + 1 < LOCK_WAIT_ATTEMPTS then Waiting(attempt + 1, now + LOCK_WAIT_MS) else Fallback
  }

  function Apply(src: Source, s: State, a: Action): State
    requires Enabled(s, a)
  {
    match a
    case FirstCheck(c) => Read(s, c, if Hit(s) then Done(CachedReply(s)) else Missed, Missed)
    case TryLock(c) =>
      if LockLive(s)
      then With(s, c, s.callers[c].(phase := Waiting(0, s.clock + LOCK_WAIT_MS), lockAt := s.clock))
      else With(s, c, s.callers[c].(phase := Holding, lockAt := s.clock)).(lock := Some(Lock(c, s.clock + LOCK_TTL_MS)))
    case SecondCheck(c) => Read(s, c, if Hit(s) then Releasing(Some(CachedReply(s))) else Checked, Checked)
    case Load(c) =>
      var value := src(s.clock);
      var phase := if s.callers[c].phase.Checked? then Loaded(value, s.clock) else FallbackLoaded(value, s.clock);
      With(s, c, s.callers[c].(phase := phase, loads := s.callers[c].loads + 1)).(loads := s.loads + 1)
    case Store(c, ttl, dropped) =>
      var phase := s.callers[c].phase;
      var reply := Reply(phase.value, phase.at, phase.at, s.clock, false);
      With(s, c, s.callers[c].(phase := if phase.Loaded? then Releasing(Some(reply)) else Done(reply),
                               stores := s.callers[c].stores + [Stored(ttl, dropped)]))
      .(cache := if dropped then s.cache else Some(Entry(phase.value, s.clock + ttl * 1000, phase.at, s.clock)))
    case Release(c) =>
      var reply := s.callers[c].phase.toReturn;
      With(s, c, s.callers[c].(phase := if reply.Some? then Done(reply.value) else Threw))
      .(lock := if LockLive(s) && s.lock.value.owner == c then None else s.lock)
    case Poll(c) =>
      var missed := Polled(s.callers[c].phase.attempt, s.clock);
      Read(s, c, if Hit(s) then Done(CachedReply(s)) else missed, missed)
    case Throw(c) =>
      var held := s.callers[c].phase.Holding? || s.callers[c].phase.Checked? || s.callers[c].phase.Loaded?;
      With(s, c, s.callers[c].(phase := if held then Releasing(None) else Threw))
    case Crash(c) => With(s, c, s.callers[c].(phase := Gone))
    case Tick(ms) => s.(clock := s.clock + ms)
    case EvictCache => s.(cache := None)
    case EvictLock => s.(lock := None)
  }

  ghost predicate Valid(src: Source, s: State, acts: seq<Action>)
    decreases |acts|
  {
    acts == [] || (Enabled(s, acts[0]) && Valid(src, Apply(src, s, acts[0]), acts[1..]))
  }

  ghost function Run(src: Source, s: State, acts: seq<Action>): State
    requires Valid(src, s, acts)
    decreases |acts|
  {
    if acts == [] then s else Run(src, Apply(src, s, acts[0]), acts[1..])
  }

  ghost predicate Init(s: State) {
    && s.cache.None? && s.lock.None? && s.loads == 0
    && forall c | c in s.callers :: s.callers[c] == Caller(Fresh, 0, 0, 0, [])
  }

  // ---- Every answer is the source's ----

  /** The value is what the source held when it was loaded, and it was not stored too long ago. */
  predicate FromSource(src: Source, value: Option<nat>, loadedAt: nat, storedAt: nat, now: nat) {
    value == src(loadedAt) && loadedAt <= storedAt <= now
  }

  predicate EntryOk(src: Source, s: State) {
    s.cache.Some? ==>
      var e := s.cache.value;
      FromSource(src, e.value, e.loadedAt, e.storedAt, s.clock) && e.expires <= e.storedAt + 360_000
  }

  predicate ReplyOk(src: Source, reply: Reply, now: nat) {
    && FromSource(src, reply.value, reply.loadedAt, reply.storedAt, reply.at) && reply.at <= now
    && (reply.cached ==> reply.value.Some? && reply.at <= reply.storedAt + 360_000)
  }

  /** Whether what a call is about to return, or has returned, was loaded by itself. */
  predicate HasLoaded(phase: Phase) {
    match phase
    case Releasing(reply) => reply.Some? && !reply.value.cached
    case Done(reply) => !reply.cached
    case _ => false
  }

  predicate Failed(phase: Phase) {
    phase.Threw? || phase.Gone?
  }

  /** The budget of reads, loads and stores, phase by phase, and the time a waiter has waited. */
  predicate CallerOk(src: Source, s: State, caller: Caller) {
    caller.loads <= 1 && caller.lookups <= 1 + LOCK_WAIT_ATTEMPTS && |caller.stores| <= 1 &&
    (!Failed(caller.phase) ==> |caller.stores| == if HasLoaded(caller.phase) then 1 else 0) &&
    match caller.phase
    case Fresh => caller.lookups == 0 && caller.loads == 0
    case Missed => caller.lookups == 1 && caller.loads == 0
    case Holding => caller.lookups == 1 && caller.loads == 0
    case Checked => caller.lookups == 2 && caller.loads == 0
    case Loaded(value, at) => caller.lookups == 2 && caller.loads == 1 && value == src(at) && at <= s.clock
    case Releasing(reply) =>
      reply.Some? ==> ReplyOk(src, reply.value, s.clock) && (reply.value.cached <==> caller.loads == 0)
    case Waiting(attempt, wakeAt) =>
      caller.lookups == 1 + attempt && caller.loads == 0 && attempt < LOCK_WAIT_ATTEMPTS &&
      wakeAt >= caller.lockAt + LOCK_WAIT_MS * (attempt + 1)
    case Fallback => caller.loads == 0 && s.clock >= caller.lockAt + LOCK_TTL_MS
    case FallbackLoaded(value, at) =>
      caller.loads == 1 && value == src(at) && caller.lockAt + LOCK_TTL_MS <= at <= s.clock
    case Done(reply) => ReplyOk(src, reply, s.clock) && (reply.cached <==> caller.loads == 0)
    case _ => true
  }

  ghost predicate Inv(src: Source, s: State) {
    && EntryOk(src, s)
    && forall c {:trigger CallerOk(src, s, s.callers[c])} | c in s.callers :: CallerOk(src, s, s.callers[c])
  }

  lemma OthersOk(src: Source, s: State, s': State, c: nat)
    requires Inv(src, s) && s.clock <= s'.clock && c in s.callers && CallerOk(src, s, s.callers[c])
    ensures CallerOk(src, s', s.callers[c])
  {
  }

  lemma CallerStep(src: Source, s: State, a: Action, c: nat)
    requires Inv(src, s) && Enabled(s, a) && c in s.callers
    ensures CallerOk(src, Apply(src, s, a), Apply(src, s, a).callers[c])
  {
    assert CallerOk(src, s, s.callers[c]);
    if Apply(src, s, a).callers[c] == s.callers[c] {
      OthersOk(src, s, Apply(src, s, a), c);
    }
  }

  lemma InvStep(src: Source, s: State, a: Action)
    requires Inv(src, s) && Enabled(s, a)
    ensures Inv(src, Apply(src, s, a))
  {
    var s' := Apply(src, s, a);
    if a.Store? {
      assert CallerOk(src, s, s.callers[a.c]);
    }
    forall c | c in s'.callers ensures CallerOk(src, s', s'.callers[c]) {
      CallerStep(src, s, a, c);
    }
  }

  lemma {:induction false} InvRun(src: Source, s: State, acts: seq<Action>)
    requires Inv(src, s) && Valid(src, s, acts)
    ensures Inv(src, Run(src, s, acts))
    decreases |acts|
  {
    if acts != [] {
      InvStep(src, s, acts[0]);
      InvRun(src, Apply(src, s, acts[0]), acts[1..]);
    }
  }

  lemma ReachedInv(src: Source, init: State, acts: seq<Action>)
    requires Init(init) && Valid(src, init, acts)
    ensures Inv(src, Run(src, init, acts))
  {
    InvRun(src, init, acts);
  }

  /** Under every interleaving, lock expiry, eviction, dropped store, failed loader and dead holder, with the source
      changing as it likes: what a call returns is what the source held at some moment, and if it came from the cache it
      was stored at most 360 seconds before. */
  lemma AnswersComeFromTheSource(src: Source, init: State, acts: seq<Action>, c: nat)
    requires Init(init) && Valid(src, init, acts) && c in Run(src, init, acts).callers
    requires Run(src, init, acts).callers[c].phase.Done?
    ensures var reply := Run(src, init, acts).callers[c].phase.reply;
            && reply.value == src(reply.loadedAt)
            && reply.loadedAt <= reply.storedAt <= reply.at
            && (reply.cached <==> Run(src, init, acts).callers[c].loads == 0)
            && (reply.cached ==> reply.at <= reply.storedAt + 360_000)
  {
    ReachedInv(src, init, acts);
    var end := Run(src, init, acts);
    assert CallerOk(src, end, end.callers[c]);
  }

  /** With an unchanging source the cache cannot be told from calling the loader. */
  lemma RefinesDirectLoading(src: Source, value: Option<nat>, init: State, acts: seq<Action>, c: nat)
    requires Init(init) && Valid(src, init, acts) && c in Run(src, init, acts).callers
    requires forall t: nat :: src(t) == value
    ensures Run(src, init, acts).callers[c].phase.Done? ==> Run(src, init, acts).callers[c].phase.reply.value == value
  {
    if Run(src, init, acts).callers[c].phase.Done? {
      AnswersComeFromTheSource(src, init, acts, c);
    }
  }

  /** A call loads at most once, reads the cache at most 201 times, and never falls back to the source before it has
      waited out a whole lock lifetime. It tries to store what it returns exactly when it has loaded that itself. */
  lemma WorkIsBounded(src: Source, init: State, acts: seq<Action>, c: nat)
    requires Init(init) && Valid(src, init, acts) && c in Run(src, init, acts).callers
    ensures var end := Run(src, init, acts); var caller := end.callers[c];
            && caller.loads <= 1 && caller.lookups <= 201
            && (caller.phase.Fallback? ==> end.clock >= caller.lockAt + LOCK_TTL_MS)
            && (caller.phase.Done? ==> |caller.stores| == if caller.phase.reply.cached then 0 else 1)
  {
    ReachedInv(src, init, acts);
    var end := Run(src, init, acts);
    assert CallerOk(src, end, end.callers[c]);
  }

  /** Who owns a live lock has taken it and has not been answered yet. */
  ghost predicate OwnerAtWork(s: State) {
    LockLive(s) ==>
      s.lock.value.owner in s.callers &&
      match s.callers[s.lock.value.owner].phase
      case Holding => true
      case Checked => true
      case Loaded(_, _) => true
      case Releasing(_) => true
      case Threw => true
      case Gone => true
      case _ => false
  }

  lemma OwnerStep(src: Source, s: State, a: Action)
    requires OwnerAtWork(s) && Enabled(s, a)
    ensures OwnerAtWork(Apply(src, s, a))
  {
  }

  lemma {:induction false} OwnerRun(src: Source, s: State, acts: seq<Action>)
    requires OwnerAtWork(s) && Valid(src, s, acts)
    ensures OwnerAtWork(Run(src, s, acts))
    decreases |acts|
  {
    if acts != [] {
      OwnerStep(src, s, acts[0]);
      OwnerRun(src, Apply(src, s, acts[0]), acts[1..]);
    }
  }

  /** A call that has returned, or that has never taken the lock, does not leave it behind. */
  lemma AnsweredLeavesNoLock(src: Source, init: State, acts: seq<Action>, c: nat)
    requires Init(init) && Valid(src, init, acts) && c in Run(src, init, acts).callers
    requires var phase := Run(src, init, acts).callers[c].phase;
             phase.Done? || phase.Fresh? || phase.Missed? || phase.Waiting? || phase.Fallback? || phase.FallbackLoaded?
    ensures var end := Run(src, init, acts); LockLive(end) ==> end.lock.value.owner != c
  {
    OwnerRun(src, init, acts);
  }

  /** A live lock is removed by its owner, or by Redis running out of memory, and by nobody else. */
  lemma OnlyTheOwnerReleases(src: Source, s: State, a: Action)
    requires Enabled(s, a) && LockLive(s)
    ensures Apply(src, s, a).lock != s.lock <==> a == Release(s.lock.value.owner) || a == EvictLock
  {
  }

  ghost predicate LeavesLockTo(acts: seq<Action>, c: nat) {
    Release(c) !in acts && EvictLock !in acts
  }

  lemma {:induction false} LockKept(src: Source, s: State, acts: seq<Action>, c: nat)
    requires Valid(src, s, acts) && LeavesLockTo(acts, c)
    requires LockLive(s) && s.lock.value.owner == c && Run(src, s, acts).clock <= s.lock.value.expires
    ensures Run(src, s, acts).lock == s.lock
    decreases |acts|
  {
    if acts != [] {
      var s' := Apply(src, s, acts[0]);
      assert acts[0] in acts;
      ClockOnlyAdvances(src, s', acts[1..]);
      OnlyTheOwnerReleases(src, s, acts[0]);
      LockKept(src, s', acts[1..], c);
    }
  }

  lemma {:induction false} ClockOnlyAdvances(src: Source, s: State, acts: seq<Action>)
    requires Valid(src, s, acts)
    ensures s.clock <= Run(src, s, acts).clock
    decreases |acts|
  {
    if acts != [] {
      ClockOnlyAdvances(src, Apply(src, s, acts[0]), acts[1..]);
    }
  }

  /** A lock stands from the moment it is taken until its owner releases it, Redis evicts it, or 5000 ms are over,
      whatever the other callers do - their own releases included. */
  lemma LockStandsUntilReleased(src: Source, s: State, c: nat, acts: seq<Action>)
    requires Enabled(s, TryLock(c)) && !LockLive(s) && Valid(src, Apply(src, s, TryLock(c)), acts) &&
             LeavesLockTo(acts, c)
    requires Run(src, Apply(src, s, TryLock(c)), acts).clock <= s.clock + LOCK_TTL_MS
    ensures var end := Run(src, Apply(src, s, TryLock(c)), acts);
            LockLive(end) && end.lock == Some(Lock(c, s.clock + LOCK_TTL_MS))
  {
    LockKept(src, Apply(src, s, TryLock(c)), acts, c);
  }

  /** A process that dies takes no further step, and leaves cache and lock as they are - to run out by themselves. */
  lemma TheDeadTakeNoStep(src: Source, s: State, c: nat, a: Action)
    requires Enabled(s, Crash(c)) && Enabled(Apply(src, s, Crash(c)), a)
    ensures a.Tick? || a.EvictCache? || a.EvictLock? || a.c != c
    ensures Apply(src, s, Crash(c)).cache == s.cache && Apply(src, s, Crash(c)).lock == s.lock
  {
  }

  // ---- What is stored is served ----

  ghost predicate LeavesEntryAlone(acts: seq<Action>) {
    forall a | a in acts :: !a.Store? && !a.EvictCache?
  }

  lemma {:induction false} EntryKept(src: Source, s: State, acts: seq<Action>)
    requires Valid(src, s, acts) && LeavesEntryAlone(acts)
    ensures Run(src, s, acts).cache == s.cache
    decreases |acts|
  {
    if acts != [] {
      assert acts[0] in acts;
      EntryKept(src, Apply(src, s, acts[0]), acts[1..]);
    }
  }

  /** Once a value has been stored with a lifetime of ttl seconds, whoever calls in that time is answered at once with
      it, however many calls have come and gone in between - unless the entry was overwritten or evicted. */
  lemma StoredIsServed(src: Source, s: State, c: nat, ttl: nat, acts: seq<Action>, d: nat)
    requires Enabled(s, Store(c, ttl, false)) && s.callers[c].phase.value.Some?
    requires Valid(src, Apply(src, s, Store(c, ttl, false)), acts) && LeavesEntryAlone(acts)
    requires var end := Run(src, Apply(src, s, Store(c, ttl, false)), acts);
             end.clock <= s.clock + ttl * 1000 && Enabled(end, FirstCheck(d))
    ensures var stored, end := s.callers[c].phase, Run(src, Apply(src, s, Store(c, ttl, false)), acts);
            Apply(src, end, FirstCheck(d)).callers[d].phase ==
            Done(Reply(stored.value, stored.at, s.clock, end.clock, true))
  {
    EntryKept(src, Apply(src, s, Store(c, ttl, false)), acts);
  }

  // ---- Single flight ----

  predicate Unstored(phase: Phase) {
    phase.Holding? || phase.Checked? || phase.Loaded?
  }

  predicate Settled(phase: Phase) {
    phase.Releasing? || phase.Done? || phase.Threw? || phase.Gone?
  }

  /** The callers of an earlier time, whose answer or failure is already decided. */
  function Earlier(s: State): set<nat> {
    set c | c in s.callers && Settled(s.callers[c].phase)
  }

  /** Nothing in the cache, nobody holding, waiting or falling back: the start of a run, or any later moment at which
      the entry is gone and every earlier caller has been answered or has failed. */
  predicate Cold(s: State) {
    !Hit(s) && !LockLive(s) &&
    forall c | c in s.callers ::
      s.callers[c].phase.Fresh? || s.callers[c].phase.Missed? || Settled(s.callers[c].phase)
  }

  /** What the guarantee asks of a step. The lock's winner neither fails nor loses the lock before it has stored, loads
      a value, and stores it in less than the lock's lifetime; the entry is neither evicted nor expired. Anybody else
      may throw or die at any moment, and the winner may once it has stored. */
  predicate Smooth(src: Source, s: State, a: Action) {
    match a
    case Load(_) => src(s.clock).Some?
    case Store(_, _, dropped) => !dropped
    case Throw(c) => Hit(s) || (c in s.callers && !Unstored(s.callers[c].phase))
    case Crash(c) => Hit(s) || (c in s.callers && !Unstored(s.callers[c].phase))
    case EvictCache => !Hit(s)
    case EvictLock => Hit(s) || !LockLive(s)
    case Tick(ms) =>
      if Hit(s) then s.clock + ms <= s.cache.value.expires
      else forall c | c in s.callers && Unstored(s.callers[c].phase) :: s.clock + ms < s.callers[c].lockAt + LOCK_TTL_MS
    case _ => true
  }

  ghost predicate SmoothRun(src: Source, s: State, acts: seq<Action>)
    requires Valid(src, s, acts)
    decreases |acts|
  {
    acts == [] || (Smooth(src, s, acts[0]) && SmoothRun(src, Apply(src, s, acts[0]), acts[1..]))
  }

  /** A caller that is not the winner, while the winner is at work: the last of its polls comes too late to miss. */
  predicate Behind(s: State, w: nat, c: nat)
    requires w in s.callers && c in s.callers
  {
    match s.callers[c].phase
    case Fresh => true
    case Missed => true
    case Waiting(attempt, wakeAt) =>
      attempt < LOCK_WAIT_ATTEMPTS && wakeAt >= s.callers[w].lockAt + LOCK_WAIT_MS * (attempt + 1)
    case Threw => true
    case Gone => true
    case _ => false
  }

  /** Earlier callers stay out of it. */
  ghost predicate Aside(s: State, earlier: set<nat>) {
    forall c {:trigger c in earlier} | c in s.callers && c in earlier :: Settled(s.callers[c].phase)
  }

  ghost predicate InFlight(s: State, earlier: set<nat>, w: nat, before: nat) {
    && w in s.callers && w !in earlier && Unstored(s.callers[w].phase) && !Hit(s)
    && s.lock == Some(Lock(w, s.callers[w].lockAt + LOCK_TTL_MS))
    && s.callers[w].lockAt <= s.clock < s.callers[w].lockAt + LOCK_TTL_MS
    && (s.callers[w].phase.Loaded? ==> s.callers[w].phase.value.Some?)
    && s.loads == before + (if s.callers[w].phase.Loaded? then 1 else 0)
    && forall c {:trigger Behind(s, w, c)} | c in s.callers && c != w && c !in earlier :: Behind(s, w, c)
  }

  predicate Served(phase: Phase, value: Option<nat>) {
    match phase
    case Fresh => true
    case Missed => true
    case Holding => true
    case Waiting(_, _) => true
    case Releasing(reply) => reply.Some? ==> reply.value.value == value
    case Done(reply) => reply.value == value
    case Threw => true
    case Gone => true
    case _ => false
  }

  ghost predicate Warm(s: State, earlier: set<nat>, before: nat) {
    && Hit(s) && s.loads == before + 1
    && forall c {:trigger Served(s.callers[c].phase, s.cache.value.value)} | c in s.callers && c !in earlier ::
         Served(s.callers[c].phase, s.cache.value.value)
  }

  ghost predicate Still(s: State, earlier: set<nat>, before: nat) {
    Cold(s) && s.loads == before &&
    forall c | c in s.callers && c !in earlier :: !s.callers[c].phase.Releasing? && !s.callers[c].phase.Done?
  }

  ghost predicate Flight(s: State, earlier: set<nat>, before: nat) {
    && Aside(s, earlier)
    && (Still(s, earlier, before) || (exists w :: InFlight(s, earlier, w, before)) || Warm(s, earlier, before))
  }

  lemma AsideStep(src: Source, s: State, a: Action, earlier: set<nat>)
    requires Aside(s, earlier) && Enabled(s, a)
    ensures Aside(Apply(src, s, a), earlier)
  {
    assert !a.Tick? && !a.EvictCache? && !a.EvictLock? && a.c in earlier ==> Settled(s.callers[a.c].phase);
  }

  lemma StillStep(src: Source, s: State, a: Action, earlier: set<nat>, before: nat)
    requires Aside(s, earlier) && Still(s, earlier, before) && Enabled(s, a) && Smooth(src, s, a)
    ensures Flight(Apply(src, s, a), earlier, before)
  {
    var s' := Apply(src, s, a);
    AsideStep(src, s, a, earlier);
    if a.TryLock? {
      assert a.c !in earlier;
      forall c | c in s'.callers && c != a.c && c !in earlier ensures Behind(s', a.c, c) {
      }
      assert InFlight(s', earlier, a.c, before);
    } else {
      assert Still(s', earlier, before);
    }
  }

  lemma StoreWarms(src: Source, s: State, a: Action, earlier: set<nat>, w: nat, before: nat)
    requires Aside(s, earlier) && InFlight(s, earlier, w, before) && Enabled(s, a) && Smooth(src, s, a) && a.Store?
    ensures Warm(Apply(src, s, a), earlier, before)
  {
    var s' := Apply(src, s, a);
    assert a.c !in earlier;
    assert a.c != w ==> Behind(s, w, a.c);
    forall c | c in s'.callers && c !in earlier ensures Served(s'.callers[c].phase, s'.cache.value.value) {
      assert c != w ==> Behind(s, w, c);
    }
  }

  lemma InFlightStep(src: Source, s: State, a: Action, earlier: set<nat>, w: nat, before: nat)
    requires Aside(s, earlier) && InFlight(s, earlier, w, before) && Enabled(s, a) && Smooth(src, s, a) && !a.Store?
    ensures InFlight(Apply(src, s, a), earlier, w, before)
  {
    var s' := Apply(src, s, a);
    if !a.Tick? && !a.EvictCache? && !a.EvictLock? {
      assert a.c in earlier ==> Settled(s.callers[a.c].phase);
      assert a.c != w && a.c !in earlier ==> Behind(s, w, a.c);
    }
    forall c | c in s'.callers && c != w && c !in earlier ensures Behind(s', w, c) {
      assert Behind(s, w, c);
    }
  }

  lemma WarmStep(src: Source, s: State, a: Action, earlier: set<nat>, before: nat)
    requires Aside(s, earlier) && Warm(s, earlier, before) && Enabled(s, a) && Smooth(src, s, a)
    ensures Warm(Apply(src, s, a), earlier, before) && Apply(src, s, a).cache == s.cache
  {
    var s' := Apply(src, s, a);
    if !a.Tick? && !a.EvictCache? && !a.EvictLock? {
      assert a.c in earlier ==> Settled(s.callers[a.c].phase);
      assert a.c !in earlier ==> Served(s.callers[a.c].phase, s.cache.value.value);
    }
    forall c | c in s'.callers && c !in earlier ensures Served(s'.callers[c].phase, s'.cache.value.value) {
      assert Served(s.callers[c].phase, s.cache.value.value);
    }
  }

  lemma FlightStep(src: Source, s: State, a: Action, earlier: set<nat>, before: nat)
    requires Flight(s, earlier, before) && Enabled(s, a) && Smooth(src, s, a)
    ensures Flight(Apply(src, s, a), earlier, before)
  {
    AsideStep(src, s, a, earlier);
    if Still(s, earlier, before) {
      StillStep(src, s, a, earlier, before);
    } else if w :| InFlight(s, earlier, w, before) {
      if a.Store? {
        StoreWarms(src, s, a, earlier, w, before);
      } else {
        InFlightStep(src, s, a, earlier, w, before);
      }
    } else {
      WarmStep(src, s, a, earlier, before);
    }
  }

  lemma {:induction false} FlightRun(src: Source, s: State, acts: seq<Action>, earlier: set<nat>, before: nat)
    requires Flight(s, earlier, before) && Valid(src, s, acts) && SmoothRun(src, s, acts)
    ensures Flight(Run(src, s, acts), earlier, before)
    decreases |acts|
  {
    if acts != [] {
      FlightStep(src, s, acts[0], earlier, before);
      FlightRun(src, Apply(src, s, acts[0]), acts[1..], earlier, before);
    }
  }

  lemma FlightServes(s: State, earlier: set<nat>, before: nat, c: nat)
    requires Flight(s, earlier, before) && c in s.callers
    ensures before <= s.loads <= before + 1 && !s.callers[c].phase.Fallback? && !s.callers[c].phase.FallbackLoaded?
    ensures s.callers[c].phase.Holding? && s.loads > before ==> Hit(s)
    ensures s.callers[c].phase.Done? && c !in earlier ==>
              s.loads == before + 1 && Hit(s) && s.callers[c].phase.reply.value == s.cache.value.value
  {
    if c in earlier {
      assert Settled(s.callers[c].phase);
    } else if w :| InFlight(s, earlier, w, before) {
      assert c != w ==> Behind(s, w, c);
    } else if Warm(s, earlier, before) {
      assert Served(s.callers[c].phase, s.cache.value.value);
    }
  }

  /** From a cold key, however many callers interleave and whichever of them throw or die: if the lock's winner stores a
      value in less than 5000 ms, the loader runs exactly once until the entry expires, nobody falls back, and all who
      return got that value. */
  lemma SingleFlight(src: Source, s: State, acts: seq<Action>, c: nat)
    requires Cold(s) && Valid(src, s, acts) && SmoothRun(src, s, acts) && c in Run(src, s, acts).callers
    ensures var end := Run(src, s, acts);
            && end.loads <= s.loads + 1
            && !end.callers[c].phase.Fallback? && !end.callers[c].phase.FallbackLoaded?
            && (end.callers[c].phase.Done? && c !in Earlier(s) ==>
                  end.loads == s.loads + 1 && Hit(end) && end.callers[c].phase.reply.value == end.cache.value.value)
  {
    assert Still(s, Earlier(s), s.loads);
    FlightRun(src, s, acts, Earlier(s), s.loads);
    FlightServes(Run(src, s, acts), Earlier(s), s.loads, c);
  }

  /** Every later winner of the lock hits on its second check. */
  lemma LaterWinnersHit(src: Source, s: State, acts: seq<Action>, c: nat)
    requires Cold(s) && Valid(src, s, acts) && SmoothRun(src, s, acts)
    requires Run(src, s, acts).loads > s.loads && Enabled(Run(src, s, acts), SecondCheck(c))
    ensures Apply(src, Run(src, s, acts), SecondCheck(c)).callers[c].phase.Releasing?
  {
    assert Still(s, Earlier(s), s.loads);
    FlightRun(src, s, acts, Earlier(s), s.loads);
    FlightServes(Run(src, s, acts), Earlier(s), s.loads, c);
  }

  // ---- What a slow winner costs ----

  lemma {:induction false} Extend(src: Source, s: State, acts: seq<Action>, a: Action)
    requires Valid(src, s, acts) && Enabled(Run(src, s, acts), a)
    ensures Valid(src, s, acts + [a]) && Run(src, s, acts + [a]) == Apply(src, Run(src, s, acts), a)
    decreases |acts|
  {
    if acts == [] {
      assert [a][1..] == [];
    } else {
      Extend(src, Apply(src, s, acts[0]), acts[1..], a);
      assert (acts + [a])[1..] == acts[1..] + [a];
    }
  }

  lemma {:induction false} RunConcat(src: Source, s: State, first: seq<Action>, second: seq<Action>)
    requires Valid(src, s, first) && Valid(src, Run(src, s, first), second)
    ensures Valid(src, s, first + second) && Run(src, s, first + second) == Run(src, Run(src, s, first), second)
    decreases |second|
  {
    if second == [] {
      assert first + [] == first;
    } else {
      Extend(src, s, first, second[0]);
      RunConcat(src, s, first + [second[0]], second[1..]);
      assert first + [second[0]] + second[1..] == first + second;
    }
  }

  function Climb(c: nat): seq<Action> {
    [FirstCheck(c), TryLock(c), SecondCheck(c)]
  }

  lemma ClimbsToLoad(src: Source, s: State, c: nat)
    requires !Hit(s) && !LockLive(s) && c in s.callers && s.callers[c].phase.Fresh?
    ensures Valid(src, s, Climb(c))
    ensures var end := Run(src, s, Climb(c));
            && end == With(s, c, Caller(Checked, s.clock, s.callers[c].lookups + 2, s.callers[c].loads,
                     s.callers[c].stores))
                      .(lock := Some(Lock(c, s.clock + LOCK_TTL_MS)))
  {
    Extend(src, s, [], FirstCheck(c));
    assert [] + [FirstCheck(c)] == [FirstCheck(c)];
    Extend(src, s, [FirstCheck(c)], TryLock(c));
    assert [FirstCheck(c)] + [TryLock(c)] == [FirstCheck(c), TryLock(c)];
    Extend(src, s, [FirstCheck(c), TryLock(c)], SecondCheck(c));
    assert [FirstCheck(c), TryLock(c)] + [SecondCheck(c)] == Climb(c);
    assert Run(src, s, Climb(c)).callers ==
           s.callers[c := Caller(Checked, s.clock, s.callers[c].lookups + 2, s.callers[c].loads,
                     s.callers[c].stores)];
  }

  /** A winner that is still loading when its lock has expired lets a second one in: nothing goes wrong, but the
      loader runs twice. */
  lemma SlowWinnerLoadsTwice(src: Source, s: State, c: nat, d: nat)
    requires Cold(s) && c in s.callers && d in s.callers && c != d && s.callers[c].phase.Fresh? &&
             s.callers[d].phase.Fresh?
    ensures var acts := Climb(c) + [Tick(LOCK_TTL_MS + 1)] + Climb(d) + [Load(c)] + [Load(d)];
            Valid(src, s, acts) && Run(src, s, acts).loads == s.loads + 2
  {
    ClimbsToLoad(src, s, c);
    Extend(src, s, Climb(c), Tick(LOCK_TTL_MS + 1));
    var s1 := Run(src, s, Climb(c) + [Tick(LOCK_TTL_MS + 1)]);
    ClimbsToLoad(src, s1, d);
    RunConcat(src, s, Climb(c) + [Tick(LOCK_TTL_MS + 1)], Climb(d));
    Extend(src, s, Climb(c) + [Tick(LOCK_TTL_MS + 1)] + Climb(d), Load(c));
    Extend(src, s, Climb(c) + [Tick(LOCK_TTL_MS + 1)] + Climb(d) + [Load(c)], Load(d));
  }

  // ---- How long a waiter waits ----

  /** n naps, each followed at once by a look at the cache. */
  function Naps(c: nat, n: nat): seq<Action> {
    if n == 0 then [] else Naps(c, n - 1) + [Tick(LOCK_WAIT_MS)] + [Poll(c)]
  }

  lemma {:induction false} NapsRun(src: Source, s: State, c: nat, n: nat)
    requires c in s.callers && s.callers[c].phase == Waiting(0, s.clock + LOCK_WAIT_MS) && s.cache.None? &&
             n <= LOCK_WAIT_ATTEMPTS
    ensures Valid(src, s, Naps(c, n))
    ensures var end, caller := Run(src, s, Naps(c, n)), s.callers[c];
            && end.clock == s.clock + LOCK_WAIT_MS * n && end.cache.None? && end.lock == s.lock && c in end.callers
            && end.callers[c].phase == if n < LOCK_WAIT_ATTEMPTS then Waiting(n, end.clock + LOCK_WAIT_MS) else Fallback
  {
    if n != 0 {
      NapsRun(src, s, c, n - 1);
      Extend(src, s, Naps(c, n - 1), Tick(LOCK_WAIT_MS));
      Extend(src, s, Naps(c, n - 1) + [Tick(LOCK_WAIT_MS)], Poll(c));
    }
  }

  /** 200 naps of 25 ms are the lock's lifetime to the millisecond: a waiter that met the lock the moment it was taken,
      and finds nothing, falls back while that lock still stands. So "less than 5000 ms" cannot be "at most". */
  lemma WaiterFallsBackAsTheLockRunsOut(src: Source, s: State, c: nat)
    requires c in s.callers && s.callers[c].phase.Missed? && s.cache.None?
    requires s.lock.Some? && s.lock.value.expires == s.clock + LOCK_TTL_MS
    ensures Valid(src, Apply(src, s, TryLock(c)), Naps(c, LOCK_WAIT_ATTEMPTS))
    ensures var end := Run(src, Apply(src, s, TryLock(c)), Naps(c, LOCK_WAIT_ATTEMPTS));
            end.clock == s.clock + LOCK_TTL_MS && LockLive(end) && c in end.callers && end.callers[c].phase.Fallback?
  {
    NapsRun(src, Apply(src, s, TryLock(c)), c, LOCK_WAIT_ATTEMPTS);
  }
}
