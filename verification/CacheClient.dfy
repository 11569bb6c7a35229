/**
 * One call of the cache-aside client, statement by statement, with other callers at work between any two of its
 * statements. The call and what happened around it are recorded as a run of the machine in `Cache`.
 */
module CacheClients {
  import opened Options
  import opened Cache

  /** Some run of the machine goes from s to t. */
  ghost predicate Leads(src: Source, s: State, t: State) {
    exists acts :: Valid(src, s, acts) && Run(src, s, acts) == t
  }

  /** Some run goes from s to t in which the caller c takes no step. */
  ghost predicate LeadsWithout(src: Source, s: State, t: State, c: nat) {
    exists acts :: Valid(src, s, acts) && Run(src, s, acts) == t && forall a | a in acts :: !Ours(a, c)
  }

  predicate Ours(a: Action, c: nat) {
    !a.Tick? && !a.EvictCache? && !a.EvictLock? && a.c == c
  }

  lemma LeadsHere(src: Source, s: State)
    ensures Leads(src, s, s)
  {
    assert Valid(src, s, []) && Run(src, s, []) == s;
  }

  lemma LeadsOneStepOn(src: Source, s: State, t: State, a: Action)
    requires Leads(src, s, t) && Enabled(t, a)
    ensures Leads(src, s, Apply(src, t, a))
  {
    var acts :| Valid(src, s, acts) && Run(src, s, acts) == t;
    Extend(src, s, acts, a);
  }

  lemma LeadsOn(src: Source, s: State, t: State, u: State, c: nat)
    requires Leads(src, s, t) && LeadsWithout(src, t, u, c)
    ensures Leads(src, s, u)
  {
    var first :| Valid(src, s, first) && Run(src, s, first) == t;
    var second :| Valid(src, t, second) && Run(src, t, second) == u && forall a | a in second :: !Ours(a, c);
    RunConcat(src, s, first, second);
  }

  lemma {:induction false} OthersLeaveUs(src: Source, s: State, acts: seq<Action>, c: nat)
    requires Valid(src, s, acts) && c in s.callers && forall a | a in acts :: !Ours(a, c)
    ensures c in Run(src, s, acts).callers && Run(src, s, acts).callers[c] == s.callers[c]
    decreases |acts|
  {
    if acts != [] {
      assert acts[0] in acts;
      OthersLeaveUs(src, Apply(src, s, acts[0]), acts[1..], c);
    }
  }

  lemma WaitingLeavesUs(src: Source, s: State, t: State, c: nat)
    requires LeadsWithout(src, s, t, c) && c in s.callers
    ensures c in t.callers && t.callers[c] == s.callers[c]
  {
    var acts :| Valid(src, s, acts) && Run(src, s, acts) == t && forall a | a in acts :: !Ours(a, c);
    OthersLeaveUs(src, s, acts, c);
  }

  lemma DoneIsSound(src: Source, init: State, s: State, c: nat)
    requires Init(init) && Leads(src, init, s) && c in s.callers && s.callers[c].phase.Done?
    ensures ReplyOk(src, s.callers[c].phase.reply, s.clock)
    ensures LockLive(s) ==> s.lock.value.owner != c
  {
    var acts :| Valid(src, init, acts) && Run(src, init, acts) == s;
    ReachedInv(src, init, acts);
    assert CallerOk(src, s, s.callers[c]);
    AnsweredLeavesNoLock(src, init, acts, c);
  }

  lemma FallbackHoldsNoLock(src: Source, init: State, s: State, c: nat)
    requires Init(init) && Leads(src, init, s) && c in s.callers && s.callers[c].phase.Fallback?
    ensures LockLive(s) ==> s.lock.value.owner != c
  {
    var acts :| Valid(src, init, acts) && Run(src, init, acts) == s;
    AnsweredLeavesNoLock(src, init, acts, c);
  }

  /** `lookups` and `loads` count this client's reads of the cache and calls of the loader. `state` is the state of the
      machine that the calls and whatever happened around them have led to from `start`. */
  class CacheClient {
    const source: Source
    var clock: nat
    var cache: Option<Entry>
    var lock: Option<Lock>
    var lookups: nat
    var loads: nat
    ghost const start: State
    ghost var state: State

    constructor (source: Source, ghost tokens: set<nat>)
      ensures Running() && this.source == source && lookups == 0 && loads == 0 && Init(start) && state == start
      ensures forall t | t in tokens :: IsFresh(t)
    {
      this.source, clock, cache, lock, lookups, loads := source, 0, None, None, 0, 0;
      var all := State(0, None, None, map t | t in tokens :: Caller(Fresh, 0, 0, 0, []), 0);
      start, state := all, all;
      LeadsHere(source, all);
    }

    ghost predicate InStep()
      reads this
    {
      clock == state.clock && cache == state.cache && lock == state.lock
    }

    ghost predicate Running()
      reads this
    {
      Leads(source, start, state) && InStep()
    }

    ghost predicate IsFresh(token: nat)
      reads this
    {
      token in state.callers && state.callers[token] == Caller(Fresh, 0, 0, 0, [])
    }

    /** The lock has not expired and carries this token. */
    ghost predicate Owns(token: nat)
      reads this
    {
      LockLive(state) && state.lock.value.owner == token
    }

    ghost method Record(a: Action)
      requires Leads(source, start, state) && Enabled(state, a)
      modifies `state
      ensures Leads(source, start, state) && state == Apply(source, old(state), a)
    {
      LeadsOneStepOn(source, start, state, a);
      state := Apply(source, state, a);
    }

    /** At least ms milliseconds go by, during which others take any steps of theirs. Callers of this method may rely on
        its contract only: what the others do is a run of the machine, and no step of it is taken in our name. */
    method Elsewhere(ms: nat, token: nat)
      requires Running()
      modifies `clock, `cache, `lock, `state
      ensures InStep() && clock >= old(clock) + ms && LeadsWithout(source, old(state), state, token)
    {
      clock := clock + ms;
      Extend(source, state, [], Tick(ms));
      assert [] + [Tick(ms)] == [Tick(ms)];
      Record(Tick(ms));
    }

    /** The same, from where the call with this token stands. */
    method Meanwhile(ms: nat, token: nat)
      requires Running() && token in state.callers
      modifies `clock, `cache, `lock, `state
      ensures Running() && clock >= old(clock) + ms
      ensures token in state.callers && state.callers[token] == old(state).callers[token]
    {
      Elsewhere(ms, token);
      LeadsOn(source, start, old(state), state, token);
      WaitingLeavesUs(source, old(state), state, token);
    }

    method GetCachedJson() returns (hit: Option<Reply>)
      requires InStep()
      modifies `lookups
      ensures lookups == old(lookups) + 1
      ensures hit == if Hit(state) then Some(CachedReply(state)) else None
    {
      lookups := lookups + 1;
      if cache.None? || clock > cache.value.expires || cache.value.value.None? {
        return None;
      }
      return Some(Reply(cache.value.value, cache.value.loadedAt, cache.value.storedAt, clock, true));
    }

    /** One call of the loader: the source's value at this moment, or its error. */
    method CallLoader(fails: bool) returns (value: Option<nat>, loadedAt: nat, ok: bool)
      modifies `loads
      ensures loads == old(loads) + 1
      ensures value == source(loadedAt) && loadedAt == clock && ok == !fails
    {
      loads := loads + 1;
      return source(clock), clock, !fails;
    }

    /** A store that Redis refuses is swallowed; the lifetime drawn is returned all the same. */
    method SetCachedJson(value: Option<nat>, loadedAt: nat, random: real, dropped: bool) returns (ttl: int)
      requires 0.0 <= random < 1.0
      modifies this`cache
      ensures ttl == GetCacheTtlSeconds(random)
      ensures dropped ==> cache == old(cache)
      ensures !dropped ==>
                && cache.Some? && cache.value.value == value && cache.value.expires == clock + ttl * 1000
                && cache.value.loadedAt == loadedAt && cache.value.storedAt == clock
    {
      ttl := GetCacheTtlSeconds(random);
      if !dropped {
        cache := Some(Entry(value, clock + ttl * 1000, loadedAt, clock));
      }
    }

    /** SET NX PX */
    method TryLock(token: nat) returns (locked: bool)
      modifies this`lock
      ensures locked <==> !(old(lock).Some? && clock <= old(lock).value.expires)
      ensures lock == if locked then Some(Lock(token, clock + 5000)) else old(lock)
    {
      if lock.Some? && clock <= lock.value.expires {
        return false;
      }
      lock := Some(Lock(token, clock + LOCK_TTL_MS));
      return true;
    }

    /** Compare and delete. */
    method ReleaseLock(token: nat)
      modifies this`lock
      ensures lock == if old(lock).Some? && clock <= old(lock).value.expires && old(lock).value.owner == token then None
                      else old(lock)
    {
      if lock.Some? && clock <= lock.value.expires && lock.value.owner == token {
        lock := None;
      }
    }

    // The call's statements, each with the step of the machine that it is.

    method Look(token: nat, ghost a: Action) returns (hit: Option<Reply>)
      requires Running() && Enabled(state, a)
      requires a == FirstCheck(token) || a == SecondCheck(token) || a == Poll(token)
      modifies `lookups, `state
      ensures Running() && lookups == old(lookups) + 1 && (hit.Some? ==> hit.value.cached)
      ensures token in state.callers && state.callers[token].stores == old(state).callers[token].stores
      ensures var phase := state.callers[token].phase;
              if hit.None? then phase == match a
                                         case Poll(_) => Polled(old(state).callers[token].phase.attempt, clock)
                                         case FirstCheck(_) => Missed
                                         case _ => Checked
              else if a.SecondCheck? then phase == Releasing(hit) else phase == Done(hit.value)
    {
      hit := GetCachedJson();
      Record(a);
    }

    method TakeLock(token: nat) returns (locked: bool)
      requires Running() && token in state.callers && state.callers[token].phase.Missed?
      modifies `lock, `state
      ensures Running() && token in state.callers
      ensures state.callers[token].stores == old(state).callers[token].stores
      ensures state.callers[token].phase == if locked then Holding else Waiting(0, clock + LOCK_WAIT_MS)
    {
      locked := TryLock(token);
      Record(Action.TryLock(token));
    }

    /** The loader's error ends the call, by way of the release if it holds the lock. */
    method LoadValue(token: nat, fails: bool) returns (value: Option<nat>, loadedAt: nat, ok: bool)
      requires Running() && token in state.callers
      requires state.callers[token].phase.Checked? || state.callers[token].phase.Fallback?
      modifies `loads, `state
      ensures Running() && token in state.callers && loads == old(loads) + 1 && ok == !fails
      ensures state.lock == old(state).lock
      ensures state.callers[token].stores == old(state).callers[token].stores
      ensures state.callers[token].phase ==
              if old(state).callers[token].phase.Checked? then (if ok then Loaded(value, loadedAt) else Releasing(None))
              else if ok then FallbackLoaded(value, loadedAt) else Threw
    {
      value, loadedAt, ok := CallLoader(fails);
      Record(if ok then Load(token) else Throw(token));
    }

    method StoreValue(token: nat, value: Option<nat>, loadedAt: nat, random: real, dropped: bool) returns (reply: Reply)
      requires Running() && token in state.callers && 0.0 <= random < 1.0
      requires state.callers[token].phase == Loaded(value, loadedAt) ||
               state.callers[token].phase == FallbackLoaded(value, loadedAt)
      modifies `cache, `state
      ensures Running() && token in state.callers && !reply.cached
      ensures state.callers[token].stores ==
              old(state).callers[token].stores + [Stored(GetCacheTtlSeconds(random), dropped)]
      ensures state.callers[token].phase ==
              if old(state).callers[token].phase.Loaded? then Releasing(Some(reply)) else Done(reply)
    {
      var ttl := SetCachedJson(value, loadedAt, random, dropped);
      Record(Store(token, ttl, dropped));
      reply := Reply(value, loadedAt, loadedAt, clock, false);
    }

    method GiveUpLock(token: nat)
      requires Running() && token in state.callers && state.callers[token].phase.Releasing?
      modifies `lock, `state
      ensures Running() && !Owns(token) && token in state.callers
      ensures state.callers[token].stores == old(state).callers[token].stores
      ensures var reply := old(state).callers[token].phase.toReturn;
              state.callers[token].phase == if reply.Some? then Done(reply.value) else Threw
    {
      ReleaseLock(token);
      Record(Release(token));
    }

    /** The load and the store, under the lock or without it. */
    method LoadAndStore(token: nat, random: real, loaderFails: bool, dropped: bool) returns (r: Option<Reply>)
      requires Running() && 0.0 <= random < 1.0 && token in state.callers && state.callers[token].stores == []
      requires state.callers[token].phase.Checked? || state.callers[token].phase.Fallback?
      modifies this
      ensures Running() && clock >= old(clock) && token in state.callers
      ensures loads == old(loads) + 1 && lookups == old(lookups) && (r.None? <==> loaderFails)
      ensures r.Some? ==> !r.value.cached
      ensures r.None? ==> state.lock == old(state).lock && clock == old(clock)
      ensures state.callers[token].phase ==
              if old(state).callers[token].phase.Checked? then Releasing(r)
              else if r.Some? then Done(r.value) else Threw
      ensures state.callers[token].stores ==
              if r.Some? then [Stored(GetCacheTtlSeconds(random), dropped)] else []
    {
      var value, loadedAt, ok := LoadValue(token, loaderFails);
      if !ok {
        return None;
      }
      Meanwhile(0, token);
      var reply := StoreValue(token, value, loadedAt, random, dropped);
      return Some(reply);
    }

    /** The winner's part: second check, load, store - and the release, whatever happened. */
    method LoadUnderLock(token: nat, random: real, loaderFails: bool, dropped: bool) returns (r: Option<Reply>)
      requires Running() && 0.0 <= random < 1.0 && token in state.callers && state.callers[token].phase.Holding?
      requires state.callers[token].stores == []
      modifies this
      ensures Running() && !Owns(token) && clock >= old(clock) && token in state.callers
      ensures r.Some? ==> state.callers[token].phase == Done(r.value)
      ensures r.None? ==> loaderFails && state.callers[token].phase == Threw
      ensures lookups == old(lookups) + 1
      ensures loads == old(loads) + if r.Some? && r.value.cached then 0 else 1
      ensures state.callers[token].stores ==
              if r.Some? && !r.value.cached then [Stored(GetCacheTtlSeconds(random), dropped)] else []
    {
      r := Look(token, SecondCheck(token));
      if r.None? {
        Meanwhile(0, token);
        r := LoadAndStore(token, random, loaderFails, dropped);
      }
      Meanwhile(0, token);
      GiveUpLock(token);
    }

    /** Whatever the others do: the call and what they did make a run of the machine, in which this caller ends with the
        reply returned; it has stored the value it loaded, once and with the lifetime drawn, if it loaded one, and
        otherwise nothing. The answer is the source's value at some moment - within the cache's 360 seconds if it came
        from there -, at most one load and 201 looks at the cache are spent on it, the lock is not left behind, and
        the source is asked without it only after a whole lock lifetime has been waited out. */
    method GetOrLoadCached(token: nat, random: real, loaderFails: bool, dropped: bool)
      returns (r: Option<Reply>, fellBack: bool)
      requires Init(start) && Running() && 0.0 <= random < 1.0 && IsFresh(token)
      modifies this
      ensures Running() && token in state.callers && !Owns(token)
      ensures r.Some? ==> state.callers[token].phase == Done(r.value) && ReplyOk(source, r.value, clock)
      ensures r.None? ==> loaderFails && state.callers[token].phase == Threw
      ensures state.callers[token].stores ==
              if r.Some? && !r.value.cached then [Stored(GetCacheTtlSeconds(random), dropped)] else []
      ensures loads == old(loads) + if r.Some? && r.value.cached then 0 else 1
      ensures old(lookups) < lookups <= old(lookups) + 201
      ensures fellBack ==> loads == old(loads) + 1 && clock >= old(clock) + LOCK_TTL_MS
      ensures loads == old(loads) + 1 && !fellBack ==> lookups == old(lookups) + 2
    {
      fellBack := false;
      r := Look(token, FirstCheck(token));
      if r.None? {
        Meanwhile(0, token);
        var locked := TakeLock(token);
        if locked {
          Meanwhile(0, token);
          r := LoadUnderLock(token, random, loaderFails, dropped);
        } else {
          r, fellBack := WaitForTheWinner(token, random, loaderFails, dropped);
        }
      }
      if r.Some? {
        DoneIsSound(source, start, state, token);
      }
    }

    /** The loser's part: up to 200 looks, 25 ms apart, and then the source itself. */
    method WaitForTheWinner(token: nat, random: real, loaderFails: bool, dropped: bool)
      returns (r: Option<Reply>, fellBack: bool)
      requires Init(start) && Running() && 0.0 <= random < 1.0 && token in state.callers
      requires state.callers[token].phase == Waiting(0, clock + LOCK_WAIT_MS) && state.callers[token].stores == []
      modifies this
      ensures Running() && token in state.callers
      ensures r.Some? ==> state.callers[token].phase == Done(r.value) && (r.value.cached <==> !fellBack)
      ensures r.None? ==> loaderFails && fellBack && state.callers[token].phase == Threw && !Owns(token)
      ensures state.callers[token].stores ==
              if r.Some? && !r.value.cached then [Stored(GetCacheTtlSeconds(random), dropped)] else []
      ensures loads == old(loads) + (if fellBack then 1 else 0) && old(lookups) <= lookups <= old(lookups) + 200
      ensures fellBack ==> clock >= old(clock) + LOCK_TTL_MS
    {
      r := None;
      for attempt := 0 to LOCK_WAIT_ATTEMPTS
        invariant Running() && clock >= old(clock) + LOCK_WAIT_MS * attempt
        invariant lookups == old(lookups) + attempt && loads == old(loads)
        invariant token in state.callers && state.callers[token].stores == []
        invariant state.callers[token].phase ==
                  if attempt < LOCK_WAIT_ATTEMPTS then Waiting(attempt, clock + LOCK_WAIT_MS) else Fallback
      {
        Meanwhile(LOCK_WAIT_MS, token);
        r := Look(token, Poll(token));
        if r.Some? {
          return r, false;
        }
      }
      fellBack := true;
      FallbackHoldsNoLock(source, start, state, token);
      r := LoadAndStore(token, random, loaderFails, dropped);
    }
  }
}
