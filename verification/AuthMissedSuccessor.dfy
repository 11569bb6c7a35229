/** Why a logout must present the newest token: while the newest one is active, a logout that presents a used token can
    always commit beside a rotation in flight, whose new token its snapshot never saw. */
module AuthMissedSuccessor {
  import opened Options
  import opened Auth
  import opened AuthTransactions
  import opened AuthInvariant

  // ---- Runs ----

  lemma {:induction false} Extend(s: State, acts: seq<Action>, a: Action)
    requires Valid(s, acts) && Enabled(Run(s, acts), a)
    ensures Valid(s, acts + [a]) && Run(s, acts + [a]) == Apply(Run(s, acts), a)
    decreases |acts|
  {
    if acts == [] {
      assert [a][1..] == [];
    } else {
      Extend(Apply(s, acts[0]), acts[1..], a);
      assert (acts + [a])[1..] == acts[1..] + [a];
    }
  }

  lemma {:induction false} RunConcat(s: State, first: seq<Action>, second: seq<Action>)
    requires Valid(s, first) && Valid(Run(s, first), second)
    ensures Valid(s, first + second) && Run(s, first + second) == Run(Run(s, first), second)
    decreases |first|
  {
    if first == [] {
      assert first + second == second;
    } else {
      RunConcat(Apply(s, first[0]), first[1..], second);
      assert (first + second)[1..] == first[1..] + second;
    }
  }

  /** t can follow s. */
  ghost predicate Leads(s: State, t: State) {
    exists acts :: Valid(s, acts) && Run(s, acts) == t
  }

  lemma LeadsHere(s: State)
    ensures Leads(s, s)
  {
    assert Valid(s, []) && Run(s, []) == s;
  }

  lemma Step(s: State, t: State, a: Action) returns (t': State)
    requires Leads(s, t) && Enabled(t, a)
    ensures t' == Apply(t, a) && Leads(s, t')
  {
    t' := Apply(t, a);
    var acts :| Valid(s, acts) && Run(s, acts) == t;
    Extend(s, acts, a);
  }

  lemma LeadsOn(s: State, t: State, u: State)
    requires Leads(s, t) && Leads(t, u)
    ensures Leads(s, u)
  {
    var first :| Valid(s, first) && Run(s, first) == t;
    var second :| Valid(t, second) && Run(t, second) == u;
    RunConcat(s, first, second);
  }

  // ---- An undisturbed rotation, and a logout up to its snapshot ----

  /** Nobody else holds a lock. */
  predicate Quiet(s: State, c: nat) {
    c in s.txs && s.txs[c].phase.Fresh? && HoldsNothing(s.txs[c]) && forall d | d in s.txs &&
        d != c :: HoldsNothing(s.txs[d])
  }

  /** A rotation of token h by request c, up to its insert. */
  function InFlight(s: State, c: nat, newToken: nat, jti: nat): Tx
    requires c in s.txs && s.txs[c].request.token in s.db.tokens
  {
    var h, now := s.txs[c].request.token, s.clock;
    var row := s.db.tokens[h];
    Tx(s.txs[c].request, Inserted, row.family, true, now, now, now, newToken, jti,
       map[h := row.(used := Some(now))], Some(row.user), map[newToken := NewToken(row.family, row.user, now)], {})
  }

  predicate CanRotate(s: State, c: nat) {
    c in s.txs && s.txs[c].request.RefreshOf? && s.txs[c].request.token in s.db.tokens &&
    Active(s.db.tokens[s.txs[c].request.token], s.clock) && s.db.tokens[s.txs[c].request.token].used.None?
  }

  lemma UninterruptedRotation(s: State, c: nat, newToken: nat, jti: nat) returns (s': State)
    requires Quiet(s, c) && CanRotate(s, c)
    requires newToken !in s.drawn && jti !in s.drawn && newToken != jti
    ensures Leads(s, s')
    ensures s' == With(s, c, InFlight(s, c, newToken, jti)).(drawn := s.drawn + {newToken, jti})
  {
    var h := s.txs[c].request.token;
    LeadsHere(s);
    var s1 := Step(s, s, Begin(c));
    assert s1.txs[c] == s.txs[c].(phase := Begun, startedAt := s.clock, checkedAt := s.clock);
    var s2 := Step(s, s1, Lock(c));
    assert s2.txs[c].writes == map[h := s.db.tokens[h]];
    var s3 := Step(s, s2, MarkUsed(c));
    assert s3.txs[c].writes == map[h := s.db.tokens[h].(used := Some(s.clock))];
    s' := Step(s, s3, InsertNext(c, newToken, jti));
    assert s'.txs[c] == InFlight(s, c, newToken, jti);
    assert s'.txs == s.txs[c := s'.txs[c]];
  }

  /** A logout by request c that has taken its snapshot and revoked, so far, the row it presented. */
  function MidLogout(s: State, c: nat): Tx
    requires c in s.txs && s.txs[c].request.token in s.db.tokens
  {
    var h, now := s.txs[c].request.token, s.clock;
    var row := s.db.tokens[h];
    s.txs[c].(phase := Revoking, family := row.family, live := row.used.None?, startedAt := now, checkedAt := now,
              writes := map[h := Revoked(row, now)], pending := Family(s.db, row.family) - {h})
  }

  /** c is about to log out with a genuine pair. */
  predicate PresentsPair(s: State, c: nat) {
    c in s.txs && s.txs[c].phase.Fresh? && s.txs[c].request.LogoutOf? &&
    Genuine(s.issued, s.txs[c].request.access, s.clock) && s.txs[c].request.token in s.db.tokens &&
    var access, row := s.txs[c].request.access.value, s.db.tokens[s.txs[c].request.token];
    access.family == row.family && access.sub == row.user
  }

  lemma LogoutUpToItsLock(s: State, c: nat) returns (s': State)
    requires PresentsPair(s, c) && HoldsNothing(s.txs[c]) && RowFree(s, c, s.txs[c].request.token)
    ensures Leads(s, s')
    ensures var h := s.txs[c].request.token;
            s' == With(s, c, MidLogout(s, c).(phase := Chosen, writes := map[h := s.db.tokens[h]], pending := {}))
  {
    var h := s.txs[c].request.token;
    LeadsHere(s);
    var s1 := Step(s, s, Begin(c));
    s' := Step(s, s1, Lock(c));
    assert s'.txs[c].writes == map[h := s.db.tokens[h]];
    assert s'.txs == s.txs[c := s'.txs[c]];
  }

  lemma LogoutUpToItsSnapshot(s: State, c: nat) returns (s': State)
    requires PresentsPair(s, c) && HoldsNothing(s.txs[c]) && RowFree(s, c, s.txs[c].request.token)
    ensures Leads(s, s') && s' == With(s, c, MidLogout(s, c))
  {
    var h := s.txs[c].request.token;
    var s2 := LogoutUpToItsLock(s, c);
    var s3 := Step(s, s2, Snapshot(c));
    assert h in s3.txs[c].pending;
    s' := Step(s, s3, RevokeRow(c, h));
    assert s'.txs[c].writes == map[h := Revoked(s.db.tokens[h], s.clock)];
    assert s'.txs == s.txs[c := s'.txs[c]];
  }

  // ---- The rest of the logout ----

  /** c is revoking and everybody else holds nothing. */
  predicate RevokingAlone(s: State, c: nat) {
    && c in s.txs && s.txs[c].phase.Revoking? && s.txs[c].inserted == map[] && s.txs[c].pending <= s.db.tokens.Keys
    && forall d | d in s.txs && d != c :: HoldsNothing(s.txs[d])
  }

  /** Only c's own rows have changed. */
  predicate SameButWrites(s: State, t: State, c: nat) {
    && c in s.txs && c in t.txs && t.db == s.db && t.clock == s.clock && t.txs.Keys == s.txs.Keys
    && t.txs[c].request == s.txs[c].request && t.txs[c].writes.Keys <= s.txs[c].writes.Keys + s.txs[c].pending
  }

  lemma RevokesOne(s: State, c: nat, h: nat) returns (t: State)
    requires RevokingAlone(s, c) && h in s.txs[c].pending
    ensures Leads(s, t) && RevokingAlone(t, c) && SameButWrites(s, t, c)
    ensures t.txs[c].pending == s.txs[c].pending - {h} && t.txs[c].writes.Keys == s.txs[c].writes.Keys + {h}
  {
    LeadsHere(s);
    t := Step(s, s, RevokeRow(c, h));
  }

  lemma {:induction false} RevokesTheRest(s: State, c: nat) returns (s': State)
    requires RevokingAlone(s, c)
    ensures Leads(s, s') && RevokingAlone(s', c) && s'.txs[c].pending == {} && SameButWrites(s, s', c)
    decreases |s.txs[c].pending|
  {
    if s.txs[c].pending == {} {
      LeadsHere(s);
      s' := s;
    } else {
      var h :| h in s.txs[c].pending;
      var t := RevokesOne(s, c, h);
      s' := RevokesTheRest(t, c);
      LeadsOn(s, t, s');
    }
  }

  lemma FinishesLogout(s: State, c: nat) returns (s': State)
    requires RevokingAlone(s, c) && s.txs[c].pending == {} && s.txs[c].request.LogoutOf? &&
             s.txs[c].request.access.Some?
    ensures Leads(s, s') && c in s'.txs && s'.txs[c].phase == Ended(LoggedOut) && s'.clock == s.clock
    ensures s'.txs[c].request == s.txs[c].request
    ensures s'.db.tokens.Keys == s.db.tokens.Keys + s.txs[c].writes.Keys
    ensures forall h | h in s.db.tokens && h !in s.txs[c].writes :: s'.db.tokens[h] == s.db.tokens[h]
  {
    LeadsHere(s);
    var s1 := Step(s, s, RecordDenial(c));
    s' := Step(s, s1, Commit(c));
  }

  // ---- Everybody else fails first ----

  ghost function Busy(s: State): set<nat> {
    set d | d in s.txs && Underway(s.txs[d])
  }

  /** Requests not yet begun are still to come, and nothing has been written. */
  ghost predicate Calm(s: State, t: State) {
    && t.db == s.db && t.issued == s.issued && t.drawn == s.drawn && t.clock == s.clock && t.txs.Keys == s.txs.Keys
    && (forall d | d in s.txs && !Underway(s.txs[d]) :: t.txs[d] == s.txs[d])
  }

  lemma {:induction false} EverybodyFails(s: State) returns (s': State)
    requires Inv(s)
    ensures Leads(s, s') && Inv(s') && Calm(s, s') && forall d | d in s'.txs :: HoldsNothing(s'.txs[d])
    decreases |Busy(s)|
  {
    LeadsHere(s);
    if Busy(s) == {} {
      s' := s;
      forall d | d in s.txs ensures HoldsNothing(s.txs[d]) {
        assert d !in Busy(s) && TxOk(s, d);
      }
    } else {
      var d :| d in Busy(s);
      InvStep(s, Fail(d));
      var t := Step(s, s, Fail(d));
      assert Busy(t) == Busy(s) - {d};
      s' := EverybodyFails(t);
      LeadsOn(s, t, s');
    }
  }

  // ---- The missed successor ----

  /** Request c is about to present a used token of a family, request r its newest one, which is active. */
  predicate MayCross(s: State, c: nat, r: nat) {
    && PresentsPair(s, c) && s.db.tokens[s.txs[c].request.token].used.Some?
    && r in s.txs && s.txs[r].phase.Fresh? && CanRotate(s, r)
    && s.db.tokens[s.txs[r].request.token].family == s.db.tokens[s.txs[c].request.token].family
  }

  lemma SnapshotBeforeTheCommit(s: State, c: nat, r: nat, newToken: nat, jti: nat) returns (s': State)
    requires MayCross(s, c, r) && forall d | d in s.txs :: HoldsNothing(s.txs[d])
    requires newToken !in s.drawn && jti !in s.drawn && newToken != jti && newToken !in s.db.tokens
    ensures Leads(s, s') && RevokingAlone(s', c) && s'.txs[c].request == s.txs[c].request && s'.clock == s.clock
    ensures newToken !in s'.txs[c].writes && newToken !in s'.txs[c].pending && newToken in s'.db.tokens
    ensures s'.db.tokens[newToken] == NewToken(s.db.tokens[s.txs[c].request.token].family,
                                               s.db.tokens[s.txs[r].request.token].user, s.clock)
  {
    var s1 := UninterruptedRotation(s, r, newToken, jti);
    var s2 := LogoutUpToItsSnapshot(s1, c);
    LeadsOn(s, s1, s2);
    s' := Step(s, s2, Commit(r));
    assert s'.db.tokens.Keys == s.db.tokens.Keys + {newToken};
  }

  /** From any reachable state in which a used token is about to be presented by a logout, and the newest token of its
      family is active and about to be refreshed: whatever else is going on, the logout may commit and leave the family
      with a token that is active and unused. */
  lemma UsedTokenLogoutCanMissSuccessor(s: State, c: nat, r: nat, newToken: nat, jti: nat) returns (s': State)
    requires Reachable(s) && MayCross(s, c, r) && newToken !in s.drawn && jti !in s.drawn && newToken != jti
    ensures Leads(s, s') && c in s'.txs && s'.txs[c].phase == Ended(LoggedOut) && s'.txs[c].request == s.txs[c].request
    ensures UnusedIn(s'.db, newToken, s.db.tokens[s.txs[c].request.token].family)
    ensures Active(s'.db.tokens[newToken], s'.clock)
  {
    ReachableInv(s);
    assert newToken in s.db.tokens ==> Known(s, newToken);
    var s1 := EverybodyFails(s);
    var s2 := SnapshotBeforeTheCommit(s1, c, r, newToken, jti);
    LeadsOn(s, s1, s2);
    var s3 := RevokesTheRest(s2, c);
    LeadsOn(s, s2, s3);
    s' := FinishesLogout(s3, c);
    LeadsOn(s, s3, s');
  }

  // ---- A concrete run ----

  function Waiting(request: Request): Tx {
    Tx(request, Fresh, 0, false, 0, 0, 0, 0, 0, map[], None, map[], {})
  }

  const FIRST := Access(3, 7, 1, ACCESS_TTL_SECONDS)

  predicate Idle(s: State, c: nat, request: Request) {
    c in s.txs && s.txs[c] == Waiting(request)
  }

  lemma ReachableOn(s: State, t: State)
    requires Reachable(s) && Leads(s, t)
    ensures Reachable(t)
  {
    var init, past :| Init(init) && Valid(init, past) && s == Run(init, past);
    var acts :| Valid(s, acts) && Run(s, acts) == t;
    RunConcat(init, past, acts);
  }

  lemma LoggedIn() returns (s: State)
    ensures Reachable(s) && s.clock == 0 && s.drawn == {1, 2, 3} && s.issued == map[3 := FIRST] &&
            s.txs.Keys == {0, 1, 2}
    ensures s.db == Db(map[2 := NewToken(1, 7, 0)], map[])
    ensures Idle(s, 0, RefreshOf(2)) && Idle(s, 1, RefreshOf(4)) && Idle(s, 2, LogoutOf(Some(FIRST), 2))
  {
    var init := State(Db(map[], map[]), map[], {}, 0,
                      map[0 := Waiting(RefreshOf(2)), 1 := Waiting(RefreshOf(4)), 2 := Waiting(LogoutOf(Some(FIRST),
                          2))]);
    assert Valid(init, []) && Run(init, []) == init;
    assert |{1, 2, 3}| == 3;
    LeadsHere(init);
    s := Step(init, init, LoginUser(7, 1, 2, 3));
    ReachableOn(init, s);
  }

  /** Token 2 of family 1 has been rotated into token 4. */
  lemma FirstRotation() returns (s: State)
    ensures Reachable(s) && s.clock == 0 && s.drawn == {1, 2, 3, 4, 5} && 3 in s.issued && s.issued[3] == FIRST
    ensures s.db == Db(map[2 := Token(1, 7, Some(0), None, REFRESH_TTL_MS), 4 := NewToken(1, 7, 0)], map[])
    ensures s.txs.Keys == {0, 1, 2} && HoldsNothing(s.txs[0])
    ensures Idle(s, 1, RefreshOf(4)) && Idle(s, 2, LogoutOf(Some(FIRST), 2))
  {
    var s0 := LoggedIn();
    var s1 := UninterruptedRotation(s0, 0, 4, 5);
    s := Step(s0, s1, Commit(0));
    ReachableOn(s0, s);
    assert s.db.tokens == map[2 := Token(1, 7, Some(0), None, REFRESH_TTL_MS), 4 := NewToken(1, 7, 0)];
  }

  /** A logout has committed, and yet its family has a token that is neither used nor revoked. */
  lemma LogoutWithUsedTokenCanMissSuccessor() returns (s: State)
    ensures Reachable(s) && 2 in s.txs && s.txs[2].phase == Ended(LoggedOut) &&
            s.txs[2].request == LogoutOf(Some(FIRST), 2)
    ensures UnusedIn(s.db, 6, FIRST.family) && Active(s.db.tokens[6], s.clock)
  {
    var s0 := FirstRotation();
    s := UsedTokenLogoutCanMissSuccessor(s0, 2, 1, 6, 8);
    ReachableOn(s0, s);
  }
}
