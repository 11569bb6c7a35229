/** What token families promise over every interleaving of logins, refreshes and logouts. */
module AuthTheorems {
  import opened Options
  import opened Auth
  import opened AuthTransactions
  import opened AuthInvariant

  // ---- The transactions are the operations ----

  /** Committing a rotation is a refresh at one instant, on the tables as they are then. */
  lemma RotationIsSerial(s: State, c: nat)
    requires Inv(s) && Enabled(s, Commit(c)) && s.txs[c].phase.Inserted?
    ensures var tx := s.txs[c];
            Refresh(s.db, tx.request.token, tx.newToken, tx.jti, tx.startedAt, tx.checkedAt, tx.signedAt) ==
            (Apply(s, Commit(c)).txs[c].phase.outcome, Apply(s, Commit(c)).db)
  {
    assert TxOk(s, c);
    RotationCommitted(s, c);
  }

  lemma RevocationIsWhole(s: State, c: nat)
    requires Inv(s) && Enabled(s, Commit(c)) && !s.txs[c].phase.Inserted? && Shielded(s.txs[c])
    ensures Committed(s.db, s.txs[c]).tokens == RevokeFamily(s.db.tokens, s.txs[c].family, s.txs[c].startedAt)
  {
    var tx := s.txs[c];
    var tokens := Committed(s.db, tx).tokens;
    assert TxOk(s, c);
    RevocationCommitted(s, c, tx.request.token);
    forall h | h in s.db.tokens ensures tokens[h] == RevokeFamily(s.db.tokens, tx.family, tx.startedAt)[h] {
      RevocationCommitted(s, c, h);
    }
  }

  lemma ReuseIsSerial(s: State, c: nat)
    requires Inv(s) && Enabled(s, Commit(c)) && s.txs[c].request.RefreshOf? && s.txs[c].phase.Revoking?
    ensures var tx := s.txs[c];
            Refresh(s.db, tx.request.token, tx.newToken, tx.jti, tx.startedAt, tx.checkedAt, tx.signedAt) ==
            (Apply(s, Commit(c)).txs[c].phase.outcome, Apply(s, Commit(c)).db)
  {
    assert TxOk(s, c);
    RevocationIsWhole(s, c);
  }

  /** So is a logout, when the token it presented was still unused as its row was locked. */
  lemma LogoutIsSerial(s: State, c: nat)
    requires Inv(s) && Enabled(s, Commit(c)) && s.txs[c].request.LogoutOf? && s.txs[c].live
    ensures var tx := s.txs[c];
            Logout(s.db, tx.request.access, tx.request.token, tx.startedAt, tx.checkedAt, tx.signedAt) ==
            (Apply(s, Commit(c)).txs[c].phase.outcome, Apply(s, Commit(c)).db)
  {
    assert TxOk(s, c);
    RevocationIsWhole(s, c);
  }

  // ---- The rotation chain ----

  /** In every reachable state a family has one user, one token more than it has used ones, and so at most one token
      that is both unused and unrevoked. */
  lemma RotationChain(s: State, h: nat, k: nat)
    requires Reachable(s) && h in s.db.tokens && k in s.db.tokens && s.db.tokens[h].family == s.db.tokens[k].family
    ensures s.db.tokens[h].user == s.db.tokens[k].user
    ensures |Family(s.db, s.db.tokens[h].family)| == |UsedIn(s.db, s.db.tokens[h].family)| + 1
    ensures s.db.tokens[h].used.None? && s.db.tokens[k].used.None? ==> h == k
  {
    ReachableInv(s);
    assert h != k ==> SameOwner(s.db.tokens[h], s.db.tokens[k]);
    OneMoreThanUsed(s.db, s.db.tokens[h].family, h);
  }

  lemma ExtendsTransitive(a: Db, b: Db, c: Db)
    requires Extends(a, b) && Extends(b, c)
    ensures Extends(a, c)
  {
    forall h | h in a.tokens ensures RowKept(a, c, h) {
      assert RowKept(a, b, h) && RowKept(b, c, h);
    }
  }

  lemma StepExtends(s: State, a: Action)
    requires Inv(s) && Enabled(s, a)
    ensures Extends(s.db, Apply(s, a).db)
  {
    if a.Commit? {
      CommitExtends(s, a.c);
    } else if a.LoginUser? {
      assert a.token in s.db.tokens ==> Known(s, a.token);
    }
  }

  /** used_at and revoked_at, once set, never change; no row moves to another family or user. */
  lemma {:induction false} MarksAreFinal(s: State, acts: seq<Action>)
    requires Inv(s) && Valid(s, acts)
    ensures Extends(s.db, Run(s, acts).db)
    decreases |acts|
  {
    if acts != [] {
      InvStep(s, acts[0]);
      StepExtends(s, acts[0]);
      MarksAreFinal(Apply(s, acts[0]), acts[1..]);
      ExtendsTransitive(s.db, Apply(s, acts[0]).db, Run(s, acts).db);
    }
  }

  // ---- Reuse and logout are final ----

  predicate RevokesFamily(tx: Tx) {
    ReadyToCommit(tx) && !tx.phase.Inserted?
  }

  /** A reuse, or a logout presenting an unused token, revokes every token of the family as it commits. */
  lemma ShieldedRevocationKills(s: State, c: nat)
    requires Inv(s) && Enabled(s, Commit(c)) && RevokesFamily(s.txs[c]) && Shielded(s.txs[c])
    ensures Dead(Apply(s, Commit(c)).db, s.txs[c].family)
  {
    var tx, db' := s.txs[c], Apply(s, Commit(c)).db;
    assert TxOk(s, c);
    RevocationIsWhole(s, c);
    assert tx.request.token in Family(db', tx.family);
  }

  /** Whatever token a logout presents: its commit revokes the whole family exactly when every row that its UPDATE's
      snapshot missed was revoked already. */
  lemma RevocationKillsIffSnapshotWhole(s: State, c: nat)
    requires Inv(s) && Enabled(s, Commit(c)) && RevokesFamily(s.txs[c])
    ensures Dead(Apply(s, Commit(c)).db, s.txs[c].family) <==>
            forall h | h in Family(s.db, s.txs[c].family) && h !in s.txs[c].writes :: s.db.tokens[h].revoked.Some?
  {
    var tx, db' := s.txs[c], Apply(s, Commit(c)).db;
    assert TxOk(s, c);
    forall h | h in s.db.tokens
      ensures h in db'.tokens && db'.tokens[h].family == s.db.tokens[h].family
      ensures s.db.tokens[h].family == tx.family ==>
                (db'.tokens[h].revoked.Some? <==> h in tx.writes || s.db.tokens[h].revoked.Some?)
    {
      RevocationCommitted(s, c, h);
    }
    RevocationCommitted(s, c, tx.request.token);
    assert tx.request.token in Family(db', tx.family);
  }

  ghost function IssuedTo(s: State, family: nat): set<nat> {
    set j | j in s.issued && s.issued[j].family == family
  }

  lemma CommitKeepsDead(s: State, c: nat, family: nat)
    requires Inv(s) && Enabled(s, Commit(c)) && Dead(s.db, family)
    ensures Dead(Committed(s.db, s.txs[c]), family)
    ensures s.txs[c].phase.Inserted? ==> s.txs[c].family != family
  {
    var db' := Committed(s.db, s.txs[c]);
    assert TxOk(s, c);
    CommitExtends(s, c);
    var h0 :| h0 in Family(s.db, family);
    assert RowKept(s.db, db', h0) && h0 in Family(db', family);
    forall h | h in db'.tokens && db'.tokens[h].family == family ensures db'.tokens[h].revoked.Some? {
      CommitAddsOnly(s, c, h);
      if h in s.db.tokens {
        assert RowKept(s.db, db', h);
      }
    }
  }

  lemma LoginKeepsDead(s: State, a: Action, family: nat)
    requires Inv(s) && Enabled(s, a) && a.LoginUser? && Dead(s.db, family)
    ensures Dead(Login(s.db, a.user, a.family, a.token, s.clock), family) && a.family != family
    ensures a.jti !in s.issued
  {
    var h0 :| h0 in Family(s.db, family);
    assert Known(s, h0) && h0 in Family(Login(s.db, a.user, a.family, a.token, s.clock), family);
    assert a.jti in s.issued ==> IssuedOk(s, a.jti);
    assert a.token in s.db.tokens ==> Known(s, a.token);
  }

  lemma DeadStays(s: State, a: Action, family: nat)
    requires Inv(s) && Enabled(s, a) && Dead(s.db, family)
    ensures Dead(Apply(s, a).db, family)
    ensures IssuedTo(Apply(s, a), family) == IssuedTo(s, family)
  {
    if a.Commit? {
      CommitKeepsDead(s, a.c, family);
      assert TxOk(s, a.c);
    } else if a.LoginUser? {
      LoginKeepsDead(s, a, family);
    }
  }

  /** Once a family is revoked it stays so, and never again is a token of it rotated or an access token issued for it.
      */
  lemma {:induction false} RevokedForGood(s: State, acts: seq<Action>, family: nat)
    requires Inv(s) && Valid(s, acts) && Dead(s.db, family)
    ensures Dead(Run(s, acts).db, family) && IssuedTo(Run(s, acts), family) == IssuedTo(s, family)
    decreases |acts|
  {
    if acts != [] {
      InvStep(s, acts[0]);
      DeadStays(s, acts[0], family);
      RevokedForGood(Apply(s, acts[0]), acts[1..], family);
    }
  }

  /** Reuse is final, and so is logout with the newest token. */
  lemma ReuseAndLogoutAreFinal(s: State, c: nat, later: seq<Action>)
    requires Reachable(s) && Enabled(s, Commit(c)) && RevokesFamily(s.txs[c]) && Shielded(s.txs[c])
    requires Valid(Apply(s, Commit(c)), later)
    ensures Dead(Run(Apply(s, Commit(c)), later).db, s.txs[c].family)
    ensures IssuedTo(Run(Apply(s, Commit(c)), later), s.txs[c].family) == IssuedTo(s, s.txs[c].family)
  {
    ReachableInv(s);
    ShieldedRevocationKills(s, c);
    InvStep(s, Commit(c));
    RevokedForGood(Apply(s, Commit(c)), later, s.txs[c].family);
  }

  // ---- Access tokens die too ----

  lemma {:induction false} HistoryGrows(s: State, acts: seq<Action>)
    requires Inv(s) && Valid(s, acts)
    ensures Inv(Run(s, acts)) && s.clock <= Run(s, acts).clock
    ensures s.db.denied.Keys <= Run(s, acts).db.denied.Keys
    ensures forall j {:trigger s.issued[j]} | j in s.issued ::
              j in Run(s, acts).issued && Run(s, acts).issued[j] == s.issued[j]
    decreases |acts|
  {
    if acts != [] {
      var a, s' := acts[0], Apply(s, acts[0]);
      InvStep(s, a);
      IssuedGrows(s, a);
      HistoryGrows(s', acts[1..]);
    }
  }

  lemma IssuedGrows(s: State, a: Action)
    requires Inv(s) && Enabled(s, a)
    ensures var s' := Apply(s, a);
            && s.clock <= s'.clock && s.db.denied.Keys <= s'.db.denied.Keys
            && forall j {:trigger s.issued[j]} | j in s.issued :: j in s'.issued && s'.issued[j] == s.issued[j]
  {
    if a.Commit? {
      assert TxOk(s, a.c);
    } else if a.LoginUser? {
      assert a.jti in s.issued ==> IssuedOk(s, a.jti);
    }
  }

  /** Ten minutes after a family is revoked, no access token ever issued for it verifies. */
  lemma AccessDiesWithinTtl(s: State, acts: seq<Action>, family: nat, j: nat, now: nat)
    requires Inv(s) && Valid(s, acts) && Dead(s.db, family)
    requires j in Run(s, acts).issued && Run(s, acts).issued[j].family == family
    requires now >= s.clock + ACCESS_TTL_SECONDS * 1000
    ensures !Unexpired(Run(s, acts).issued[j], now)
  {
    RevokedForGood(s, acts, family);
    assert j in IssuedTo(Run(s, acts), family);
    HistoryGrows(s, acts);
    assert IssuedOk(s, j);
  }

  /** The access token a logout presented gets past the guard, at any later time and in any later state, exactly when
      the guard's two checks straddle its expiry. */
  lemma LoggedOutAccessStaysOut(s: State, c: nat, later: seq<Action>, verifiedAt: nat, lookedUpMicros: int)
    requires Reachable(s) && Enabled(s, Commit(c)) && s.txs[c].request.LogoutOf? && s.txs[c].signedAt <= verifiedAt
    requires Valid(Apply(s, Commit(c)), later)
    ensures var access := s.txs[c].request.access.value;
            Admits(Run(Apply(s, Commit(c)), later).db, access, verifiedAt, lookedUpMicros) <==>
              verifiedAt < access.exp * 1000 && access.exp * 1_000_000 <= lookedUpMicros
  {
    ReachableInv(s);
    assert TxOk(s, c) && Presented(s, s.txs[c]);
    var access := s.txs[c].request.access.value;
    var s1 := Apply(s, Commit(c));
    InvStep(s, Commit(c));
    IssuedGrows(s, Commit(c));
    HistoryGrows(s1, later);
    var end := Run(s1, later);
    assert s.issued[access.jti] == access && s1.issued[access.jti] == access;
    assert access.jti in end.db.denied ==> DenialOk(end, access.jti);
    assert verifiedAt < access.exp * 1000 ==> access.jti in s1.db.denied;
  }
}
