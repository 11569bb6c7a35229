/**
 * What refresh, logout and the guard do, row by row and field by field, and what an expired family can no longer do.
 */
module AuthLaws {
  import opened Options
  import opened Auth
  import opened AuthTransactions
  import opened AuthInvariant
  import opened AuthTheorems

  // ---- Refresh ----

  /** Which answer a refresh gives, by the marks and the expiry of the row presented. */
  lemma RefreshAnswers(db: Db, token: nat, newToken: nat, jti: nat, startedAt: int, checkedAt: nat, signedAt: nat)
    ensures var r := Refresh(db, token, newToken, jti, startedAt, checkedAt, signedAt).0;
            && (r == InvalidRefresh <==> token !in db.tokens)
            && (r == NotActive <==>
                  token in db.tokens && (db.tokens[token].revoked.Some? || db.tokens[token].expires <= checkedAt))
            && (r.Rotated? <==>
                  token in db.tokens && db.tokens[token].used.None? && db.tokens[token].revoked.None? &&
                  db.tokens[token].expires > checkedAt)
            && (r == ReuseDetected <==>
                  token in db.tokens && db.tokens[token].used.Some? && db.tokens[token].revoked.None? &&
                  db.tokens[token].expires > checkedAt)
            && (r.Rotated? || r == ReuseDetected ||
                Refresh(db, token, newToken, jti, startedAt, checkedAt, signedAt).1 == db)
  {
  }

  /** A rotation marks the presented row, adds its successor for thirty days, and issues an access token for ten
      minutes, all for the same family and user; nothing else changes. */
  lemma RotationByFields(db: Db, token: nat, newToken: nat, jti: nat, startedAt: int, checkedAt: nat, signedAt: nat)
    requires Refresh(db, token, newToken, jti, startedAt, checkedAt, signedAt).0.Rotated? && newToken !in db.tokens
    ensures token in db.tokens
    ensures var (r, db') := Refresh(db, token, newToken, jti, startedAt, checkedAt, signedAt);
            var row := db.tokens[token];
            && r.newToken == newToken && db'.denied == db.denied
            && r.access.jti == jti && r.access.sub == row.user && r.access.family == row.family
            && r.access.exp == signedAt / 1000 + 600
            && db'.tokens.Keys == db.tokens.Keys + {newToken}
            && db'.tokens[newToken].family == row.family && db'.tokens[newToken].user == row.user
            && db'.tokens[newToken].used.None? && db'.tokens[newToken].revoked.None?
            && db'.tokens[newToken].expires == signedAt + 2_592_000_000
            && db'.tokens[token] == row.(used := Some(startedAt))
            && forall h {:trigger db'.tokens[h]} | h in db.tokens && h != token :: db'.tokens[h] == db.tokens[h]
  {
  }

  /** Tables in which the family is revoked, rows revoked before keep their time, and nothing else has changed. */
  ghost predicate FamilyRevoked(tokens: map<nat, Token>, tokens': map<nat, Token>, family: nat, at: int) {
    && tokens'.Keys == tokens.Keys
    && forall h {:trigger tokens'[h]} | h in tokens ::
         && tokens'[h].family == tokens[h].family && tokens'[h].user == tokens[h].user
         && tokens'[h].used == tokens[h].used && tokens'[h].expires == tokens[h].expires
         && tokens'[h].revoked == if tokens[h].family == family && tokens[h].revoked.None? then Some(at)
                                  else tokens[h].revoked
  }

  lemma ReuseByFields(db: Db, token: nat, newToken: nat, jti: nat, startedAt: int, checkedAt: nat, signedAt: nat)
    requires Refresh(db, token, newToken, jti, startedAt, checkedAt, signedAt).0 == ReuseDetected
    ensures token in db.tokens
    ensures var db' := Refresh(db, token, newToken, jti, startedAt, checkedAt, signedAt).1;
            FamilyRevoked(db.tokens, db'.tokens, db.tokens[token].family, startedAt) && db'.denied == db.denied
  {
  }

  // ---- Logout ----

  /** Which answer a logout gives, and what it changes: the family is revoked, and the access token is denied until it
      expires, if that is still to come. */
  lemma LogoutByFields(db: Db, access: Option<Access>, token: nat, startedAt: int, verifiedAt: nat, deniedAt: nat)
    ensures var (r, db') := Logout(db, access, token, startedAt, verifiedAt, deniedAt);
            && (r == LoggedOut <==>
                  && access.Some? && verifiedAt / 1000 < access.value.exp && token in db.tokens
                  && db.tokens[token].family == access.value.family && db.tokens[token].user == access.value.sub)
            && (r == InvalidAccess <==> access.None? || access.value.exp <= verifiedAt / 1000)
            && (r != LoggedOut ==> db' == db)
            && (r == LoggedOut ==>
                  && FamilyRevoked(db.tokens, db'.tokens, access.value.family, startedAt)
                  && db'.denied == if deniedAt < access.value.exp * 1000
                                   then db.denied[access.value.jti := access.value.exp * 1000] else db.denied)
  {
  }

  // ---- The transactions ----

  /** What a refresh is told when it has its row: by the row's own fields and the clock. */
  lemma LockByFields(s: State, c: nat)
    requires Enabled(s, Lock(c)) && s.txs[c].request.RefreshOf?
    ensures var h, phase := s.txs[c].request.token, Apply(s, Lock(c)).txs[c].phase;
            && (phase == Ended(InvalidRefresh) <==> h !in s.db.tokens)
            && (phase == Ended(NotActive) <==>
                  h in s.db.tokens && (s.db.tokens[h].revoked.Some? || s.db.tokens[h].expires <= s.clock))
            && (phase.Rotating? <==>
                  h in s.db.tokens && s.db.tokens[h].used.None? && s.db.tokens[h].revoked.None? &&
                  s.db.tokens[h].expires > s.clock)
            && (phase.Chosen? <==>
                  h in s.db.tokens && s.db.tokens[h].used.Some? && s.db.tokens[h].revoked.None? &&
                  s.db.tokens[h].expires > s.clock)
  {
  }

  /** A rotation that commits was of a row that was unused, unrevoked and unexpired when it was checked. */
  lemma CommittedRotation(s: State, c: nat)
    requires Reachable(s) && Enabled(s, Commit(c)) && s.txs[c].phase.Inserted?
    ensures var tx, db' := s.txs[c], Apply(s, Commit(c)).db;
            && tx.request.token in s.db.tokens
            && var row := s.db.tokens[tx.request.token];
            && row.used.None? && row.revoked.None? && row.expires > tx.checkedAt
            && db'.tokens.Keys == s.db.tokens.Keys + {tx.newToken} && tx.newToken !in s.db.tokens
            && db'.tokens[tx.newToken] == Token(row.family, row.user, None, None, tx.signedAt + 2_592_000_000)
            && db'.tokens[tx.request.token] == row.(used := Some(tx.startedAt))
            && Apply(s, Commit(c)).issued ==
               s.issued[tx.jti := Access(tx.jti, row.user, row.family, tx.signedAt / 1000 + 600)]
  {
    ReachableInv(s);
    assert TxOk(s, c);
    RotationIsSerial(s, c);
    RefreshAnswers(s.db, s.txs[c].request.token, s.txs[c].newToken, s.txs[c].jti, s.txs[c].startedAt,
                   s.txs[c].checkedAt, s.txs[c].signedAt);
  }

  /** A request is told that it succeeded, or that its token was reused, by its own commit only; no statement before it
      and no failure touches the tables. */
  lemma OnlyCommitsTakeEffect(s: State, a: Action, c: nat)
    requires Enabled(s, a) && c in s.txs && !s.txs[c].phase.Ended?
    ensures var phase := Apply(s, a).txs[c].phase;
            phase.Ended? && (phase.outcome.Rotated? || phase.outcome == ReuseDetected || phase.outcome == LoggedOut) ==>
              a == Commit(c)
    ensures !a.Commit? && !a.LoginUser? ==> Apply(s, a).db == s.db && Apply(s, a).issued == s.issued
    ensures a.Fail? ==> Apply(s, a).txs[a.c].phase == Ended(Failed) && Apply(s, a).txs[a.c].writes == map[]
  {
  }

  // ---- An expired family ----

  ghost predicate Expired(s: State, family: nat) {
    && Family(s.db, family) != {}
    && (forall h {:trigger s.db.tokens[h]} | h in s.db.tokens && s.db.tokens[h].family == family ::
          s.db.tokens[h].expires <= s.clock)
    && forall c {:trigger s.txs[c]} | c in s.txs && s.txs[c].family == family :: !Rotates(s.txs[c])
  }

  lemma CommitLeavesFamily(s: State, c: nat, family: nat)
    requires Inv(s) && Enabled(s, Commit(c)) && Expired(s, family)
    ensures Family(Committed(s.db, s.txs[c]), family) == Family(s.db, family)
    ensures forall h | h in Family(s.db, family) ::
              Committed(s.db, s.txs[c]).tokens[h].expires == s.db.tokens[h].expires
  {
    var db' := Committed(s.db, s.txs[c]);
    CommitExtends(s, c);
    assert TxOk(s, c);
    forall h | h in s.db.tokens ensures h in db'.tokens && RowKept(s.db, db', h) {
      assert RowKept(s.db, db', h);
    }
    forall h | h in Family(db', family) ensures h in s.db.tokens {
      CommitAddsOnly(s, c, h);
    }
  }

  lemma CommitIssuesNothing(s: State, c: nat, family: nat)
    requires Inv(s) && Enabled(s, Commit(c)) && Expired(s, family)
    ensures IssuedTo(Apply(s, Commit(c)), family) == IssuedTo(s, family)
  {
    assert TxOk(s, c);
  }

  lemma CommitLeavesExpired(s: State, c: nat, family: nat)
    requires Inv(s) && Enabled(s, Commit(c)) && Expired(s, family)
    ensures Silent(s, Apply(s, Commit(c)), family)
  {
    CommitLeavesFamily(s, c, family);
    CommitIssuesNothing(s, c, family);
    var s' := Apply(s, Commit(c));
    assert s'.db == Committed(s.db, s.txs[c]);
    forall h | h in s'.db.tokens && s'.db.tokens[h].family == family ensures s'.db.tokens[h].expires <= s'.clock {
      assert h in Family(s'.db, family);
    }
  }

  ghost predicate Silent(s: State, s': State, family: nat) {
    && Expired(s', family) && Family(s'.db, family) == Family(s.db, family)
    && IssuedTo(s', family) == IssuedTo(s, family)
  }

  lemma LoginLeavesExpired(s: State, a: Action, family: nat)
    requires Inv(s) && Enabled(s, a) && a.LoginUser? && Expired(s, family)
    ensures Silent(s, Apply(s, a), family)
  {
    var h0 :| h0 in Family(s.db, family);
    assert Known(s, h0);
    assert a.token in s.db.tokens ==> Known(s, a.token);
    assert a.jti in s.issued ==> IssuedOk(s, a.jti);
    assert h0 in Family(Apply(s, a).db, family);
  }

  lemma StatementLeavesExpired(s: State, a: Action, family: nat)
    requires Inv(s) && Enabled(s, a) && !a.Commit? && !a.LoginUser? && Expired(s, family)
    ensures Silent(s, Apply(s, a), family)
  {
    if a.Lock? && s.txs[a.c].request.RefreshOf? {
      LockByFields(s, a.c);
    }
  }

  /** A family whose tokens have all expired is issued nothing more, once no rotation of it is under way: neither an
      access token nor a successor, whatever is presented and however often. */
  lemma {:induction false} ExpiredFamilyIsIssuedNothing(s: State, acts: seq<Action>, family: nat)
    requires Inv(s) && Valid(s, acts) && Expired(s, family)
    ensures IssuedTo(Run(s, acts), family) == IssuedTo(s, family)
    ensures Family(Run(s, acts).db, family) == Family(s.db, family)
    decreases |acts|
  {
    if acts != [] {
      var a := acts[0];
      InvStep(s, a);
      if a.Commit? {
        CommitLeavesExpired(s, a.c, family);
      } else if a.LoginUser? {
        LoginLeavesExpired(s, a, family);
      } else {
        StatementLeavesExpired(s, a, family);
      }
      ExpiredFamilyIsIssuedNothing(Apply(s, a), acts[1..], family);
    }
  }
}
