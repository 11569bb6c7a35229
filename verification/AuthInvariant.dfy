/** Commits and logins keep the invariant of interleaved refreshes and logouts, over every run. */
module AuthInvariant {
  import opened Options
  import opened Auth
  import opened AuthTransactions

  /** A row is never deleted, and what is once marked stays marked as it was. */
  predicate RowKept(db: Db, db': Db, h: nat)
    requires h in db.tokens
  {
    && h in db'.tokens
    && db'.tokens[h].family == db.tokens[h].family && db'.tokens[h].user == db.tokens[h].user
    && db'.tokens[h].expires == db.tokens[h].expires
    && (db.tokens[h].used.Some? ==> db'.tokens[h].used == db.tokens[h].used)
    && (db.tokens[h].revoked.Some? ==> db'.tokens[h].revoked == db.tokens[h].revoked)
  }

  ghost predicate Extends(db: Db, db': Db) {
    forall h {:trigger RowKept(db, db', h)} | h in db.tokens :: RowKept(db, db', h)
  }

  /** The effect of a rotation on the token rows. */
  lemma RotationCommitted(s: State, c: nat)
    requires Inv(s) && Enabled(s, Commit(c)) && s.txs[c].phase.Inserted?
    ensures s.txs[c].request.token in s.db.tokens
    ensures var tx, row := s.txs[c], s.db.tokens[s.txs[c].request.token];
            Committed(s.db, tx) ==
            s.db.(tokens := s.db.tokens[tx.request.token := row.(used := Some(tx.startedAt))]
                                       [tx.newToken := NewToken(row.family, row.user, tx.signedAt)])
  {
    assert TxOk(s, c);
  }

  lemma RevocationCommitted(s: State, c: nat, h: nat)
    requires Inv(s) && Enabled(s, Commit(c)) && !s.txs[c].phase.Inserted? && h in s.db.tokens
    ensures var tx := s.txs[c];
            && Committed(s.db, tx).tokens.Keys == s.db.tokens.Keys
            && Committed(s.db, tx).tokens[h] == (if h in tx.writes then Revoked(s.db.tokens[h],
                tx.startedAt) else s.db.tokens[h])
            && (h in tx.writes ==> s.db.tokens[h].family == tx.family)
            && (Shielded(tx) && s.db.tokens[h].family == tx.family ==> h in tx.writes)
  {
    var tx := s.txs[c];
    assert TxOk(s, c);
    forall k | k in tx.writes ensures k in s.db.tokens {
      assert RowRevoked(s.db, tx, k);
    }
    assert h in tx.writes ==> RowRevoked(s.db, tx, h);
    assert s.db.tokens[h].family == tx.family ==> h in Family(s.db, tx.family);
  }

  lemma CommitExtends(s: State, c: nat)
    requires Inv(s) && Enabled(s, Commit(c))
    ensures Extends(s.db, Committed(s.db, s.txs[c]))
  {
    assert TxOk(s, c);
    if s.txs[c].phase.Inserted? {
      RotationCommitted(s, c);
    } else {
      forall h | h in s.db.tokens ensures RowKept(s.db, Committed(s.db, s.txs[c]), h) {
        RevocationCommitted(s, c, h);
      }
    }
  }

  lemma CommitStaysChained(s: State, c: nat)
    requires Inv(s) && Enabled(s, Commit(c))
    ensures Chained(Committed(s.db, s.txs[c]))
  {
    var tx := s.txs[c];
    assert TxOk(s, c);
    if tx.phase.Inserted? {
      RotationCommitted(s, c);
      RotationStaysChained(s.db, tx.request.token, tx.newToken, tx.startedAt, tx.signedAt);
    } else {
      var db' := Committed(s.db, tx);
      RevocationCommitted(s, c, tx.request.token);
      forall h | h in s.db.tokens ensures db'.tokens[h].(revoked := None) == s.db.tokens[h].(revoked := None) {
        RevocationCommitted(s, c, h);
      }
      SameChainStaysChained(s.db, db');
    }
  }

  /** A row another transaction has locked is not touched by c's commit. */
  lemma CommitSparesLocked(s: State, c: nat, d: nat, h: nat)
    requires Inv(s) && Enabled(s, Commit(c)) && d in s.txs && d != c && h in s.txs[d].writes && h in s.db.tokens
    ensures Committed(s.db, s.txs[c]).tokens[h] == s.db.tokens[h]
  {
    assert TxApart(s.txs[d], s.txs[c]) && TxOk(s, c);
  }

  lemma CommitAddsOnly(s: State, c: nat, h: nat)
    requires Inv(s) && Enabled(s, Commit(c)) && h in Committed(s.db, s.txs[c]).tokens
    ensures h in s.db.tokens || (s.txs[c].phase.Inserted? && h == s.txs[c].newToken)
  {
    assert TxOk(s, c);
    if h in s.txs[c].writes && Revokes(s.txs[c]) {
      assert RowRevoked(s.db, s.txs[c], h);
    }
  }

  lemma CommitKeepsRotation(s: State, c: nat, d: nat)
    requires Inv(s) && Enabled(s, Commit(c)) && d in s.txs && d != c && Rotates(s.txs[d])
    ensures TxOk(Apply(s, Commit(c)), d)
  {
    assert TxOk(s, c) && TxOk(s, d) && TxApart(s.txs[c], s.txs[d]);
    CommitSparesLocked(s, c, d, s.txs[d].request.token);
    if s.txs[d].phase.Inserted? && s.txs[d].newToken in Committed(s.db, s.txs[c]).tokens {
      CommitAddsOnly(s, c, s.txs[d].newToken);
    }
  }

  /** No rotation can put a new row into a family that a shielded revocation is working on. */
  lemma NoNewRowBehindShield(s: State, c: nat, d: nat)
    requires Inv(s) && c in s.txs && d in s.txs && c != d
    requires Rotates(s.txs[c]) && Revokes(s.txs[d]) && Shielded(s.txs[d])
    ensures s.txs[c].family != s.txs[d].family
  {
    assert TxOk(s, c) && TxOk(s, d) && TxApart(s.txs[c], s.txs[d]);
    var h, k := s.txs[c].request.token, s.txs[d].request.token;
    assert SameOwner(s.db.tokens[h], s.db.tokens[k]);
  }

  lemma CommitKeepsSnapshot(s: State, c: nat, d: nat)
    requires Inv(s) && Enabled(s, Commit(c)) && d in s.txs && d != c && Revokes(s.txs[d])
    ensures var tx, db' := s.txs[d], Committed(s.db, s.txs[c]);
            && tx.pending <= Family(db', tx.family)
            && (Shielded(tx) && !tx.phase.Chosen? ==> Family(db', tx.family) <= tx.pending + tx.writes.Keys)
  {
    var tx, db' := s.txs[d], Committed(s.db, s.txs[c]);
    assert TxOk(s, c) && TxOk(s, d);
    CommitExtends(s, c);
    forall h | h in tx.pending ensures h in Family(db', tx.family) {
      assert h in Family(s.db, tx.family);
      assert RowKept(s.db, db', h);
    }
    if Shielded(tx) && !tx.phase.Chosen? {
      forall h | h in Family(db', tx.family) ensures h in tx.pending + tx.writes.Keys {
        if h in s.db.tokens {
          assert RowKept(s.db, db', h);
          assert h in Family(s.db, tx.family);
        } else {
          CommitAddsOnly(s, c, h);
          RotationCommitted(s, c);
          NoNewRowBehindShield(s, c, d);
        }
      }
    }
  }

  lemma CommitKeepsRevocation(s: State, c: nat, d: nat)
    requires Inv(s) && Enabled(s, Commit(c)) && d in s.txs && d != c && Revokes(s.txs[d])
    ensures TxOk(Apply(s, Commit(c)), d)
  {
    var s', tx := Apply(s, Commit(c)), s.txs[d];
    assert TxOk(s, c) && TxOk(s, d);
    CommitSparesLocked(s, c, d, tx.request.token);
    forall k | k in tx.writes ensures RowRevoked(s'.db, tx, k) {
      assert RowRevoked(s.db, tx, k);
      CommitSparesLocked(s, c, d, k);
    }
    CommitExtends(s, c);
    assert RowKept(s.db, s'.db, tx.request.token);
    CommitKeepsSnapshot(s, c, d);
  }

  lemma CommitKeepsTx(s: State, c: nat, d: nat)
    requires Inv(s) && Enabled(s, Commit(c)) && d in s.txs
    ensures TxOk(Apply(s, Commit(c)), d)
  {
    assert TxOk(s, c) && TxOk(s, d);
    if d != c {
      if Rotates(s.txs[d]) {
        CommitKeepsRotation(s, c, d);
      } else if Revokes(s.txs[d]) {
        CommitKeepsRevocation(s, c, d);
      }
    }
  }

  lemma CommitKeepsTables(s: State, c: nat)
    requires Inv(s) && Enabled(s, Commit(c))
    ensures Tables(Apply(s, Commit(c)))
  {
    var s', tx := Apply(s, Commit(c)), s.txs[c];
    assert TxOk(s, c);
    CommitStaysChained(s, c);
    CommitExtends(s, c);
    forall h | h in s'.db.tokens ensures Known(s', h) {
      if tx.phase.Inserted? {
        RotationCommitted(s, c);
        assert Known(s, tx.request.token);
      } else {
        RevocationCommitted(s, c, tx.request.token);
      }
      if h in s.db.tokens {
        assert Known(s, h) && RowKept(s.db, s'.db, h);
      }
    }
    forall j | j in s'.issued ensures IssuedOk(s', j) {
      assert j in s.issued ==> IssuedOk(s, j);
    }
    forall j | j in s'.db.denied ensures DenialOk(s', j) {
      assert j in s.db.denied ==> DenialOk(s, j);
    }
  }

  lemma CommitStep(s: State, c: nat)
    requires Inv(s) && Enabled(s, Commit(c))
    ensures Inv(Apply(s, Commit(c)))
  {
    var s' := Apply(s, Commit(c));
    CommitKeepsTables(s, c);
    forall d | d in s'.txs ensures TxOk(s', d) {
      CommitKeepsTx(s, c, d);
    }
    forall d, e | d in s'.txs && e in s'.txs && d != e ensures TxApart(s'.txs[d], s'.txs[e]) {
      assert TxApart(s.txs[d], s.txs[e]);
    }
  }

  lemma LoginKeepsTx(s: State, a: Action, d: nat)
    requires Inv(s) && Enabled(s, a) && a.LoginUser? && d in s.txs
    ensures TxOk(Apply(s, a), d)
  {
    var s', tx := Apply(s, a), s.txs[d];
    assert TxOk(s, d);
    assert a.token in s.db.tokens ==> Known(s, a.token);
    assert a.jti in s.issued ==> IssuedOk(s, a.jti);
    if Revokes(tx) {
      assert Known(s, tx.request.token);
      forall k | k in tx.writes ensures RowRevoked(s'.db, tx, k) {
        assert RowRevoked(s.db, tx, k);
      }
      assert Family(s'.db, tx.family) == Family(s.db, tx.family);
    }
  }

  lemma LoginStep(s: State, a: Action)
    requires Inv(s) && Enabled(s, a) && a.LoginUser?
    ensures Inv(Apply(s, a))
  {
    var s' := Apply(s, a);
    assert a.token in s.db.tokens ==> Known(s, a.token);
    assert a.jti in s.issued ==> IssuedOk(s, a.jti);
    forall h | h in s.db.tokens ensures s.db.tokens[h].family != a.family {
      assert Known(s, h);
    }
    LoginStaysChained(s.db, a.user, a.family, a.token, s.clock);
    forall h | h in s'.db.tokens ensures Known(s', h) {
      assert h != a.token ==> Known(s, h);
    }
    forall j | j in s'.issued ensures IssuedOk(s', j) {
      assert j != a.jti ==> IssuedOk(s, j);
    }
    forall j | j in s'.db.denied ensures DenialOk(s', j) {
      assert DenialOk(s, j);
    }
    forall d | d in s'.txs ensures TxOk(s', d) {
      LoginKeepsTx(s, a, d);
    }
    forall d, e | d in s'.txs && e in s'.txs && d != e ensures TxApart(s'.txs[d], s'.txs[e]) {
      assert TxApart(s.txs[d], s.txs[e]);
    }
  }

  lemma TickStep(s: State, ms: nat)
    requires Inv(s)
    ensures Inv(Apply(s, Tick(ms)))
  {
    var s' := Apply(s, Tick(ms));
    forall h | h in s'.db.tokens ensures Known(s', h) {
      assert Known(s, h);
    }
    forall j | j in s'.issued ensures IssuedOk(s', j) {
      assert IssuedOk(s, j);
    }
    forall j | j in s'.db.denied ensures DenialOk(s', j) {
      assert DenialOk(s, j);
    }
    forall d | d in s'.txs ensures TxOk(s', d) {
      assert TxOk(s, d);
    }
  }

  lemma InvStep(s: State, a: Action)
    requires Inv(s) && Enabled(s, a)
    ensures Inv(Apply(s, a))
  {
    match a
    case Begin(_) => EdgeStep(s, a);
    case Lock(c) => LockStep(s, c);
    case MarkUsed(_) => RotateStep(s, a);
    case InsertNext(_, _, _) => RotateStep(s, a);
    case Snapshot(c) => SnapshotStep(s, c);
    case RevokeRow(c, h) => RevokeRowStep(s, c, h);
    case RecordDenial(c) => RecordStep(s, c);
    case Commit(c) => CommitStep(s, c);
    case Fail(_) => EdgeStep(s, a);
    case LoginUser(_, _, _, _) => LoginStep(s, a);
    case Tick(ms) => TickStep(s, ms);
  }

  lemma {:induction false} InvRun(s: State, acts: seq<Action>)
    requires Inv(s) && Valid(s, acts)
    ensures Inv(Run(s, acts))
    decreases |acts|
  {
    if acts != [] {
      InvStep(s, acts[0]);
      InvRun(Apply(s, acts[0]), acts[1..]);
    }
  }

  ghost predicate Reachable(s: State) {
    exists init, acts :: Init(init) && Valid(init, acts) && s == Run(init, acts)
  }

  lemma ReachableInv(s: State)
    requires Reachable(s)
    ensures Inv(s)
  {
    var init, acts :| Init(init) && Valid(init, acts) && s == Run(init, acts);
    InitInv(init);
    InvRun(init, acts);
  }
}
