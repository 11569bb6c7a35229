/** When a revocation reaches the whole family: exactly when no rotation of it commits between the snapshot of the
    family UPDATE and the commit. */
module AuthSnapshots {
  import opened Options
  import opened Auth
  import opened AuthTransactions
  import opened AuthInvariant
  import opened AuthTheorems

  /** Rows of the family that c's snapshot does not have. */
  ghost function Missed(s: State, c: nat): set<nat>
    requires c in s.txs
  {
    Family(s.db, s.txs[c].family) - (s.txs[c].pending + s.txs[c].writes.Keys)
  }

  predicate PastSnapshot(tx: Tx) {
    tx.phase.Revoking? || tx.phase.Recorded?
  }

  /** A later snapshot that has a row c missed also has the row c holds, and waits for it. */
  ghost predicate WaitsBehind(s: State, c: nat, d: nat)
    requires c in s.txs && d in s.txs
  {
    PastSnapshot(s.txs[d]) && Missed(s, c) * (s.txs[d].pending + s.txs[d].writes.Keys) != {} ==>
      s.txs[c].request.token in s.txs[d].pending
  }

  ghost predicate Tracked(s: State, c: nat) {
    && Inv(s) && c in s.txs && PastSnapshot(s.txs[c])
    && (forall h {:trigger s.db.tokens[h]} | h in Missed(s, c) :: s.db.tokens[h].revoked.None?)
    && (forall d {:trigger WaitsBehind(s, c, d)} | d in s.txs && d != c :: WaitsBehind(s, c, d))
  }

  /** A rotation of the family commits: its client is handed the new pair. */
  predicate RotationCommits(s: State, a: Action, family: nat) {
    a.Commit? && a.c in s.txs && s.txs[a.c].phase.Inserted? && s.txs[a.c].family == family
  }

  ghost predicate RotatedIn(s: State, acts: seq<Action>, family: nat)
    requires Valid(s, acts)
    decreases |acts|
  {
    acts != [] && (RotationCommits(s, acts[0], family) || RotatedIn(Apply(s, acts[0]), acts[1..], family))
  }

  /** c is still where it was and its family is the same. */
  predicate SameRevocation(a: Tx, b: Tx) {
    a.family == b.family && a.request == b.request && PastSnapshot(b) &&
        a.pending + a.writes.Keys == b.pending + b.writes.Keys
  }

  // ---- Steps of other transactions that leave the tables alone ----

  lemma OthersFrame(s: State, a: Action, c: nat)
    requires Tracked(s, c) && Enabled(s, a) && !a.Commit? && !a.LoginUser? && !a.Tick? && a.c != c
    requires WaitsBehind(Apply(s, a), c, a.c)
    ensures Tracked(Apply(s, a), c) && Missed(Apply(s, a), c) == Missed(s, c)
    ensures SameRevocation(s.txs[c], Apply(s, a).txs[c])
  {
    InvStep(s, a);
    var s' := Apply(s, a);
    assert s'.db == s.db && s'.txs[c] == s.txs[c];
    assert Missed(s', c) == Missed(s, c);
    forall d | d in s'.txs && d != c ensures WaitsBehind(s', c, d) {
      if d != a.c {
        assert WaitsBehind(s, c, d) && s'.txs[d] == s.txs[d];
      }
    }
  }

  lemma SnapshotWaits(s: State, c: nat, d: nat)
    requires Tracked(s, c) && Enabled(s, Snapshot(d)) && d != c
    ensures WaitsBehind(Apply(s, Snapshot(d)), c, d)
  {
    assert TxOk(s, c) && TxOk(s, d);
    var tx := s.txs[d];
    if tx.family == s.txs[c].family {
      assert s.txs[c].request.token in Family(s.db, tx.family);
    } else {
      forall h | h in Family(s.db, tx.family) + tx.writes.Keys ensures h !in Missed(s, c) {
        assert h in tx.writes ==> RowRevoked(s.db, tx, h);
      }
    }
  }

  lemma RevokeRowWaits(s: State, c: nat, d: nat, h: nat)
    requires Tracked(s, c) && Enabled(s, RevokeRow(d, h)) && d != c
    ensures WaitsBehind(Apply(s, RevokeRow(d, h)), c, d)
  {
    assert TxOk(s, c) && WaitsBehind(s, c, d);
    var tx, tx' := s.txs[d], Apply(s, RevokeRow(d, h)).txs[d];
    assert tx'.pending + tx'.writes.Keys == tx.pending + tx.writes.Keys;
    assert h != s.txs[c].request.token;
  }

  lemma OtherStep(s: State, a: Action, c: nat)
    requires Tracked(s, c) && Enabled(s, a) && !a.Commit? && !a.LoginUser? && !a.Tick? && a.c != c
    ensures Tracked(Apply(s, a), c) && Missed(Apply(s, a), c) == Missed(s, c)
    ensures SameRevocation(s.txs[c], Apply(s, a).txs[c])
  {
    if a.Snapshot? {
      SnapshotWaits(s, c, a.c);
    } else if a.RevokeRow? {
      RevokeRowWaits(s, c, a.c, a.h);
    } else if a.RecordDenial? {
      assert WaitsBehind(s, c, a.c);
    }
    OthersFrame(s, a, c);
  }

  // ---- c's own statements ----

  lemma OwnMove(s: State, a: Action, c: nat)
    requires Tracked(s, c) && Enabled(s, a) && ((a.RevokeRow? && a.c == c) || a == RecordDenial(c))
    ensures Tracked(Apply(s, a), c) && Missed(Apply(s, a), c) == Missed(s, c)
    ensures SameRevocation(s.txs[c], Apply(s, a).txs[c])
  {
    InvStep(s, a);
    var s' := Apply(s, a);
    assert s'.db == s.db;
    assert s'.txs[c].pending + s'.txs[c].writes.Keys == s.txs[c].pending + s.txs[c].writes.Keys;
    assert Missed(s', c) == Missed(s, c);
    forall d | d in s'.txs && d != c ensures WaitsBehind(s', c, d) {
      assert WaitsBehind(s, c, d) && s'.txs[d] == s.txs[d];
    }
  }

  // ---- Commits of others ----

  lemma NewRowIsUnseen(s: State, h: nat, d: nat)
    requires Inv(s) && d in s.txs && h !in s.db.tokens
    ensures h !in s.txs[d].pending + s.txs[d].writes.Keys
  {
    assert TxOk(s, d);
    var tx := s.txs[d];
    if Revokes(tx) {
      assert h in tx.writes ==> RowRevoked(s.db, tx, h);
    }
  }

  lemma RotationAddsMissed(s: State, c: nat, d: nat)
    requires Tracked(s, c) && Enabled(s, Commit(d)) && d != c && s.txs[d].phase.Inserted?
    ensures var missed := Missed(Apply(s, Commit(d)), c);
            missed == if s.txs[d].family == s.txs[c].family then Missed(s, c) + {s.txs[d].newToken} else Missed(s, c)
    ensures forall h | h in Missed(Apply(s, Commit(d)), c) :: Apply(s, Commit(d)).db.tokens[h].revoked.None?
    ensures s.txs[d].newToken !in s.db.tokens
  {
    assert TxOk(s, d);
    RotationCommitted(s, d);
    NewRowIsUnseen(s, s.txs[d].newToken, c);
    assert TxApart(s.txs[c], s.txs[d]);
  }

  lemma RotationKeepsTracked(s: State, c: nat, d: nat)
    requires Tracked(s, c) && Enabled(s, Commit(d)) && d != c && s.txs[d].phase.Inserted?
    ensures Tracked(Apply(s, Commit(d)), c)
  {
    var s' := Apply(s, Commit(d));
    InvStep(s, Commit(d));
    RotationAddsMissed(s, c, d);
    forall e | e in s'.txs && e != c ensures WaitsBehind(s', c, e) {
      if e != d {
        assert WaitsBehind(s, c, e) && s'.txs[e] == s.txs[e];
        NewRowIsUnseen(s, s.txs[d].newToken, e);
      }
    }
  }

  /** A revocation that can commit has nothing pending, so it wrote no row that c missed. */
  lemma OtherRevocationSparesMissed(s: State, c: nat, d: nat)
    requires Tracked(s, c) && Enabled(s, Commit(d)) && d != c && !s.txs[d].phase.Inserted?
    ensures Missed(Apply(s, Commit(d)), c) == Missed(s, c)
    ensures forall h | h in Missed(s, c) :: Apply(s, Commit(d)).db.tokens[h].revoked.None?
  {
    var s' := Apply(s, Commit(d));
    assert TxOk(s, d) && WaitsBehind(s, c, d);
    RevocationCommitted(s, d, s.txs[d].request.token);
    forall h | h in s.db.tokens
      ensures s'.db.tokens[h].family == s.db.tokens[h].family
      ensures h !in s.txs[d].writes ==> s'.db.tokens[h] == s.db.tokens[h]
    {
      RevocationCommitted(s, d, h);
    }
    forall h | h in Missed(s, c) ensures s'.db.tokens[h].revoked.None? {
      assert h !in s.txs[d].writes;
    }
  }

  lemma OtherRevocationKeepsTracked(s: State, c: nat, d: nat)
    requires Tracked(s, c) && Enabled(s, Commit(d)) && d != c && !s.txs[d].phase.Inserted?
    ensures Tracked(Apply(s, Commit(d)), c)
  {
    var s' := Apply(s, Commit(d));
    InvStep(s, Commit(d));
    OtherRevocationSparesMissed(s, c, d);
    forall e | e in s'.txs && e != c ensures WaitsBehind(s', c, e) {
      if e != d {
        assert WaitsBehind(s, c, e) && s'.txs[e] == s.txs[e];
      }
    }
  }

  // ---- Logins and the clock ----

  lemma OutsideStep(s: State, a: Action, c: nat)
    requires Tracked(s, c) && Enabled(s, a) && (a.LoginUser? || a.Tick?)
    ensures Tracked(Apply(s, a), c) && Missed(Apply(s, a), c) == Missed(s, c)
    ensures SameRevocation(s.txs[c], Apply(s, a).txs[c])
  {
    InvStep(s, a);
    var s' := Apply(s, a);
    assert TxOk(s, c) && Known(s, s.txs[c].request.token);
    if a.LoginUser? {
      assert a.token in s.db.tokens ==> Known(s, a.token);
    }
    assert Family(s'.db, s.txs[c].family) == Family(s.db, s.txs[c].family);
    forall d | d in s'.txs && d != c ensures WaitsBehind(s', c, d) {
      assert WaitsBehind(s, c, d);
    }
  }

  // ---- Any step, any run ----

  lemma TrackedStep(s: State, a: Action, c: nat)
    requires Tracked(s, c) && Enabled(s, a) && a != Commit(c) && a != Fail(c)
    ensures var s' := Apply(s, a);
            && Tracked(s', c) && SameRevocation(s.txs[c], s'.txs[c])
            && (Missed(s', c) == {} <==> Missed(s, c) == {} && !RotationCommits(s, a, s.txs[c].family))
  {
    if a.LoginUser? || a.Tick? {
      OutsideStep(s, a, c);
    } else if a.c == c {
      OwnMove(s, a, c);
    } else if !a.Commit? {
      OtherStep(s, a, c);
    } else if s.txs[a.c].phase.Inserted? {
      RotationKeepsTracked(s, c, a.c);
      RotationAddsMissed(s, c, a.c);
    } else {
      OtherRevocationKeepsTracked(s, c, a.c);
      OtherRevocationSparesMissed(s, c, a.c);
    }
  }

  lemma {:induction false} EndedStays(s: State, c: nat, acts: seq<Action>)
    requires Valid(s, acts) && c in s.txs && s.txs[c].phase.Ended?
    ensures c in Run(s, acts).txs && Run(s, acts).txs[c].phase.Ended?
    decreases |acts|
  {
    if acts != [] {
      EndedStays(Apply(s, acts[0]), c, acts[1..]);
    }
  }

  lemma {:induction false} TrackedRun(s: State, c: nat, acts: seq<Action>)
    requires Tracked(s, c) && Valid(s, acts) && Enabled(Run(s, acts), Commit(c))
    ensures var end := Run(s, acts);
            && Tracked(end, c) && end.txs[c].family == s.txs[c].family
            && (Missed(end, c) == {} <==> Missed(s, c) == {} && !RotatedIn(s, acts, s.txs[c].family))
    decreases |acts|
  {
    if acts != [] {
      var s' := Apply(s, acts[0]);
      if acts[0] == Commit(c) || acts[0] == Fail(c) {
        EndedStays(s', c, acts[1..]);
      } else {
        TrackedStep(s, acts[0], c);
        TrackedRun(s', c, acts[1..]);
      }
    }
  }

  lemma SnapshotTracks(s: State, c: nat)
    requires Inv(s) && Enabled(s, Snapshot(c))
    ensures Tracked(Apply(s, Snapshot(c)), c) && Missed(Apply(s, Snapshot(c)), c) == {}
  {
    InvStep(s, Snapshot(c));
    var s' := Apply(s, Snapshot(c));
    forall d | d in s'.txs && d != c ensures WaitsBehind(s', c, d) {
    }
  }

  lemma MissedDecides(s: State, c: nat)
    requires Tracked(s, c) && Enabled(s, Commit(c))
    ensures Dead(Apply(s, Commit(c)).db, s.txs[c].family) <==> Missed(s, c) == {}
  {
    assert TxOk(s, c);
    RevocationKillsIffSnapshotWhole(s, c);
    assert s.txs[c].pending == {};
    forall h | h in Family(s.db, s.txs[c].family) && h !in s.txs[c].writes ensures h in Missed(s, c) {
    }
  }

  /** A logout or a reuse that has taken its snapshot revokes the whole family by its commit exactly when no rotation of
      the family has committed in between. */
  lemma RevocationKillsIffNoRotationSince(s: State, c: nat, acts: seq<Action>)
    requires Reachable(s) && Enabled(s, Snapshot(c)) && Valid(Apply(s, Snapshot(c)), acts)
    requires Enabled(Run(Apply(s, Snapshot(c)), acts), Commit(c))
    ensures var end := Run(Apply(s, Snapshot(c)), acts);
            Dead(Apply(end, Commit(c)).db, s.txs[c].family) <==>
                !RotatedIn(Apply(s, Snapshot(c)), acts, s.txs[c].family)
  {
    ReachableInv(s);
    SnapshotTracks(s, c);
    TrackedRun(Apply(s, Snapshot(c)), c, acts);
    MissedDecides(Run(Apply(s, Snapshot(c)), acts), c);
  }
}
