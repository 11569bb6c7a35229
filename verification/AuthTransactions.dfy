/**
 * Refreshes and logouts as the transactions they are: row locks taken one statement at a time, rows private until
 * the commit, any interleaving, and a failure - a deadlock's victim among them - possible between any two statements.
 */
module AuthTransactions {
  import opened Options
  import opened Auth

  datatype Request = RefreshOf(token: nat) | LogoutOf(access: Option<Access>, token: nat)

  /** Chosen: the family to revoke is known, the UPDATE has not begun. Revoking: it has taken its snapshot. */
  datatype Phase =
    | Fresh
    | Begun
    | Rotating
    | Marked
    | Inserted
    | Chosen
    | Revoking
    | Recorded
    | Ended(outcome: Outcome)

  /** `writes` are the row versions written, their keys the token rows locked; `user` is the users row locked;
      `pending` are the rows of the UPDATE's snapshot not reached yet; `live` says the logout's token was unused. */
  datatype Tx = Tx(request: Request, phase: Phase, family: nat, live: bool,
                   startedAt: nat, checkedAt: nat, signedAt: nat, newToken: nat, jti: nat,
                   writes: map<nat, Token>, user: Option<nat>, inserted: map<nat, Token>, pending: set<nat>)

  /** `issued` are the access tokens handed out, `drawn` every random value. */
  datatype State = State(db: Db, issued: map<nat, Access>, drawn: set<nat>, clock: nat, txs: map<nat, Tx>)

  datatype Action =
    | Begin(c: nat)
    | Lock(c: nat)
    | MarkUsed(c: nat)
    | InsertNext(c: nat, newToken: nat, jti: nat)
    | Snapshot(c: nat)
    | RevokeRow(c: nat, h: nat)
    | RecordDenial(c: nat)
    | Commit(c: nat)
    | Fail(c: nat)
    | LoginUser(user: nat, family: nat, token: nat, jti: nat)
    | Tick(ms: nat)

  predicate RowFree(s: State, c: nat, h: nat) {
    forall d | d in s.txs && d != c :: h !in s.txs[d].writes
  }

  predicate UserFree(s: State, c: nat, u: nat) {
    forall d | d in s.txs && d != c :: s.txs[d].user != Some(u)
  }

  predicate LockFree(s: State, c: nat)
    requires c in s.txs
  {
    var h := s.txs[c].request.token;
    RowFree(s, c, h) &&
    (s.txs[c].request.RefreshOf? && h in s.db.tokens ==> UserFree(s, c, s.db.tokens[h].user))
  }

  predicate Underway(tx: Tx) {
    !tx.phase.Fresh? && !tx.phase.Ended?
  }

  predicate ReadyToCommit(tx: Tx) {
    match tx.request
    case RefreshOf(_) => (tx.phase.Inserted? && tx.user.Some?) || (tx.phase.Revoking? && tx.pending == {})
    case LogoutOf(access, _) => tx.phase.Recorded? && access.Some?
  }

  predicate Enabled(s: State, a: Action) {
    match a
    case Begin(c) => c in s.txs && s.txs[c].phase.Fresh?
    case Lock(c) => c in s.txs && s.txs[c].phase.Begun? && LockFree(s, c)
    case MarkUsed(c) => c in s.txs && s.txs[c].phase.Rotating? && s.txs[c].request.token in s.txs[c].writes
    case InsertNext(c, newToken, jti) =>
      c in s.txs && s.txs[c].phase.Marked? && s.txs[c].user.Some? && newToken !in s.drawn && jti !in s.drawn &&
          newToken != jti
    case Snapshot(c) => c in s.txs && s.txs[c].phase.Chosen?
    case RevokeRow(c, h) =>
      c in s.txs && s.txs[c].phase.Revoking? && h in s.txs[c].pending && h in s.db.tokens && RowFree(s, c, h)
    case RecordDenial(c) =>
      c in s.txs && s.txs[c].request.LogoutOf? && s.txs[c].phase.Revoking? && s.txs[c].pending == {}
    case Commit(c) => c in s.txs && ReadyToCommit(s.txs[c])
    case Fail(c) => c in s.txs && Underway(s.txs[c])
    case LoginUser(user, family, token, jti) =>
      |{family, token, jti}| == 3 && family !in s.drawn && token !in s.drawn && jti !in s.drawn &&
      forall d | d in s.txs :: s.txs[d].user != Some(user)
    case Tick(_) => true
  }

  function Dropped(tx: Tx, outcome: Outcome): Tx {
    tx.(phase := Ended(outcome), writes := map[], user := None, inserted := map[], pending := {})
  }

  /** Only what the service signed verifies. */
  predicate Genuine(issued: map<nat, Access>, access: Option<Access>, now: nat) {
    access.Some? && access.value.jti in issued && issued[access.value.jti] == access.value &&
        Unexpired(access.value, now)
  }

  function Started(s: State, tx: Tx): Tx {
    if tx.request.LogoutOf? && !Genuine(s.issued, tx.request.access, s.clock) then Dropped(tx, InvalidAccess)
    else tx.(phase := Begun, startedAt := s.clock, checkedAt := s.clock)
  }

  function Locked(db: Db, clock: nat, tx: Tx): Tx {
    var h := tx.request.token;
    if h !in db.tokens then Dropped(tx, InvalidRefresh)
    else
      var row := db.tokens[h];
      var held := tx.(writes := map[h := row], family := row.family, live := row.used.None?);
      match tx.request
      case RefreshOf(_) =>
        if !Active(row, clock) then Dropped(tx, NotActive)
        else held.(phase := if row.used.Some? then Chosen else Rotating, user := Some(row.user), checkedAt := clock)
      case LogoutOf(access, _) =>
        if access.None? || row.family != access.value.family || row.user != access.value.sub
        then Dropped(tx, PairMismatch)
        else held.(phase := Chosen)
  }

  function OutcomeOf(tx: Tx): Outcome
    requires tx.phase.Inserted? ==> tx.user.Some?
  {
    if tx.phase.Inserted? then Rotated(tx.newToken, SignAccessToken(tx.user.value, tx.jti, tx.family, tx.signedAt))
    else if tx.phase.Recorded? then LoggedOut
    else ReuseDetected
  }

  function Committed(db: Db, tx: Tx): Db {
    Db(db.tokens + tx.writes + tx.inserted,
       if tx.phase.Recorded? && tx.request.LogoutOf? && tx.request.access.Some?
       then Deny(db.denied, tx.request.access.value, tx.signedAt) else db.denied)
  }

  function With(s: State, c: nat, tx: Tx): State {
    s.(txs := s.txs[c := tx])
  }

  function Apply(s: State, a: Action): State
    requires Enabled(s, a)
  {
    match a
    case Begin(c) => With(s, c, Started(s, s.txs[c]))
    case Lock(c) => With(s, c, Locked(s.db, s.clock, s.txs[c]))
    case MarkUsed(c) =>
      var tx := s.txs[c];
      var h := tx.request.token;
      With(s, c, tx.(phase := Marked, writes := tx.writes[h := tx.writes[h].(used := Some(tx.startedAt))]))
    case InsertNext(c, newToken, jti) =>
      var tx := s.txs[c];
      With(s, c, tx.(phase := Inserted, newToken := newToken, jti := jti, signedAt := s.clock,
                     inserted := map[newToken := NewToken(tx.family, tx.user.value, s.clock)]))
      .(drawn := s.drawn + {newToken, jti})
    case Snapshot(c) => With(s, c, s.txs[c].(phase := Revoking, pending := Family(s.db, s.txs[c].family)))
    case RevokeRow(c, h) =>
      var tx := s.txs[c];
      With(s, c, tx.(writes := tx.writes[h := Revoked(s.db.tokens[h], tx.startedAt)], pending := tx.pending - {h}))
    case RecordDenial(c) => With(s, c, s.txs[c].(phase := Recorded, signedAt := s.clock))
    case Commit(c) =>
      var tx := s.txs[c];
      With(s, c, Dropped(tx, OutcomeOf(tx)))
      .(db := Committed(s.db, tx),
        issued := if tx.phase.Inserted?
                  then s.issued[tx.jti := SignAccessToken(tx.user.value, tx.jti, tx.family, tx.signedAt)] else s.issued)
    case Fail(c) => With(s, c, Dropped(s.txs[c], Failed))
    case LoginUser(user, family, token, jti) =>
      s.(db := Login(s.db, user, family, token, s.clock),
         issued := s.issued[jti := SignAccessToken(user, jti, family, s.clock)],
         drawn := s.drawn + {family, token, jti})
    case Tick(ms) => s.(clock := s.clock + ms)
  }

  ghost predicate Valid(s: State, acts: seq<Action>)
    decreases |acts|
  {
    acts == [] || (Enabled(s, acts[0]) && Valid(Apply(s, acts[0]), acts[1..]))
  }

  ghost function Run(s: State, acts: seq<Action>): State
    requires Valid(s, acts)
    decreases |acts|
  {
    if acts == [] then s else Run(Apply(s, acts[0]), acts[1..])
  }

  ghost predicate Init(s: State) {
    && s.db == Db(map[], map[]) && s.issued == map[]
    && forall c | c in s.txs :: s.txs[c].phase.Fresh? && HoldsNothing(s.txs[c])
  }

  // ---- Invariant ----

  predicate HoldsNothing(tx: Tx) {
    tx.writes == map[] && tx.user.None? && tx.inserted == map[] && tx.pending == {}
  }

  predicate Rotates(tx: Tx) {
    tx.phase.Rotating? || tx.phase.Marked? || tx.phase.Inserted?
  }

  predicate Revokes(tx: Tx) {
    tx.phase.Chosen? || tx.phase.Revoking? || tx.phase.Recorded?
  }

  predicate OwnRow(db: Db, tx: Tx) {
    var h := tx.request.token;
    h in db.tokens && h in tx.writes && db.tokens[h].family == tx.family
  }

  ghost predicate RotationOk(s: State, tx: Tx) {
    var h := tx.request.token;
    && tx.request.RefreshOf? && OwnRow(s.db, tx)
    && var row := s.db.tokens[h];
    && Active(row, tx.checkedAt) && row.used.None? && tx.user == Some(row.user) && tx.pending == {}
    && tx.writes == map[h := if tx.phase.Rotating? then row else row.(used := Some(tx.startedAt))]
    && (if tx.phase.Inserted?
        then && tx.inserted == map[tx.newToken := NewToken(row.family, row.user, tx.signedAt)]
             && tx.newToken in s.drawn && tx.newToken !in s.db.tokens
             && tx.jti in s.drawn && tx.jti !in s.issued && tx.signedAt <= s.clock
        else tx.inserted == map[])
  }

  predicate RowRevoked(db: Db, tx: Tx, h: nat)
    requires h in tx.writes
  {
    h in db.tokens && db.tokens[h].family == tx.family &&
    tx.writes[h] == if tx.phase.Chosen? || h in tx.pending then db.tokens[h] else Revoked(db.tokens[h], tx.startedAt)
  }

  /** The transactions whose snapshot nobody can slip a new row behind. */
  predicate Shielded(tx: Tx) {
    tx.request.RefreshOf? || tx.live
  }

  ghost predicate RevocationOk(s: State, tx: Tx) {
    var h := tx.request.token;
    && OwnRow(s.db, tx) && tx.inserted == map[]
    && (forall k {:trigger RowRevoked(s.db, tx, k)} | k in tx.writes :: RowRevoked(s.db, tx, k))
    && tx.pending <= Family(s.db, tx.family) && (tx.phase.Chosen? || tx.phase.Recorded? ==> tx.pending == {})
    && (Shielded(tx) && !tx.phase.Chosen? ==> Family(s.db, tx.family) <= tx.pending + tx.writes.Keys)
    && var row := s.db.tokens[h];
    && (match tx.request
        case RefreshOf(_) => tx.user == Some(row.user) && Active(row, tx.checkedAt) && row.used.Some? &&
            !tx.phase.Recorded?
        case LogoutOf(access, _) =>
          && access.Some? && access.value.family == row.family && access.value.sub == row.user
          && tx.user.None? && (tx.live ==> row.used.None?))
  }

  ghost predicate Presented(s: State, tx: Tx) {
    tx.request.LogoutOf? && Underway(tx) ==> Genuine(s.issued, tx.request.access, tx.checkedAt)
  }

  ghost predicate TxOk(s: State, c: nat)
    requires c in s.txs
  {
    var tx := s.txs[c];
    && Presented(s, tx)
    && (if Rotates(tx) then RotationOk(s, tx) else if Revokes(tx) then RevocationOk(s, tx) else HoldsNothing(tx))
  }

  predicate TxApart(a: Tx, b: Tx) {
    && a.writes.Keys !! b.writes.Keys
    && (a.user.Some? && b.user.Some? ==> a.user != b.user)
    && (a.phase.Inserted? && b.phase.Inserted? ==> a.newToken != b.newToken && a.jti != b.jti)
  }

  predicate Known(s: State, h: nat)
    requires h in s.db.tokens
  {
    h in s.drawn && s.db.tokens[h].family in s.drawn
  }

  predicate IssuedOk(s: State, j: nat)
    requires j in s.issued
  {
    j in s.drawn && s.issued[j].jti == j && s.issued[j].exp <= s.clock / 1000 + ACCESS_TTL_SECONDS
  }

  predicate DenialOk(s: State, j: nat)
    requires j in s.db.denied
  {
    j in s.issued && s.db.denied[j] == s.issued[j].exp * 1000
  }

  ghost predicate Tables(s: State) {
    && Chained(s.db)
    && (forall h {:trigger Known(s, h)} | h in s.db.tokens :: Known(s, h))
    && (forall j {:trigger IssuedOk(s, j)} | j in s.issued :: IssuedOk(s, j))
    && (forall j {:trigger DenialOk(s, j)} | j in s.db.denied :: DenialOk(s, j))
  }

  ghost predicate Transactions(s: State) {
    && (forall c {:trigger TxOk(s, c)} | c in s.txs :: TxOk(s, c))
    && (forall c, d {:trigger TxApart(s.txs[c], s.txs[d])} | c in s.txs && d in s.txs &&
        c != d :: TxApart(s.txs[c], s.txs[d]))
  }

  ghost predicate Inv(s: State) {
    Tables(s) && Transactions(s)
  }

  lemma InitInv(s: State)
    requires Init(s)
    ensures Inv(s)
  {
  }

  // ---- Steps that leave the tables alone ----

  lemma OwnStep(s: State, c: nat, tx: Tx, drawn: set<nat>)
    requires Inv(s) && c in s.txs && s.drawn <= drawn
    requires TxOk(With(s, c, tx).(drawn := drawn), c)
    requires forall d | d in s.txs && d != c :: TxApart(s.txs[d], tx)
    ensures Inv(With(s, c, tx).(drawn := drawn))
  {
    var s' := With(s, c, tx).(drawn := drawn);
    forall h | h in s'.db.tokens ensures Known(s', h) {
      assert Known(s, h);
    }
    forall j | j in s'.issued ensures IssuedOk(s', j) {
      assert IssuedOk(s, j);
    }
    forall j | j in s'.db.denied ensures DenialOk(s', j) {
      assert DenialOk(s, j);
    }
    forall d | d in s'.txs ensures TxOk(s', d) {
      assert TxOk(s, d);
    }
    forall d, e | d in s'.txs && e in s'.txs && d != e ensures TxApart(s'.txs[d], s'.txs[e]) {
      assert TxApart(s.txs[d], s.txs[e]);
    }
  }

  lemma LockTxOk(s: State, c: nat)
    requires Inv(s) && Enabled(s, Lock(c))
    ensures TxOk(Apply(s, Lock(c)), c)
  {
    assert TxOk(s, c);
    var tx, tx' := s.txs[c], Locked(s.db, s.clock, s.txs[c]);
    assert Apply(s, Lock(c)).txs[c] == tx';
    if tx.request.token in s.db.tokens && Revokes(tx') {
      assert RowRevoked(s.db, tx', tx.request.token);
    }
  }

  lemma LockStep(s: State, c: nat)
    requires Inv(s) && Enabled(s, Lock(c))
    ensures Inv(Apply(s, Lock(c)))
  {
    var tx' := Apply(s, Lock(c)).txs[c];
    LockTxOk(s, c);
    forall d | d in s.txs && d != c ensures TxApart(s.txs[d], tx') {
      assert TxApart(s.txs[d], s.txs[c]);
    }
    OwnStep(s, c, tx', s.drawn);
  }

  lemma RotateStep(s: State, a: Action)
    requires Inv(s) && Enabled(s, a) && (a.MarkUsed? || a.InsertNext?)
    ensures Inv(Apply(s, a))
  {
    var s' := Apply(s, a);
    var tx := s.txs[a.c];
    assert TxOk(s, a.c);
    forall d | d in s.txs && d != a.c ensures TxApart(s.txs[d], s'.txs[a.c]) {
      assert TxApart(s.txs[d], tx) && TxOk(s, d);
    }
    if a.InsertNext? {
      forall h | h in s.db.tokens ensures h != a.newToken {
        assert Known(s, h);
      }
      forall j | j in s.issued ensures j != a.jti {
        assert IssuedOk(s, j);
      }
    }
    OwnStep(s, a.c, s'.txs[a.c], s'.drawn);
  }

  lemma SnapshotStep(s: State, c: nat)
    requires Inv(s) && Enabled(s, Snapshot(c))
    ensures Inv(Apply(s, Snapshot(c)))
  {
    var tx, tx' := s.txs[c], Apply(s, Snapshot(c)).txs[c];
    assert TxOk(s, c);
    forall k | k in tx'.writes ensures RowRevoked(s.db, tx', k) {
      assert RowRevoked(s.db, tx, k);
    }
    forall d | d in s.txs && d != c ensures TxApart(s.txs[d], tx') {
      assert TxApart(s.txs[d], tx);
    }
    OwnStep(s, c, tx', s.drawn);
  }

  lemma RevokeRowStep(s: State, c: nat, h: nat)
    requires Inv(s) && Enabled(s, RevokeRow(c, h))
    ensures Inv(Apply(s, RevokeRow(c, h)))
  {
    var tx, tx' := s.txs[c], Apply(s, RevokeRow(c, h)).txs[c];
    assert TxOk(s, c);
    forall k | k in tx'.writes ensures RowRevoked(s.db, tx', k) {
      assert k in tx.writes ==> RowRevoked(s.db, tx, k);
    }
    forall d | d in s.txs && d != c ensures TxApart(s.txs[d], tx') {
      assert TxApart(s.txs[d], tx);
    }
    OwnStep(s, c, tx', s.drawn);
  }

  lemma RecordStep(s: State, c: nat)
    requires Inv(s) && Enabled(s, RecordDenial(c))
    ensures Inv(Apply(s, RecordDenial(c)))
  {
    var tx, tx' := s.txs[c], Apply(s, RecordDenial(c)).txs[c];
    assert TxOk(s, c);
    forall k | k in tx'.writes ensures RowRevoked(s.db, tx', k) {
      assert RowRevoked(s.db, tx, k);
    }
    forall d | d in s.txs && d != c ensures TxApart(s.txs[d], tx') {
      assert TxApart(s.txs[d], tx);
    }
    OwnStep(s, c, tx', s.drawn);
  }

  lemma EdgeStep(s: State, a: Action)
    requires Inv(s) && Enabled(s, a) && (a.Begin? || a.Fail?)
    ensures Inv(Apply(s, a))
  {
    var tx' := Apply(s, a).txs[a.c];
    assert TxOk(s, a.c);
    forall d | d in s.txs && d != a.c ensures TxApart(s.txs[d], tx') {
      assert TxApart(s.txs[d], s.txs[a.c]);
    }
    OwnStep(s, a.c, tx', s.drawn);
  }
}
