/**
 * Refresh-token families, logout and the access-token denylist, each operation as one transaction on the tables.
 * A refresh token stands for its hash, which names its row; signed access tokens stand for their claims.
 */
module Auth {
  import opened Options
  import opened Sums

  const ACCESS_TTL_SECONDS := 600
  const REFRESH_TTL_MS := 30 * 24 * 60 * 60 * 1000

  datatype Token = Token(family: nat, user: nat, used: Option<int>, revoked: Option<int>, expires: int)
  datatype Access = Access(jti: nat, sub: nat, family: nat, exp: int)

  /** `denied` maps a jti to its expires_at. Times are in milliseconds unless a name says otherwise. */
  datatype Db = Db(tokens: map<nat, Token>, denied: map<nat, int>)

  datatype Outcome =
    | Rotated(newToken: nat, access: Access)
    | ReuseDetected
    | LoggedOut
    | InvalidRefresh
    | NotActive
    | InvalidAccess
    | PairMismatch
    | Failed

  // ---- Access tokens ----

  /** iat and exp are whole seconds, rounded down. */
  function SignAccessToken(user: nat, jti: nat, family: nat, now: nat): Access {
    Access(jti, user, family, now / 1000 + ACCESS_TTL_SECONDS)
  }

  predicate Unexpired(access: Access, now: nat) {
    now / 1000 < access.exp
  }

  predicate IsAccessTokenDenied(db: Db, jti: nat, nowMicros: int) {
    jti in db.denied && db.denied[jti] * 1000 > nowMicros
  }

  /** The guard on a correctly signed token: verified by the clock of the application, then looked up by that of the
      database. */
  predicate Admits(db: Db, access: Access, verifiedAt: nat, lookedUpMicros: int) {
    Unexpired(access, verifiedAt) && !IsAccessTokenDenied(db, access.jti, lookedUpMicros)
  }

  // ---- Refresh tokens ----

  function NewToken(family: nat, user: nat, now: nat): Token {
    Token(family, user, None, None, now + REFRESH_TTL_MS)
  }

  function Login(db: Db, user: nat, family: nat, token: nat, now: nat): Db {
    db.(tokens := db.tokens[token := NewToken(family, user, now)])
  }

  /** revoked_at = COALESCE(revoked_at, now()) */
  function Revoked(row: Token, at: int): Token {
    if row.revoked.None? then row.(revoked := Some(at)) else row
  }

  function RevokeFamily(tokens: map<nat, Token>, family: nat, at: int): map<nat, Token> {
    map h | h in tokens :: if tokens[h].family == family then Revoked(tokens[h], at) else tokens[h]
  }

  predicate Active(row: Token, now: int) {
    row.revoked.None? && row.expires > now
  }

  /** `startedAt` is the transaction's now(); the row is checked at `checkedAt` and its successor made at `signedAt`. */
  function Refresh(db: Db, token: nat, newToken: nat, jti: nat, startedAt: int, checkedAt: nat,
      signedAt: nat): (Outcome, Db) {
    if token !in db.tokens then (InvalidRefresh, db)
    else
      var row := db.tokens[token];
      if !Active(row, checkedAt) then (NotActive, db)
      else if row.used.Some? then (ReuseDetected, db.(tokens := RevokeFamily(db.tokens, row.family, startedAt)))
      else
        (Rotated(newToken, SignAccessToken(row.user, jti, row.family, signedAt)),
         db.(tokens := db.tokens[token := row.(used := Some(startedAt))][newToken := NewToken(row.family, row.user,
             signedAt)]))
  }

  function Deny(denied: map<nat, int>, access: Access, now: nat): map<nat, int> {
    if access.exp * 1000 > now then denied[access.jti := access.exp * 1000] else denied
  }

  /** `access` is None for a token that does not verify, other than by having expired. */
  function Logout(db: Db, access: Option<Access>, token: nat, startedAt: int, verifiedAt: nat,
      deniedAt: nat): (Outcome, Db) {
    if access.None? || !Unexpired(access.value, verifiedAt) then (InvalidAccess, db)
    else if token !in db.tokens then (InvalidRefresh, db)
    else
      var row := db.tokens[token];
      if row.family != access.value.family || row.user != access.value.sub then (PairMismatch, db)
      else (LoggedOut, Db(RevokeFamily(db.tokens, row.family, startedAt), Deny(db.denied, access.value, deniedAt)))
  }

  // ---- The rotation chain ----

  function Family(db: Db, family: nat): set<nat> {
    set h | h in db.tokens && db.tokens[h].family == family
  }

  ghost function UsedIn(db: Db, family: nat): set<nat> {
    set h | h in db.tokens && db.tokens[h].family == family && db.tokens[h].used.Some?
  }

  predicate UnusedIn(db: Db, h: nat, family: nat) {
    h in db.tokens && db.tokens[h].family == family && db.tokens[h].used.None?
  }

  ghost predicate HasNewest(db: Db, h: nat)
    requires h in db.tokens
  {
    exists k :: UnusedIn(db, k, db.tokens[h].family)
  }

  predicate SameOwner(a: Token, b: Token) {
    a.family == b.family ==> a.user == b.user && (a.used.Some? || b.used.Some?)
  }

  /** A family has one user and one unused token, the newest. */
  ghost predicate Chained(db: Db) {
    && (forall h, k {:trigger SameOwner(db.tokens[h], db.tokens[k])} | h in db.tokens && k in db.tokens && h != k ::
          SameOwner(db.tokens[h], db.tokens[k]))
    && (forall h {:trigger HasNewest(db, h)} | h in db.tokens :: HasNewest(db, h))
  }

  /** A family with any token at all has exactly one more token than it has used ones. */
  lemma OneMoreThanUsed(db: Db, family: nat, h: nat)
    requires Chained(db) && h in Family(db, family)
    ensures |Family(db, family)| == |UsedIn(db, family)| + 1
  {
    assert HasNewest(db, h);
    var k :| UnusedIn(db, k, db.tokens[h].family);
    forall j | j in Family(db, family) && j != k ensures j in UsedIn(db, family) {
      assert SameOwner(db.tokens[j], db.tokens[k]);
    }
    assert Family(db, family) == UsedIn(db, family) + {k};
  }

  /** Same rows, same links and marks of use: revocation is all that may differ. */
  ghost predicate SameChain(db: Db, db': Db) {
    && db.tokens.Keys == db'.tokens.Keys
    && forall h {:trigger db'.tokens[h]} | h in db.tokens :: db'.tokens[h].(revoked := None) ==
        db.tokens[h].(revoked := None)
  }

  lemma SameChainStaysChained(db: Db, db': Db)
    requires Chained(db) && SameChain(db, db')
    ensures Chained(db')
  {
    forall h, k | h in db'.tokens && k in db'.tokens && h != k ensures SameOwner(db'.tokens[h], db'.tokens[k]) {
      assert SameOwner(db.tokens[h], db.tokens[k]);
    }
    forall h | h in db'.tokens ensures HasNewest(db', h) {
      assert HasNewest(db, h);
      var k :| UnusedIn(db, k, db.tokens[h].family);
      assert UnusedIn(db', k, db'.tokens[h].family);
    }
  }

  lemma LoginStaysChained(db: Db, user: nat, family: nat, token: nat, now: nat)
    requires Chained(db) && token !in db.tokens && Family(db, family) == {}
    ensures Chained(Login(db, user, family, token, now))
  {
    var db' := Login(db, user, family, token, now);
    assert forall h | h in db.tokens :: h !in Family(db, family);
    forall h, k | h in db'.tokens && k in db'.tokens && h != k ensures SameOwner(db'.tokens[h], db'.tokens[k]) {
      assert h != token && k != token ==> SameOwner(db.tokens[h], db.tokens[k]);
    }
    forall h | h in db'.tokens ensures HasNewest(db', h) {
      if h == token {
        assert UnusedIn(db', token, family);
      } else {
        assert HasNewest(db, h);
        var k :| UnusedIn(db, k, db.tokens[h].family);
        assert UnusedIn(db', k, db'.tokens[h].family);
      }
    }
  }

  lemma RotationStaysChained(db: Db, token: nat, newToken: nat, startedAt: int, signedAt: nat)
    requires Chained(db) && newToken !in db.tokens && token in db.tokens && db.tokens[token].used.None?
    ensures var row := db.tokens[token];
            Chained(db.(tokens := db.tokens[token := row.(used := Some(startedAt))]
                                           [newToken := NewToken(row.family, row.user, signedAt)]))
  {
    var row := db.tokens[token];
    var db' := db.(tokens := db.tokens[token := row.(used := Some(startedAt))][newToken := NewToken(row.family,
        row.user, signedAt)]);
    forall h, k | h in db'.tokens && k in db'.tokens && h != k ensures SameOwner(db'.tokens[h], db'.tokens[k]) {
      var i, j := if h == newToken then token else h, if k == newToken then token else k;
      assert i != j ==> SameOwner(db.tokens[i], db.tokens[j]);
    }
    forall h | h in db'.tokens ensures HasNewest(db', h) {
      if db'.tokens[h].family == row.family {
        assert UnusedIn(db', newToken, row.family);
      } else {
        assert HasNewest(db, h);
        var k :| UnusedIn(db, k, db.tokens[h].family);
        assert UnusedIn(db', k, db'.tokens[h].family);
      }
    }
  }

  /** Every serialised refresh and logout keeps the chain. */
  lemma OperationsStayChained(db: Db, token: nat, newToken: nat, jti: nat, access: Option<Access>,
                              startedAt: int, t0: nat, t1: nat)
    requires Chained(db) && newToken !in db.tokens
    ensures Chained(Refresh(db, token, newToken, jti, startedAt, t0, t1).1)
    ensures Chained(Logout(db, access, token, startedAt, t0, t1).1)
  {
    if token in db.tokens {
      var row := db.tokens[token];
      if row.used.None? {
        RotationStaysChained(db, token, newToken, startedAt, t1);
      }
      SameChainStaysChained(db, db.(tokens := RevokeFamily(db.tokens, row.family, startedAt)));
      SameChainStaysChained(db, Logout(db, access, token, startedAt, t0, t1).1);
    }
  }

  // ---- Reuse and logout revoke the family ----

  /** The family exists and every token of it is revoked. */
  ghost predicate Dead(db: Db, family: nat) {
    && Family(db, family) != {}
    && forall h {:trigger db.tokens[h]} | h in db.tokens && db.tokens[h].family == family :: db.tokens[h].revoked.Some?
  }

  /** A refresh revokes the whole family exactly when an active token is presented that was used before. */
  lemma ReuseRevokesFamily(db: Db, token: nat, newToken: nat, jti: nat, startedAt: int, checkedAt: nat, signedAt: nat)
    requires token in db.tokens && newToken !in db.tokens
    ensures var (outcome, db') := Refresh(db, token, newToken, jti, startedAt, checkedAt, signedAt);
            var row := db.tokens[token];
            && (outcome == ReuseDetected <==> row.revoked.None? && row.expires > checkedAt && row.used.Some?)
            && (outcome == ReuseDetected ==> Dead(db', row.family))
            && (outcome != ReuseDetected ==> (Dead(db', row.family) <==> Dead(db, row.family)))
  {
    var (outcome, db') := Refresh(db, token, newToken, jti, startedAt, checkedAt, signedAt);
    assert token in Family(db, db.tokens[token].family) && token in Family(db', db.tokens[token].family);
    if outcome.Rotated? {
      assert db'.tokens[newToken].revoked.None?;
    }
  }

  lemma LogoutRevokesFamily(db: Db, access: Option<Access>, token: nat, startedAt: int, verifiedAt: nat, deniedAt: nat)
    ensures var (outcome, db') := Logout(db, access, token, startedAt, verifiedAt, deniedAt);
            outcome == LoggedOut ==>
              Dead(db', access.value.family) && (deniedAt < access.value.exp * 1000 ==> access.value.jti in db'.denied)
  {
    var (outcome, db') := Logout(db, access, token, startedAt, verifiedAt, deniedAt);
    if outcome == LoggedOut {
      assert token in Family(db', access.value.family);
    }
  }

  // ---- No gap between denylist and expiry ----

  /** A token logged out at `deniedAt` gets past the guard at a later time exactly when the guard straddles its expiry:
      verified before exp, and looked up once the denylist row no longer counts. */
  lemma RevokedAdmittedIffStraddling(db: Db, denied: map<nat, int>, access: Access, deniedAt: nat,
                                     verifiedAt: nat, lookedUpMicros: int)
    requires db.denied == Deny(denied, access, deniedAt) && deniedAt <= verifiedAt
    ensures Admits(db, access, verifiedAt, lookedUpMicros) <==>
              verifiedAt < access.exp * 1000 && access.exp * 1_000_000 <= lookedUpMicros
  {
  }

  /** So whenever both checks read the same millisecond - or the database's clock is not ahead - the token is refused.
      */
  lemma NoGap(db: Db, denied: map<nat, int>, access: Access, deniedAt: nat, verifiedAt: nat, lookedUpMicros: int)
    requires db.denied == Deny(denied, access, deniedAt) && deniedAt <= verifiedAt
    requires lookedUpMicros < (verifiedAt + 1) * 1000
    ensures !Admits(db, access, verifiedAt, lookedUpMicros)
  {
    RevokedAdmittedIffStraddling(db, denied, access, deniedAt, verifiedAt, lookedUpMicros);
  }

  // ---- The service with the tables to itself ----

  datatype GuardResult = NoHeader | BadToken | TokenRevoked | Admitted(user: Access)

  /** A user's row; password is None for accounts that cannot log in. */
  datatype User = User(id: nat, password: Option<string>)

  const BEARER := "Bearer "

  class AuthService {
    var users: map<string, User>
    var tokens: map<nat, Token>
    var denied: map<nat, int>

    function Tables(): Db
      reads this
    {
      Db(tokens, denied)
    }

    /** Issues the first token of a fresh family to whoever knows the password of that email, and to no one else. */
    method LoginWith(email: string, password: string, family: nat, token: nat, jti: nat,
        now: nat) returns (access: Option<Access>)
      modifies this`tokens
      ensures access.Some? <==> email in users && users[email].password == Some(password)
      ensures access.None? ==> Tables() == old(Tables())
      ensures access.Some? ==> access.value == SignAccessToken(users[email].id, jti, family, now)
      ensures access.Some? ==> Tables() == Login(old(Tables()), users[email].id, family, token, now)
    {
      if email !in users || users[email].password.None? {
        return None;
      }
      var user := users[email];
      if user.password.value != password {
        return None;
      }
      tokens := tokens[token := NewToken(family, user.id, now)];
      return Some(SignAccessToken(user.id, jti, family, now));
    }

    method RevokeAll(family: nat, at: int)
      modifies this`tokens
      ensures tokens == RevokeFamily(old(tokens), family, at)
    {
      var rest := tokens.Keys;
      ghost var was := tokens;
      while rest != {}
        invariant rest <= was.Keys && tokens.Keys == was.Keys
        invariant forall h {:trigger tokens[h]} | h in was ::
                    tokens[h] == if h in rest then was[h] else RevokeFamily(was, family, at)[h]
        decreases rest
      {
        var h :| h in rest;
        rest := rest - {h};
        if tokens[h].family == family {
          tokens := tokens[h := Revoked(tokens[h], at)];
        }
      }
    }

    method RefreshWith(token: nat, newToken: nat, jti: nat, startedAt: int, checkedAt: nat,
        signedAt: nat) returns (r: Outcome)
      modifies this`tokens
      ensures (r, Tables()) == Refresh(old(Tables()), token, newToken, jti, startedAt, checkedAt, signedAt)
      ensures r == InvalidRefresh <==> token !in old(tokens)
      ensures r == NotActive <==>
                token in old(tokens) && (old(tokens)[token].revoked.Some? || old(tokens)[token].expires <= checkedAt)
      ensures r.Rotated? <==>
                token in old(tokens) && old(tokens)[token].used.None? && old(tokens)[token].revoked.None? &&
                old(tokens)[token].expires > checkedAt
      ensures !r.Rotated? && r != ReuseDetected ==> tokens == old(tokens)
    {
      if token !in tokens {
        return InvalidRefresh;
      }
      var current := tokens[token];
      if current.revoked.Some? || current.expires <= checkedAt {
        return NotActive;
      }
      if current.used.Some? {
        RevokeAll(current.family, startedAt);
        return ReuseDetected;
      }
      tokens := tokens[token := current.(used := Some(startedAt))];
      var access := SignAccessToken(current.user, jti, current.family, signedAt);
      tokens := tokens[newToken := NewToken(current.family, current.user, signedAt)];
      return Rotated(newToken, access);
    }

    method LogoutWith(access: Option<Access>, token: nat, startedAt: int, verifiedAt: nat,
        deniedAt: nat) returns (r: Outcome)
      modifies this`tokens, this`denied
      ensures (r, Tables()) == Logout(old(Tables()), access, token, startedAt, verifiedAt, deniedAt)
    {
      if access.None? || !Unexpired(access.value, verifiedAt) {
        return InvalidAccess;
      }
      if token !in tokens {
        return InvalidRefresh;
      }
      var row := tokens[token];
      if row.family != access.value.family || row.user != access.value.sub {
        return PairMismatch;
      }
      RevokeAll(row.family, startedAt);
      var expiresAt := access.value.exp * 1000;
      if expiresAt > deniedAt {
        denied := denied[access.value.jti := expiresAt];
      }
      return LoggedOut;
    }

    /** `decode` checks the signature and the claims; only what it yields can be admitted. */
    method CanActivate(header: Option<string>, decode: string -> Option<Access>, verifiedAt: nat, lookedUpMicros: int)
      returns (r: GuardResult)
      ensures r == NoHeader <==> header.None? || !("Bearer " <= header.value)
      ensures r.Admitted? <==> header.Some? && "Bearer " <= header.value &&
                               var access := decode(header.value[7..]);
                               access.Some? && Admits(Tables(), access.value, verifiedAt, lookedUpMicros)
      ensures r.Admitted? ==> Some(r.user) == decode(header.value[7..])
      ensures r.Admitted? ==>
                && verifiedAt / 1000 < r.user.exp
                && (r.user.jti in denied ==> denied[r.user.jti] * 1000 <= lookedUpMicros)
      ensures r == TokenRevoked ==>
                var access := decode(header.value[7..]);
                && access.Some? && verifiedAt / 1000 < access.value.exp
                && access.value.jti in denied && lookedUpMicros < denied[access.value.jti] * 1000
      ensures r == BadToken ==>
                var access := decode(header.value[7..]); access.None? || access.value.exp <= verifiedAt / 1000
    {
      if header.None? || !(BEARER <= header.value) {
        return NoHeader;
      }
      var payload := decode(header.value[|BEARER|..]);
      if payload.None? || !Unexpired(payload.value, verifiedAt) {
        return BadToken;
      }
      if IsAccessTokenDenied(Tables(), payload.value.jti, lookedUpMicros) {
        return TokenRevoked;
      }
      return Admitted(payload.value);
    }
  }
}
