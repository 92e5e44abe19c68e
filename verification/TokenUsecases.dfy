/**
 The three use cases that change the refresh-token table: internal/auth/usecase/login.go,
 refresh.go and logout.go.

 The outcome of every call the code cannot decide by itself (database statements, whether a user
 exists, password check, signing, randomness, commit) and the clock are inputs, collected per call.
 Tokens are stored by their hash; nothing below needs the hash to be injective.
 */
module TokenUsecases {
  import opened Wrappers
  import opened TokenStore

  datatype TokenPair = TokenPair(access: string, refresh: string)

  datatype Issuer = Issuer(hash: string -> string, refreshTTL: Time)

  datatype RefreshEnv = RefreshEnv(
    now: Time, beginOk: bool, findOk: bool, revokeOk: bool, lookupOk: bool, userFound: bool, signOk: bool,
    randomOk: bool, createOk: bool, commitOk: bool, revokeAllOk: bool, access: string, newRaw: string)

  datatype LoginEnv = LoginEnv(
    now: Time, valid: bool, lookupOk: bool, user: Option<UserId>, passwordOk: bool, signOk: bool,
    randomOk: bool, createOk: bool, access: string, newRaw: string)

  function NewRow(issuer: Issuer, user: UserId, newRaw: string, now: Time): RefreshToken {
    RefreshToken(user, issuer.hash(newRaw), false, now + issuer.refreshTTL)
  }

  /** The closure from the revocation on, once the token's row has been read as `stored` and found valid. */
  function Replace(issuer: Issuer, stored: RefreshToken, db: Db, key: string, env: RefreshEnv)
    : (Db, Result<TokenPair>)
  {
    var revocation := Revoke(db.View(), key, db.Ready(env.revokeOk));
    var revoked := db.Took(revocation);
    if revocation.1.Some? then (revoked, Err(revocation.1.value))
    else if !revoked.Ready(env.lookupOk) then (revoked.Fail(), Err(Internal("find user")))
    else if !env.userFound then (revoked, Err(UserNotFound))
    else if !env.signOk then (revoked, Err(Internal("sign")))
    else if !env.randomOk then (revoked, Err(Internal("random")))
    else
      var row := NewRow(issuer, stored.userID, env.newRaw, env.now);
      var creation := Create(revoked.View(), row, revoked.Ready(env.createOk));
      var created := revoked.Took(creation);
      (created, if creation.1.Some? then Err(creation.1.value) else Ok(TokenPair(env.access, env.newRaw)))
  }

  /** The whole closure; every failure of the read is reported as a missing token. */
  function Rotate(issuer: Issuer, db: Db, key: string, env: RefreshEnv): (r: (Db, Result<TokenPair>))
    ensures r.1 == Err(TokenRevoked) ==> key in db.View() && db.View()[key].revoked
  {
    if !db.Ready(env.findOk) then (db.Fail(), Err(TokenNotFound))
    else if key !in db.View() then (db, Err(TokenNotFound))
    else
      var stored := db.View()[key];
      if stored.revoked then (db, Err(TokenRevoked))
      else if stored.IsExpired(env.now) then (db, Err(TokenExpired))
      else Replace(issuer, stored, db, key, env)
  }

  /** RunInTransaction around the closure. */
  function Transact(issuer: Issuer, db: Db, key: string, env: RefreshEnv): (r: (Db, Result<TokenPair>))
    ensures r.1 == Err(TokenRevoked) ==> key in db.View() && db.View()[key].revoked
  {
    if db.tx.Some? then Rotate(issuer, db, key, env)
    else if !env.beginOk then (db, Err(Internal("begin")))
    else
      var (after, result) := Rotate(issuer, db.(tx := Some(Tx(db.committed, false))), key, env);
      if result.Err? then (db, result)
      else if !env.commitOk then (db, Err(Internal("commit")))
      else (Db(after.Commit(), None), result)
  }

  function Refresh(issuer: Issuer, db: Db, raw: string, env: RefreshEnv): (Db, Result<TokenPair>) {
    if raw == "" then (db, Err(InvalidInput))
    else
      var key := issuer.hash(raw);
      var (closed, result) := Transact(issuer, db, key, env);
      if result == Err(TokenRevoked) then
        (closed.Took(RevokeAll(closed.View(), db.View()[key].userID, closed.Ready(env.revokeAllOk))), result)
      else (closed, result)
  }

  function Login(issuer: Issuer, db: Db, env: LoginEnv): (Db, Result<TokenPair>) {
    if !env.valid then (db, Err(InvalidInput))
    else if !db.Ready(env.lookupOk) then (db.Fail(), Err(InvalidCredentials))
    else if env.user.None? || !env.passwordOk then (db, Err(InvalidCredentials))
    else if !env.signOk then (db, Err(Internal("sign")))
    else if !env.randomOk then (db, Err(Internal("random")))
    else
      var row := NewRow(issuer, env.user.value, env.newRaw, env.now);
      var creation := Create(db.View(), row, db.Ready(env.createOk));
      (db.Took(creation),
       if creation.1.Some? then Err(creation.1.value) else Ok(TokenPair(env.access, env.newRaw)))
  }

  function Logout(issuer: Issuer, db: Db, raw: string, ok: bool): (Db, Option<AuthError>) {
    if raw == "" then (db, Some(InvalidInput))
    else
      var outcome := Revoke(db.View(), issuer.hash(raw), db.Ready(ok));
      (db.Took(outcome), outcome.1)
  }

  // ---- The use cases as the source writes them ----

  class RefreshUsecase {
    const repo: AuthRepository
    const issuer: Issuer

    constructor (repo: AuthRepository, issuer: Issuer)
      ensures this.repo == repo && this.issuer == issuer
    {
      this.repo, this.issuer := repo, issuer;
    }

    /** The closure passed to RunInTransaction, with the two variables it sets for its caller. */
    method InTransaction(key: string, env: RefreshEnv)
      returns (result: Result<TokenPair>, isReplayAttack: bool, replayUserID: UserId)
      requires repo.db.tx.Some?
      modifies repo.db
      ensures (repo.db.Snapshot(), result) == Rotate(issuer, old(repo.db.Snapshot()), key, env)
      ensures isReplayAttack == (result == Err(TokenRevoked))
      ensures isReplayAttack ==> key in old(repo.db.Snapshot()).View()
                                 && replayUserID == old(repo.db.Snapshot()).View()[key].userID
    {
      isReplayAttack, replayUserID := false, 0;
      var found := repo.FindTokenByValue(key, env.findOk);
      if found.Err? {
        return Err(TokenNotFound), isReplayAttack, replayUserID;
      }
      var stored := found.value;
      if stored.revoked {
        return Err(TokenRevoked), true, stored.userID;
      }
      if stored.IsExpired(env.now) {
        return Err(TokenExpired), isReplayAttack, replayUserID;
      }
      var revokeError := repo.RevokeToken(key, env.revokeOk);
      if revokeError.Some? {
        return Err(revokeError.value), isReplayAttack, replayUserID;
      }
      var lookedUp := repo.db.Attempt(env.lookupOk);
      if !lookedUp {
        return Err(Internal("find user")), isReplayAttack, replayUserID;
      }
      if !env.userFound {
        return Err(UserNotFound), isReplayAttack, replayUserID;
      }
      if !env.signOk {
        return Err(Internal("sign")), isReplayAttack, replayUserID;
      }
      if !env.randomOk {
        return Err(Internal("random")), isReplayAttack, replayUserID;
      }
      var row := RefreshToken(stored.userID, issuer.hash(env.newRaw), false, env.now + issuer.refreshTTL);
      var createError := repo.CreateToken(row, env.createOk);
      if createError.Some? {
        return Err(createError.value), isReplayAttack, replayUserID;
      }
      return Ok(TokenPair(env.access, env.newRaw)), isReplayAttack, replayUserID;
    }

    /** The call of RunInTransaction. */
    method RunInTransaction(key: string, env: RefreshEnv)
      returns (result: Result<TokenPair>, isReplayAttack: bool, replayUserID: UserId)
      modifies repo.db
      ensures (repo.db.Snapshot(), result) == Transact(issuer, old(repo.db.Snapshot()), key, env)
      ensures isReplayAttack == (result == Err(TokenRevoked))
      ensures isReplayAttack ==> key in old(repo.db.Snapshot()).View()
                                 && replayUserID == old(repo.db.Snapshot()).View()[key].userID
    {
      var owned, beginError := repo.db.Begin(env.beginOk);
      if beginError {
        return Err(Internal("begin")), false, 0;
      }
      result, isReplayAttack, replayUserID := InTransaction(key, env);
      var failed := repo.db.End(owned, result.Err?, env.commitOk);
      if failed && result.Ok? {
        result := Err(Internal("commit"));
      }
    }

    method Execute(raw: string, env: RefreshEnv) returns (result: Result<TokenPair>)
      modifies repo.db
      ensures (repo.db.Snapshot(), result) == Refresh(issuer, old(repo.db.Snapshot()), raw, env)
    {
      if raw == "" {
        return Err(InvalidInput);
      }
      var key := issuer.hash(raw);
      var isReplayAttack, replayUserID;
      result, isReplayAttack, replayUserID := RunInTransaction(key, env);
      if isReplayAttack {
        var ignored := repo.RevokeAllUserTokens(replayUserID, env.revokeAllOk);
        return Err(TokenRevoked);
      }
    }
  }

  class LoginUsecase {
    const repo: AuthRepository
    const issuer: Issuer

    constructor (repo: AuthRepository, issuer: Issuer)
      ensures this.repo == repo && this.issuer == issuer
    {
      this.repo, this.issuer := repo, issuer;
    }

    method Execute(env: LoginEnv) returns (result: Result<TokenPair>)
      modifies repo.db
      ensures (repo.db.Snapshot(), result) == Login(issuer, old(repo.db.Snapshot()), env)
    {
      if !env.valid {
        return Err(InvalidInput);
      }
      var lookedUp := repo.db.Attempt(env.lookupOk);
      if !lookedUp || env.user.None? {
        return Err(InvalidCredentials);
      }
      if !env.passwordOk {
        return Err(InvalidCredentials);
      }
      if !env.signOk {
        return Err(Internal("sign"));
      }
      if !env.randomOk {
        return Err(Internal("random"));
      }
      var row := RefreshToken(env.user.value, issuer.hash(env.newRaw), false, env.now + issuer.refreshTTL);
      var error := repo.CreateToken(row, env.createOk);
      if error.Some? {
        return Err(error.value);
      }
      return Ok(TokenPair(env.access, env.newRaw));
    }
  }

  class LogoutUsecase {
    const repo: AuthRepository
    const issuer: Issuer

    constructor (repo: AuthRepository, issuer: Issuer)
      ensures this.repo == repo && this.issuer == issuer
    {
      this.repo, this.issuer := repo, issuer;
    }

    method Execute(raw: string, ok: bool) returns (error: Option<AuthError>)
      modifies repo.db
      ensures (repo.db.Snapshot(), error) == Logout(issuer, old(repo.db.Snapshot()), raw, ok)
    {
      if raw == "" {
        return Some(InvalidInput);
      }
      error := repo.RevokeToken(issuer.hash(raw), ok);
    }
  }
}
