/**
 Refresh-token rotation over whole runs of Login, Refresh and Logout, taken one at a time
 (serial transactions, none nested), from an empty table.  Module TokenInterleavings has the overlapping ones.

 A token's lineage is history: the login that its chain of rotations started from.
 */
module TokenRuns {
  import opened Wrappers
  import opened TokenStore
  import opened TokenUsecases

  datatype System = System(table: Table, lineage: map<string, nat>, logins: nat)

  datatype Event =
    | DoLogin(login: LoginEnv)
    | DoRefresh(raw: string, refresh: RefreshEnv)
    | DoLogout(raw: string, ok: bool)

  const EMPTY := System(map[], map[], 0)

  function RefreshResult(issuer: Issuer, sys: System, raw: string, env: RefreshEnv): Result<TokenPair> {
    Refresh(issuer, Db(sys.table, None), raw, env).1
  }

  function LoginResult(issuer: Issuer, sys: System, env: LoginEnv): Result<TokenPair> {
    Login(issuer, Db(sys.table, None), env).1
  }

  function Apply(issuer: Issuer, sys: System, e: Event): System {
    match e
    case DoLogin(env) =>
      var (db, result) := Login(issuer, Db(sys.table, None), env);
      if result.Err? then sys.(table := db.committed)
      else System(db.committed, sys.lineage[issuer.hash(env.newRaw) := sys.logins], sys.logins + 1)
    case DoRefresh(raw, env) =>
      var (db, result) := Refresh(issuer, Db(sys.table, None), raw, env);
      if result.Err? || issuer.hash(raw) !in sys.lineage then sys.(table := db.committed)
      else sys.(table := db.committed, lineage := sys.lineage[issuer.hash(env.newRaw) := sys.lineage[issuer.hash(raw)]])
    case DoLogout(raw, ok) =>
      sys.(table := Logout(issuer, Db(sys.table, None), raw, ok).0.committed)
  }

  function After(issuer: Issuer, es: seq<Event>): System {
    if es == [] then EMPTY else Apply(issuer, After(issuer, es[..|es| - 1]), es[|es| - 1])
  }

  lemma AfterPrefix(issuer: Issuer, es: seq<Event>, i: nat)
    requires i < |es|
    ensures After(issuer, es[..i + 1]) == Apply(issuer, After(issuer, es[..i]), es[i])
  {
    assert es[..i + 1][..i] == es[..i];
  }

  // ---- The statements ----

  /** What the four statements on the token table answer and change; a statement that fails changes nothing. */
  lemma StatementsMean(table: Table, token: string, row: RefreshToken, user: UserId, ok: bool)
    ensures Find(table, token, ok)
            == (if !ok then Err(Internal("find token"))
                else if token !in table then Err(TokenNotFound) else Ok(table[token]))
    ensures var (after, error) := Create(table, row, ok);
            if ok && row.token !in table then error.None? && after == table[row.token := row]
            else after == table && error == Some(Internal("create token"))
    ensures var (after, error) := Revoke(table, token, ok);
            if ok && token in table then error.None? && after == table[token := table[token].(revoked := true)]
            else after == table && error == Some(if ok then TokenNotFound else Internal("revoke token"))
    ensures var (after, error) := RevokeAll(table, user, ok);
            if !ok then after == table && error == Some(Internal("revoke all user tokens"))
            else error.None? && after.Keys == table.Keys
                 && forall k :: k in table ==>
                      after[k] == if table[k].userID == user then table[k].(revoked := true) else table[k]
  {
  }

  // ---- One Refresh ----

  /** Exactly when a Refresh succeeds, and exactly what it does then. */
  lemma RefreshSucceedsExactlyWhen(issuer: Issuer, table: Table, raw: string, env: RefreshEnv)
    ensures var (db, result) := Refresh(issuer, Db(table, None), raw, env);
            var key, newKey := issuer.hash(raw), issuer.hash(env.newRaw);
            && (result.Ok? <==>
                  raw != "" && key in table && table[key].IsValid(env.now) && newKey !in table
                  && env.beginOk && env.findOk && env.revokeOk && env.lookupOk && env.userFound && env.signOk
                  && env.randomOk && env.createOk && env.commitOk)
            && (result.Ok? ==>
                  && result.value == TokenPair(env.access, env.newRaw)
                  && db.committed.Keys == table.Keys + {newKey}
                  && db.committed[key] == table[key].(revoked := true)
                  && db.committed[newKey] == NewRow(issuer, table[key].userID, env.newRaw, env.now)
                  && forall k :: k in table && k != key ==> db.committed[k] == table[k])
  {
  }

  /** Which error each failed Refresh outside any other transaction reports. */
  lemma RefreshErrors(issuer: Issuer, table: Table, raw: string, env: RefreshEnv)
    ensures var result := Refresh(issuer, Db(table, None), raw, env).1;
            var key := issuer.hash(raw);
            && (raw == "" <==> result == Err(InvalidInput))
            && (raw != "" && !env.beginOk ==> result == Err(Internal("begin")))
            && (result == Err(TokenNotFound) <==> raw != "" && env.beginOk && (!env.findOk || key !in table))
            && (result == Err(TokenExpired) <==>
                  raw != "" && env.beginOk && env.findOk && key in table && !table[key].revoked
                  && env.now > table[key].expiresAt)
            && (result == Err(UserNotFound) <==>
                  raw != "" && env.beginOk && env.findOk && key in table && table[key].IsValid(env.now)
                  && env.revokeOk && env.lookupOk && !env.userFound)
            && (result.Err? && result.error.Internal? ==>
                  !env.beginOk || !env.revokeOk || !env.lookupOk || !env.signOk || !env.randomOk || !env.createOk
                  || !env.commitOk || issuer.hash(env.newRaw) in table)
  {
  }

  /** A failed Refresh outside any other transaction leaves the table as it was, except for reuse detection. */
  lemma FailedRefreshRollsBack(issuer: Issuer, table: Table, raw: string, env: RefreshEnv)
    ensures var (db, result) := Refresh(issuer, Db(table, None), raw, env);
            && (result.Err? && result.error != TokenRevoked ==> db == Db(table, None))
            && (result == Err(TokenRevoked) <==>
                  raw != "" && env.beginOk && env.findOk && issuer.hash(raw) in table
                  && table[issuer.hash(raw)].revoked)
            && (result == Err(TokenRevoked) ==>
                  var user := table[issuer.hash(raw)].userID;
                  && db.tx.None? && db.committed.Keys == table.Keys
                  && forall k :: k in table ==>
                       db.committed[k] == if env.revokeAllOk && table[k].userID == user
                                          then table[k].(revoked := true) else table[k])
  {
  }

  /** Refresh gets as far as its own revocation. */
  predicate Consumes(issuer: Issuer, table: Table, raw: string, env: RefreshEnv) {
    raw != "" && env.findOk && env.revokeOk && issuer.hash(raw) in table && table[issuer.hash(raw)].IsValid(env.now)
  }

  /** After its revocation, the code itself gives up, and no statement has failed. */
  predicate GivesUp(env: RefreshEnv) {
    env.lookupOk && (!env.userFound || !env.signOk || !env.randomOk)
  }

  /**
   Inside an enclosing transaction nothing is rolled back here.  A failed Refresh leaves it untouched if its
   reading told it to stop; it leaves the old token revoked if the code gave up after the revocation; and if a
   statement failed, the enclosing transaction can no longer commit anything.
   */
  lemma NestedFailureKeepsItsRevocation(issuer: Issuer, db: Db, raw: string, env: RefreshEnv)
    requires db.tx.Some? && !db.tx.value.doomed
    ensures var (after, result) := Refresh(issuer, db, raw, env);
            var key, table := issuer.hash(raw), db.View();
            var stops := raw == "" || (env.findOk && (key !in table || table[key].IsExpired(env.now)));
            result.Err? && result.error != TokenRevoked ==>
              && (after == db <==> stops)
              && (Consumes(issuer, table, raw, env) && GivesUp(env) ==>
                    after.Commit() == table[key := table[key].(revoked := true)] && after.Commit() != table)
              && (after.tx.Some? && after.tx.value.doomed
                  <==> !stops && !(Consumes(issuer, table, raw, env) && GivesUp(env)))
              && (after.tx.Some? && after.tx.value.doomed ==> after.Commit() == db.committed)
    ensures var (after, result) := Refresh(issuer, db, raw, env);
            result == Err(TokenRevoked) ==>
              env.findOk && issuer.hash(raw) in db.View() && db.View()[issuer.hash(raw)].revoked
  {
    var key := issuer.hash(raw);
    if key in db.View() {
      assert db.View()[key].(revoked := true).revoked;
    }
  }

  ghost predicate NoneLive(table: Table, user: UserId) {
    forall token :: token in table && table[token].userID == user ==> table[token].revoked
  }

  /** A transaction's owner ends it: its changes are committed or lost as a whole. */
  function OwnerEnds(db: Db, commits: bool): Table {
    if commits then db.Commit() else db.committed
  }

  /**
   Inside an enclosing transaction the revoke-all after a detected reuse runs in that transaction, so nothing is
   committed yet; an owner that passes the error on and rolls back loses every revocation.  In the end the user
   is locked out exactly if the owner commits and the revoke-all worked, or no live token was committed before.
   */
  lemma NestedReuseNeedsItsOwner(issuer: Issuer, db: Db, raw: string, env: RefreshEnv, commits: bool)
    requires db.tx.Some? && !db.tx.value.doomed && raw != "" && env.findOk
    requires issuer.hash(raw) in db.View() && db.View()[issuer.hash(raw)].revoked
    ensures var (after, result) := Refresh(issuer, db, raw, env);
            var user := db.View()[issuer.hash(raw)].userID;
            && result == Err(TokenRevoked) && after.committed == db.committed && after.tx.Some?
            && after.tx.value == (if env.revokeAllOk then Tx(RevokeAll(db.View(), user, true).0, false)
                                  else Tx(db.View(), true))
            && (NoneLive(OwnerEnds(after, commits), user)
                <==> (commits && env.revokeAllOk) || NoneLive(db.committed, user))
  {
    var (after, result) := Refresh(issuer, db, raw, env);
    if commits && env.revokeAllOk {
      assert NoneLive(RevokeAll(db.View(), db.View()[issuer.hash(raw)].userID, true).0,
                      db.View()[issuer.hash(raw)].userID);
    }
  }

  // ---- One Login, one Logout ----

  /** Exactly when a Login succeeds, which row it then adds, and what a refused one is told. */
  lemma LoginSucceedsExactlyWhen(issuer: Issuer, db: Db, env: LoginEnv)
    ensures var (after, result) := Login(issuer, db, env);
            var newKey := issuer.hash(env.newRaw);
            && (result.Ok? <==>
                  env.valid && db.Ready(env.lookupOk) && env.user.Some? && env.passwordOk && env.signOk
                  && env.randomOk && db.Ready(env.createOk) && newKey !in db.View())
            && (result.Ok? ==>
                  && result.value == TokenPair(env.access, env.newRaw)
                  && after.View().Keys == db.View().Keys + {newKey}
                  && after.View()[newKey] == RefreshToken(env.user.value, newKey, false, env.now + issuer.refreshTTL)
                  && (forall k :: k in db.View() ==> after.View()[k] == db.View()[k])
                  && (db.tx.None? ==> after.tx.None?) && (db.tx.Some? ==> after.committed == db.committed))
            && (result.Err? ==> after.View() == db.View() && after.committed == db.committed)
            && (result == Err(InvalidInput) <==> !env.valid)
            && (result == Err(InvalidCredentials) <==>
                  env.valid && (!db.Ready(env.lookupOk) || env.user.None? || !env.passwordOk))
  {
  }

  /** Exactly when a Logout succeeds, and which row it then revokes. */
  lemma LogoutSucceedsExactlyWhen(issuer: Issuer, db: Db, raw: string, ok: bool)
    ensures var (after, error) := Logout(issuer, db, raw, ok);
            var key := issuer.hash(raw);
            && (error.None? <==> raw != "" && db.Ready(ok) && key in db.View())
            && (error.None? ==>
                  && after.View().Keys == db.View().Keys
                  && after.View()[key] == db.View()[key].(revoked := true)
                  && (forall k :: k in db.View() && k != key ==> after.View()[k] == db.View()[k])
                  && (db.tx.None? ==> after.tx.None?) && (db.tx.Some? ==> after.committed == db.committed))
            && (error.Some? ==> after.View() == db.View() && after.committed == db.committed)
            && (error == Some(InvalidInput) <==> raw == "")
            && (error == Some(TokenNotFound) <==> raw != "" && db.Ready(ok) && key !in db.View())
  {
  }

  // ---- Lineages ----

  ghost predicate Live(sys: System, token: string) {
    token in sys.table && !sys.table[token].revoked
  }

  ghost predicate RowOk(sys: System, token: string) {
    token in sys.table ==>
      sys.table[token].token == token && token in sys.lineage && sys.lineage[token] < sys.logins
  }

  /** Two stored tokens of one lineage belong to one user and are not both unrevoked. */
  ghost predicate PairOk(sys: System, a: string, b: string) {
    (a in sys.table && b in sys.table && a != b
     && a in sys.lineage && b in sys.lineage && sys.lineage[a] == sys.lineage[b]) ==>
      sys.table[a].userID == sys.table[b].userID && !(Live(sys, a) && Live(sys, b))
  }

  ghost predicate Inv(sys: System) {
    && sys.lineage.Keys == sys.table.Keys
    && (forall a {:trigger RowOk(sys, a)} :: RowOk(sys, a))
    && (forall a, b {:trigger PairOk(sys, a, b)} :: PairOk(sys, a, b))
  }

  /** No row comes or goes, and rows change only by being revoked. */
  ghost predicate OnlyRevoked(sys: System, sys': System) {
    && sys'.lineage == sys.lineage && sys'.logins == sys.logins && sys'.table.Keys == sys.table.Keys
    && forall k :: k in sys.table ==>
         sys'.table[k] == sys.table[k] || sys'.table[k] == sys.table[k].(revoked := true)
  }

  /** One new row, of a new lineage. */
  ghost predicate LoggedIn(sys: System, sys': System, newKey: string) {
    && newKey !in sys.table && newKey in sys'.table
    && sys'.table == sys.table[newKey := sys'.table[newKey]] && sys'.table[newKey].token == newKey
    && sys'.lineage == sys.lineage[newKey := sys.logins] && sys'.logins == sys.logins + 1
  }

  /** One row revoked that was not, and one new row of its user and lineage. */
  ghost predicate Rotated(sys: System, sys': System, key: string, newKey: string) {
    && key in sys.table && !sys.table[key].revoked && key in sys.lineage && newKey !in sys.table
    && sys'.table.Keys == sys.table.Keys + {newKey} && sys'.table[key] == sys.table[key].(revoked := true)
    && sys'.table[newKey].token == newKey && sys'.table[newKey].userID == sys.table[key].userID
    && (forall k :: k in sys.table && k != key ==> sys'.table[k] == sys.table[k])
    && sys'.lineage == sys.lineage[newKey := sys.lineage[key]] && sys'.logins == sys.logins
  }

  lemma RefreshShape(issuer: Issuer, sys: System, e: Event)
    requires sys.lineage.Keys == sys.table.Keys && e.DoRefresh?
    ensures var sys' := Apply(issuer, sys, e);
            OnlyRevoked(sys, sys') || Rotated(sys, sys', issuer.hash(e.raw), issuer.hash(e.refresh.newRaw))
  {
    RefreshSucceedsExactlyWhen(issuer, sys.table, e.raw, e.refresh);
    FailedRefreshRollsBack(issuer, sys.table, e.raw, e.refresh);
  }

  /** Every event has one of the three shapes. */
  lemma EventShape(issuer: Issuer, sys: System, e: Event)
    requires sys.lineage.Keys == sys.table.Keys
    ensures var sys' := Apply(issuer, sys, e);
            || OnlyRevoked(sys, sys')
            || (e.DoLogin? && LoggedIn(sys, sys', issuer.hash(e.login.newRaw)))
            || (e.DoRefresh? && Rotated(sys, sys', issuer.hash(e.raw), issuer.hash(e.refresh.newRaw)))
  {
    if e.DoRefresh? {
      RefreshShape(issuer, sys, e);
    }
  }

  lemma RevocationKeepsInv(sys: System, sys': System)
    requires Inv(sys) && OnlyRevoked(sys, sys')
    ensures Inv(sys')
  {
    forall a ensures RowOk(sys', a) {
      assert RowOk(sys, a);
    }
    forall a, b ensures PairOk(sys', a, b) {
      assert PairOk(sys, a, b);
    }
  }

  lemma LoginKeepsInv(sys: System, sys': System, newKey: string)
    requires Inv(sys) && LoggedIn(sys, sys', newKey)
    ensures Inv(sys')
  {
    forall a ensures RowOk(sys', a) {
      assert RowOk(sys, a);
    }
    forall a, b ensures PairOk(sys', a, b) {
      assert PairOk(sys, a, b) && RowOk(sys, a) && RowOk(sys, b);
    }
  }

  lemma RotationKeepsInv(sys: System, sys': System, key: string, newKey: string)
    requires Inv(sys) && Rotated(sys, sys', key, newKey)
    ensures Inv(sys')
  {
    assert RowOk(sys, key);
    forall a ensures RowOk(sys', a) {
      assert RowOk(sys, a);
    }
    forall a, b ensures PairOk(sys', a, b) {
      assert PairOk(sys, a, b) && PairOk(sys, a, key) && PairOk(sys, key, b);
    }
  }

  lemma EventKeepsInv(issuer: Issuer, sys: System, e: Event)
    requires Inv(sys)
    ensures Inv(Apply(issuer, sys, e))
  {
    var sys' := Apply(issuer, sys, e);
    EventShape(issuer, sys, e);
    if OnlyRevoked(sys, sys') {
      RevocationKeepsInv(sys, sys');
    } else if e.DoLogin? {
      LoginKeepsInv(sys, sys', issuer.hash(e.login.newRaw));
    } else {
      RotationKeepsInv(sys, sys', issuer.hash(e.raw), issuer.hash(e.refresh.newRaw));
    }
  }

  lemma {:induction false} RunKeepsInv(issuer: Issuer, es: seq<Event>)
    ensures Inv(After(issuer, es))
  {
    if es != [] {
      RunKeepsInv(issuer, es[..|es| - 1]);
      EventKeepsInv(issuer, After(issuer, es[..|es| - 1]), es[|es| - 1]);
    }
  }

  /** In every run, the rotations of one login have at most one unrevoked token between them. */
  lemma OneLiveTokenPerLogin(issuer: Issuer, es: seq<Event>, a: string, b: string)
    requires var sys := After(issuer, es);
             Live(sys, a) && Live(sys, b) && a in sys.lineage && b in sys.lineage && sys.lineage[a] == sys.lineage[b]
    ensures a == b
  {
    RunKeepsInv(issuer, es);
    assert PairOk(After(issuer, es), a, b);
  }

  // ---- What an issued token is good for ----

  /** The refresh token that event e hands out, and when it was issued. */
  function Issued(issuer: Issuer, sys: System, e: Event): Option<(string, Time)> {
    match e
    case DoLogin(env) =>
      var result := LoginResult(issuer, sys, env);
      if result.Ok? then Some((result.value.refresh, env.now)) else None
    case DoRefresh(raw, env) =>
      var result := RefreshResult(issuer, sys, raw, env);
      if result.Ok? then Some((result.value.refresh, env.now)) else None
    case DoLogout(_, _) => None
  }

  /** Nothing in the environment fails, and the new token's hash is not stored yet. */
  predicate Smooth(issuer: Issuer, table: Table, env: RefreshEnv) {
    env.beginOk && env.findOk && env.revokeOk && env.lookupOk && env.userFound && env.signOk && env.randomOk
    && env.createOk && env.commitOk && issuer.hash(env.newRaw) !in table
  }

  /** The token returned by a Login or a Refresh can be refreshed in turn exactly until its lifetime is over. */
  lemma IssuedTokenRefreshes(issuer: Issuer, sys: System, e: Event, env: RefreshEnv)
    requires Issued(issuer, sys, e).Some? && Issued(issuer, sys, e).value.0 != ""
    requires Smooth(issuer, Apply(issuer, sys, e).table, env)
    ensures var (raw, issuedAt) := Issued(issuer, sys, e).value;
            RefreshResult(issuer, Apply(issuer, sys, e), raw, env).Ok? <==> env.now <= issuedAt + issuer.refreshTTL
  {
    var (raw, issuedAt) := Issued(issuer, sys, e).value;
    var table := Apply(issuer, sys, e).table;
    RefreshSucceedsExactlyWhen(issuer, table, raw, env);
    if e.DoRefresh? {
      RefreshSucceedsExactlyWhen(issuer, sys.table, e.raw, e.refresh);
    }
  }

  /** A token that was logged out is not merely refused: refreshing it counts as reuse. */
  lemma LoggedOutTokenCountsAsReuse(issuer: Issuer, sys: System, raw: string, ok: bool, env: RefreshEnv)
    requires Logout(issuer, Db(sys.table, None), raw, ok).1.None? && env.beginOk && env.findOk
    ensures RefreshResult(issuer, Apply(issuer, sys, DoLogout(raw, ok)), raw, env) == Err(TokenRevoked)
  {
  }

  // ---- Revocation is for good ----

  lemma EventKeepsRevoked(issuer: Issuer, sys: System, e: Event, token: string)
    requires sys.lineage.Keys == sys.table.Keys && token in sys.table
    ensures token in Apply(issuer, sys, e).table
    ensures Apply(issuer, sys, e).table[token].userID == sys.table[token].userID
    ensures sys.table[token].revoked ==> Apply(issuer, sys, e).table[token].revoked
  {
    EventShape(issuer, sys, e);
  }

  lemma {:induction false} RevokedStays(issuer: Issuer, es: seq<Event>, i: nat, token: string)
    requires i <= |es| && token in After(issuer, es[..i]).table
    ensures token in After(issuer, es).table
    ensures After(issuer, es).table[token].userID == After(issuer, es[..i]).table[token].userID
    ensures After(issuer, es[..i]).table[token].revoked ==> After(issuer, es).table[token].revoked
    decreases |es|
  {
    if i == |es| {
      assert es[..i] == es;
    } else {
      var front := es[..|es| - 1];
      assert front[..i] == es[..i];
      RevokedStays(issuer, front, i, token);
      RunKeepsInv(issuer, front);
      EventKeepsRevoked(issuer, After(issuer, front), es[|es| - 1], token);
    }
  }

  /** Each stored token is good for at most one successful Refresh in a whole run. */
  lemma TokenRefreshesOnce(issuer: Issuer, es: seq<Event>, i: nat, j: nat)
    requires i < j < |es| && es[i].DoRefresh? && es[j].DoRefresh?
    requires issuer.hash(es[i].raw) == issuer.hash(es[j].raw)
    requires RefreshResult(issuer, After(issuer, es[..i]), es[i].raw, es[i].refresh).Ok?
    ensures RefreshResult(issuer, After(issuer, es[..j]), es[j].raw, es[j].refresh).Err?
  {
    AfterPrefix(issuer, es, i);
    assert es[..j][..i + 1] == es[..i + 1];
    RefreshSucceedsExactlyWhen(issuer, After(issuer, es[..i]).table, es[i].raw, es[i].refresh);
    RevokedStays(issuer, es[..j], i + 1, issuer.hash(es[i].raw));
  }

  // ---- Reuse detection ----

  /** Event e is a Refresh with a revoked token of this user whose revoke-all takes effect. */
  ghost predicate ReuseDetected(issuer: Issuer, sys: System, e: Event, user: UserId) {
    e.DoRefresh? && e.raw != "" && issuer.hash(e.raw) in sys.table
    && sys.table[issuer.hash(e.raw)].revoked && sys.table[issuer.hash(e.raw)].userID == user
    && e.refresh.beginOk && e.refresh.findOk && e.refresh.revokeAllOk
  }

  ghost predicate LockedOut(sys: System, user: UserId) {
    NoneLive(sys.table, user)
  }

  ghost predicate LogsIn(issuer: Issuer, sys: System, e: Event, user: UserId) {
    e.DoLogin? && e.login.user == Some(user) && LoginResult(issuer, sys, e.login).Ok?
  }

  /** The only event that gives a locked-out user an unrevoked token again is that user's Login. */
  lemma OnlyLoginUnlocks(issuer: Issuer, sys: System, e: Event, user: UserId)
    requires LockedOut(sys, user)
    ensures LockedOut(Apply(issuer, sys, e), user) <==> !LogsIn(issuer, sys, e, user)
  {
    if LogsIn(issuer, sys, e, user) {
      var newKey := issuer.hash(e.login.newRaw);
      assert newKey in Apply(issuer, sys, e).table && !Apply(issuer, sys, e).table[newKey].revoked;
    }
  }

  lemma {:induction false} LockedOutUntilLogin(issuer: Issuer, es: seq<Event>, i: nat, user: UserId)
    requires i < |es| && ReuseDetected(issuer, After(issuer, es[..i]), es[i], user)
    requires forall j :: i < j < |es| ==> !LogsIn(issuer, After(issuer, es[..j]), es[j], user)
    ensures LockedOut(After(issuer, es), user)
    decreases |es|
  {
    var front := es[..|es| - 1];
    if i == |front| {
      assert es[..i] == front;
    } else {
      assert forall j :: 0 <= j <= |front| ==> front[..j] == es[..j];
      assert forall j :: 0 <= j < |front| ==> front[j] == es[j];
      LockedOutUntilLogin(issuer, front, i, user);
      assert es[..|front|] == front;
      OnlyLoginUnlocks(issuer, After(issuer, front), es[|es| - 1], user);
    }
  }

  /**
   Section 5.2.2.3 of RFC 6819.  After a detected reuse every token of the user is revoked, and
   until that user logs in again every Refresh with any of the user's tokens fails.
   */
  lemma ReuseLocksUserOut(issuer: Issuer, es: seq<Event>, i: nat, user: UserId, raw: string, env: RefreshEnv)
    requires i < |es| && ReuseDetected(issuer, After(issuer, es[..i]), es[i], user)
    requires forall j :: i < j < |es| ==> !LogsIn(issuer, After(issuer, es[..j]), es[j], user)
    ensures LockedOut(After(issuer, es), user)
    ensures issuer.hash(raw) in After(issuer, es).table && After(issuer, es).table[issuer.hash(raw)].userID == user ==>
              RefreshResult(issuer, After(issuer, es), raw, env).Err?
  {
    LockedOutUntilLogin(issuer, es, i, user);
  }

  /** If the revoke-all fails, its error is dropped: the user stays open exactly when a live token was left. */
  lemma SwallowedRevokeAll(issuer: Issuer, sys: System, e: Event, user: UserId)
    requires e.DoRefresh? && ReuseDetected(issuer, sys, e.(refresh := e.refresh.(revokeAllOk := true)), user)
    ensures RefreshResult(issuer, sys, e.raw, e.refresh) == Err(TokenRevoked)
    ensures LockedOut(Apply(issuer, sys, e), user) <==> e.refresh.revokeAllOk || LockedOut(sys, user)
  {
  }
}
