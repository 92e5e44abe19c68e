/**
 The refresh-token table and its transactions:
 internal/auth/entity/token.go, internal/auth/repository/postgres/repository.go and
 infrastructure/database/postgres/tx_manager.go.

 The table is keyed by the token column, which has a unique index.  Any statement may fail
 without effect; whether it does is an input (`ok`).  A failed statement dooms the transaction it
 belongs to, as PostgreSQL does: every later statement in it fails and it cannot commit.
 */
module TokenStore {
  import opened Wrappers

  type Time = int
  type UserId = nat

  datatype RefreshToken = RefreshToken(userID: UserId, token: string, revoked: bool, expiresAt: Time) {
    predicate IsExpired(now: Time) {
      now > expiresAt
    }

    predicate IsValid(now: Time) {
      !revoked && !IsExpired(now)
    }
  }

  type Table = map<string, RefreshToken>

  datatype AuthError =
    | InvalidInput
    | InvalidCredentials
    | TokenNotFound
    | UserNotFound
    | TokenExpired
    | TokenRevoked
    | Internal(what: string)

  datatype Result<T> = Ok(value: T) | Err(error: AuthError)

  // ---- The statements, as functions on a table ----

  function Find(table: Table, token: string, ok: bool): Result<RefreshToken> {
    if !ok then Err(Internal("find token"))
    else if token in table then Ok(table[token]) else Err(TokenNotFound)
  }

  /** INSERT; the unique index refuses a token that is already stored. */
  function Create(table: Table, row: RefreshToken, ok: bool): (Table, Option<AuthError>) {
    if !ok || row.token in table then (table, Some(Internal("create token")))
    else (table[row.token := row], None)
  }

  /** UPDATE ... WHERE token = ?; it also matches a row that is revoked already. */
  function Revoke(table: Table, token: string, ok: bool): (Table, Option<AuthError>) {
    if !ok then (table, Some(Internal("revoke token")))
    else if token !in table then (table, Some(TokenNotFound))
    else (table[token := table[token].(revoked := true)], None)
  }

  /** UPDATE ... WHERE user_id = ? AND revoked = false. */
  function RevokeAll(table: Table, user: UserId, ok: bool): (Table, Option<AuthError>) {
    if !ok then (table, Some(Internal("revoke all user tokens")))
    else
      (map token | token in table ::
         if table[token].userID == user && !table[token].revoked then table[token].(revoked := true) else table[token],
       None)
  }

  // ---- The database ----

  /** An open transaction: its own table, and whether one of its statements failed. */
  datatype Tx = Tx(table: Table, doomed: bool)

  /** What is committed, and the transaction in the context, if there is one. */
  datatype Db = Db(committed: Table, tx: Option<Tx>) {
    /** GetDB: the transaction's view when there is one. */
    function View(): Table {
      if tx.Some? then tx.value.table else committed
    }

    /** Whether a statement that by itself would succeed does so here. */
    predicate Ready(ok: bool) {
      ok && !(tx.Some? && tx.value.doomed)
    }

    function Write(table: Table): Db {
      if tx.Some? then this.(tx := Some(tx.value.(table := table))) else this.(committed := table)
    }

    function Fail(): Db {
      if tx.Some? then this.(tx := Some(tx.value.(doomed := true))) else this
    }

    /** The database after a statement with this outcome; statement failures are the internal errors. */
    function Took(outcome: (Table, Option<AuthError>)): Db {
      if outcome.1.Some? && outcome.1.value.Internal? then Fail() else Write(outcome.0)
    }

    /** What an owner whose callback returned nil commits. */
    function Commit(): Table {
      if tx.Some? && !tx.value.doomed then tx.value.table else committed
    }
  }

  class Database {
    var committed: Table
    var tx: Option<Tx>

    ghost function Snapshot(): Db
      reads this
    {
      Db(committed, tx)
    }

    constructor (committed: Table)
      ensures Snapshot() == Db(committed, None)
    {
      this.committed := committed;
      tx := None;
    }

    method View() returns (table: Table)
      ensures table == Snapshot().View()
    {
      if tx.Some? {
        return tx.value.table;
      }
      return committed;
    }

    /** A statement is about to run: it fails by itself or in a doomed transaction, and then dooms it. */
    method Attempt(ok: bool) returns (ready: bool)
      modifies this
      ensures ready == old(Snapshot()).Ready(ok)
      ensures Snapshot() == if ready then old(Snapshot()) else old(Snapshot()).Fail()
    {
      ready := ok;
      if tx.Some? {
        ready := ok && !tx.value.doomed;
        tx := Some(tx.value.(doomed := !ready));
      }
    }

    method Write(table: Table)
      modifies this
      ensures Snapshot() == old(Snapshot()).Write(table)
    {
      if tx.Some? {
        tx := Some(tx.value.(table := table));
      } else {
        committed := table;
      }
    }

    /** RunInTransaction up to the callback: an enclosing transaction is reused, otherwise one begins, if it can. */
    method Begin(ok: bool) returns (owned: bool, error: bool)
      modifies this
      ensures owned == (old(tx).None? && !error) && error == (old(tx).None? && !ok)
      ensures committed == old(committed)
      ensures tx == if error then None else if owned then Some(Tx(committed, false)) else old(tx)
    {
      if tx.Some? {
        return false, false;
      }
      if !ok {
        return false, true;
      }
      tx := Some(Tx(committed, false));
      return true, false;
    }

    /**
     RunInTransaction after the callback: an owned transaction commits if the callback returned nil
     and rolls back otherwise, or if the commit itself fails.  A reused one is left to its owner.
     */
    method End(owned: bool, failed: bool, commitOk: bool) returns (error: bool)
      requires tx.Some?
      modifies this
      ensures error == (failed || (owned && (!commitOk || old(tx).value.doomed)))
      ensures if !owned then Snapshot() == old(Snapshot())
              else Snapshot() == Db(if error then old(committed) else old(Snapshot()).Commit(), None)
    {
      if !owned {
        return failed;
      }
      if !failed && commitOk && !tx.value.doomed {
        committed := tx.value.table;
        tx := None;
        return false;
      }
      tx := None;
      return true;
    }
  }

  class AuthRepository {
    const db: Database

    constructor (db: Database)
      ensures this.db == db
    {
      this.db := db;
    }

    method FindTokenByValue(token: string, ok: bool) returns (found: Result<RefreshToken>)
      modifies db
      ensures found == Find(old(db.Snapshot()).View(), token, old(db.Snapshot()).Ready(ok))
      ensures db.Snapshot() == if old(db.Snapshot()).Ready(ok) then old(db.Snapshot()) else old(db.Snapshot()).Fail()
    {
      var ready := db.Attempt(ok);
      if !ready {
        return Err(Internal("find token"));
      }
      var table := db.View();
      if token !in table {
        return Err(TokenNotFound);
      }
      return Ok(table[token]);
    }

    method CreateToken(row: RefreshToken, ok: bool) returns (error: Option<AuthError>)
      modifies db
      ensures var outcome := Create(old(db.Snapshot()).View(), row, old(db.Snapshot()).Ready(ok));
              error == outcome.1 && db.Snapshot() == old(db.Snapshot()).Took(outcome)
    {
      var table := db.View();
      var ready := db.Attempt(ok && row.token !in table);
      if !ready {
        return Some(Internal("create token"));
      }
      db.Write(table[row.token := row]);
      return None;
    }

    method RevokeToken(token: string, ok: bool) returns (error: Option<AuthError>)
      modifies db
      ensures var outcome := Revoke(old(db.Snapshot()).View(), token, old(db.Snapshot()).Ready(ok));
              error == outcome.1 && db.Snapshot() == old(db.Snapshot()).Took(outcome)
    {
      var ready := db.Attempt(ok);
      if !ready {
        return Some(Internal("revoke token"));
      }
      var table := db.View();
      if token !in table {
        return Some(TokenNotFound);
      }
      db.Write(table[token := table[token].(revoked := true)]);
      return None;
    }

    method RevokeAllUserTokens(user: UserId, ok: bool) returns (error: Option<AuthError>)
      modifies db
      ensures var outcome := RevokeAll(old(db.Snapshot()).View(), user, old(db.Snapshot()).Ready(ok));
              error == outcome.1 && db.Snapshot() == old(db.Snapshot()).Took(outcome)
    {
      var ready := db.Attempt(ok);
      if !ready {
        return Some(Internal("revoke all user tokens"));
      }
      var table := db.View();
      var left := table.Keys;
      var updated := table;
      while left != {}
        invariant left <= table.Keys && updated.Keys == table.Keys
        invariant forall k :: k in left ==> updated[k] == table[k]
        invariant forall k :: k in table && k !in left ==>
                    updated[k] == if table[k].userID == user && !table[k].revoked then table[k].(revoked := true)
                                  else table[k]
        decreases left
      {
        var k :| k in left;
        if table[k].userID == user && !table[k].revoked {
          updated := updated[k := table[k].(revoked := true)];
        }
        left := left - {k};
      }
      assert updated == RevokeAll(table, user, true).0;
      db.Write(updated);
      return None;
    }
  }
}
