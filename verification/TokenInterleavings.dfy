/**
 Overlapping Refreshes: internal/auth/usecase/refresh.go statement by statement, over one committed table.

 Any number of Refresh transactions interleave at PostgreSQL's default isolation level, READ COMMITTED
 (section 13.2.1 of its documentation): a SELECT sees what is committed, an UPDATE waits for the lock of a
 row that another open transaction has updated, and holds its own until commit.  The revoke-all that
 follows a detected reuse is one statement outside any transaction: it picks its rows from what is
 committed when it starts, waits for their locks, and revokes them.  A Refresh may give up between any two
 statements.  Generated tokens are distinct.

 The history kept beside the table: the number of events so far (`now`), when each transaction read and
 ended, when each token was first logged out, when each user last logged in, and the login a token stems from.
 */
module TokenInterleavings {
  import opened Wrappers
  import opened TokenStore
  import opened TokenUsecases
  import TokenRuns

  type TxId = nat

  /** HasRead: found its row valid.  Refused: found it revoked.  Updated, Inserted: holds the row's lock. */
  datatype Stage = Begun | HasRead | Updated | Inserted | Committed | Refused | Aborted

  datatype Rotation = Rotation(key: string, newKey: string, stage: Stage, readAt: nat, endedAt: nat, expiresAt: Time)

  /** A revoke-all: the rows it picked, when it started, and when it took effect. */
  datatype Sweep = Sweep(user: UserId, seen: set<string>, startedAt: nat, endedAt: Option<nat>)

  datatype State = State(
    table: Table, rotations: map<TxId, Rotation>, sweeps: map<TxId, Sweep>, used: set<string>,
    lineage: map<string, nat>, logouts: map<string, nat>, logins: map<UserId, nat>, now: nat)

  datatype Event =
    | Login(user: UserId, key: string, expiresAt: Time)
    | Logout(key: string)
    | Begin(x: TxId, key: string, newKey: string)
    | Read(x: TxId, at: Time)
    | Update(x: TxId)
    | Insert(x: TxId, expiresAt: Time)
    | Commit(x: TxId)
    | Abort(x: TxId)
    | StartSweep(x: TxId)
    | EndSweep(x: TxId)

  const EMPTY := State(map[], map[], map[], {}, map[], map[], map[], 0)

  /** Another open transaction has updated the row. */
  predicate HoldsLock(r: Rotation, key: string) {
    (r.stage == Updated || r.stage == Inserted) && r.key == key
  }

  ghost predicate Unlocked(s: State, key: string) {
    forall x :: x in s.rotations ==> !HoldsLock(s.rotations[x], key)
  }

  /** It found its row valid and may still commit. */
  predicate Open(r: Rotation) {
    r.stage == HasRead || r.stage == Updated || r.stage == Inserted
  }

  ghost predicate Enabled(s: State, e: Event) {
    match e
    case Login(_, key, _) => key !in s.used
    case Logout(key) => key in s.table && Unlocked(s, key)
    case Begin(x, _, newKey) => x !in s.rotations && newKey !in s.used
    case Read(x, _) => x in s.rotations && s.rotations[x].stage == Begun
    case Update(x) => x in s.rotations && s.rotations[x].stage == HasRead && Unlocked(s, s.rotations[x].key)
    case Insert(x, _) => x in s.rotations && s.rotations[x].stage == Updated
    case Commit(x) =>
      x in s.rotations && s.rotations[x].stage == Inserted
      && s.rotations[x].key in s.table && s.rotations[x].key in s.lineage
    case Abort(x) => x in s.rotations && (Open(s.rotations[x]) || s.rotations[x].stage == Begun)
    case StartSweep(x) =>
      x in s.rotations && s.rotations[x].stage == Refused && x !in s.sweeps && s.rotations[x].key in s.table
    case EndSweep(x) =>
      x in s.sweeps && s.sweeps[x].endedAt.None? && forall key :: key in s.sweeps[x].seen ==> Unlocked(s, key)
  }

  function LiveOf(table: Table, user: UserId): set<string> {
    set key | key in table && table[key].userID == user && !table[key].revoked
  }

  function RevokeThese(table: Table, keys: set<string>): Table {
    map key | key in table :: if key in keys then table[key].(revoked := true) else table[key]
  }

  /** What the transaction's SELECT tells it. */
  function ReadStage(table: Table, key: string, at: Time): Stage {
    if key !in table then Aborted
    else if table[key].revoked then Refused
    else if table[key].IsExpired(at) then Aborted
    else HasRead
  }

  function Apply(s: State, e: Event): State
    requires Enabled(s, e)
  {
    var s' := s.(now := s.now + 1);
    match e
    case Login(user, key, expiresAt) =>
      s'.(table := s.table[key := RefreshToken(user, key, false, expiresAt)], used := s.used + {key},
          lineage := s.lineage[key := s.now], logins := s.logins[user := s.now])
    case Logout(key) => s'.(table := RevokeThese(s.table, {key}),
          logouts := if key in s.logouts then s.logouts else s.logouts[key := s.now])
    case Begin(x, key, newKey) =>
      s'.(rotations := s.rotations[x := Rotation(key, newKey, Begun, 0, 0, 0)], used := s.used + {newKey})
    case Read(x, at) =>
      var r := s.rotations[x];
      s'.(rotations := s.rotations[x := r.(stage := ReadStage(s.table, r.key, at), readAt := s.now)])
    case Update(x) => s'.(rotations := s.rotations[x := s.rotations[x].(stage := Updated)])
    case Insert(x, expiresAt) =>
      s'.(rotations := s.rotations[x := s.rotations[x].(stage := Inserted, expiresAt := expiresAt)])
    case Commit(x) =>
      var r := s.rotations[x];
      var row := RefreshToken(s.table[r.key].userID, r.newKey, false, r.expiresAt);
      s'.(table := RevokeThese(s.table, {r.key})[r.newKey := row],
          rotations := s.rotations[x := r.(stage := Committed, endedAt := s.now)],
          lineage := s.lineage[r.newKey := s.lineage[r.key]])
    case Abort(x) => s'.(rotations := s.rotations[x := s.rotations[x].(stage := Aborted)])
    case StartSweep(x) =>
      var user := s.table[s.rotations[x].key].userID;
      s'.(sweeps := s.sweeps[x := Sweep(user, LiveOf(s.table, user), s.now, None)])
    case EndSweep(x) =>
      s'.(table := RevokeThese(s.table, s.sweeps[x].seen),
          sweeps := s.sweeps[x := s.sweeps[x].(endedAt := Some(s.now))])
  }

  // ---- Runs ----

  ghost predicate Legal(es: seq<Event>)
    decreases |es|, 0
  {
    es == [] || (Legal(es[..|es| - 1]) && Enabled(After(es[..|es| - 1]), es[|es| - 1]))
  }

  ghost function After(es: seq<Event>): State
    requires Legal(es)
    decreases |es|, 1
  {
    if es == [] then EMPTY else Apply(After(es[..|es| - 1]), es[|es| - 1])
  }

  lemma OneMore(es: seq<Event>, e: Event)
    requires Legal(es) && Enabled(After(es), e)
    ensures Legal(es + [e]) && After(es + [e]) == Apply(After(es), e)
  {
    assert (es + [e])[..|es|] == es;
  }

  lemma ThreeMore(es: seq<Event>, e1: Event, e2: Event, e3: Event)
    requires Legal(es) && Enabled(After(es), e1) && Enabled(Apply(After(es), e1), e2)
    requires Enabled(Apply(Apply(After(es), e1), e2), e3)
    ensures Legal(es + [e1, e2, e3]) && After(es + [e1, e2, e3]) == Apply(Apply(Apply(After(es), e1), e2), e3)
  {
    OneMore(es, e1);
    OneMore(es + [e1], e2);
    OneMore(es + [e1] + [e2], e3);
    assert es + [e1, e2, e3] == es + [e1] + [e2] + [e3];
  }

  // ---- What revokes a token ----

  /** A Refresh of the token committed by tick t. */
  ghost predicate RotatedBy(s: State, x: TxId, key: string, t: nat) {
    x in s.rotations && s.rotations[x].stage == Committed && s.rotations[x].key == key && s.rotations[x].endedAt <= t
  }

  /** A revoke-all that had picked the token took effect by tick t. */
  ghost predicate SweptBy(s: State, x: TxId, key: string, t: nat) {
    x in s.sweeps && s.sweeps[x].endedAt.Some? && s.sweeps[x].endedAt.value <= t && key in s.sweeps[x].seen
  }

  ghost predicate LoggedOutBy(s: State, key: string, t: nat) {
    key in s.logouts && s.logouts[key] <= t
  }

  /** A revocation of the token was visible at tick t. */
  ghost predicate RevokedBy(s: State, key: string, t: nat) {
    (exists x :: RotatedBy(s, x, key, t)) || (exists x :: SweptBy(s, x, key, t)) || LoggedOutBy(s, key, t)
  }

  /** The event makes a revocation of the token visible. */
  predicate Revokes(s: State, e: Event, key: string) {
    match e
    case Logout(k) => k == key
    case Commit(x) => x in s.rotations && s.rotations[x].key == key
    case EndSweep(x) => x in s.sweeps && key in s.sweeps[x].seen
    case _ => false
  }

  // ---- The invariant ----

  ghost predicate RowOk(s: State, key: string) {
    && (key in s.table ==>
          key in s.used && key in s.lineage && s.lineage[key] < s.now && s.table[key].token == key
          && (s.table[key].revoked <==> RevokedBy(s, key, s.now)))
    && (key in s.logouts ==> key in s.table && s.logouts[key] < s.now)
  }

  ghost predicate RotationOk(s: State, x: TxId) {
    x in s.rotations ==>
      var r := s.rotations[x];
      && r.newKey in s.used
      && (r.newKey in s.table <==> r.stage == Committed)
      && (Open(r) || r.stage == Committed || r.stage == Refused ==>
            r.key in s.table && r.readAt < s.now && (RevokedBy(s, r.key, r.readAt) <==> r.stage == Refused))
      && (r.stage == Committed ==> r.readAt < r.endedAt < s.now)
  }

  ghost predicate SweepOk(s: State, x: TxId) {
    x in s.sweeps ==>
      && s.sweeps[x].startedAt < s.now
      && (forall key :: key in s.sweeps[x].seen ==> key in s.table && s.table[key].userID == s.sweeps[x].user)
      && (s.sweeps[x].endedAt.Some? ==> s.sweeps[x].startedAt < s.sweeps[x].endedAt.value < s.now)
  }

  /** New tokens of different transactions differ. */
  ghost predicate ApartOk(s: State, x: TxId, y: TxId) {
    x in s.rotations && y in s.rotations && s.rotations[x].newKey == s.rotations[y].newKey ==> x == y
  }

  ghost predicate Inv(s: State) {
    && (forall key {:trigger RowOk(s, key)} :: RowOk(s, key))
    && (forall x {:trigger RotationOk(s, x)} :: RotationOk(s, x))
    && (forall x {:trigger SweepOk(s, x)} :: SweepOk(s, x))
    && (forall x, y {:trigger ApartOk(s, x, y)} :: ApartOk(s, x, y))
  }

  /** What was visible by a tick does not change afterwards. */
  lemma RevokedStable(s: State, e: Event, key: string, t: nat)
    requires Enabled(s, e) && (t < s.now || (t == s.now && !Revokes(s, e, key)))
    ensures RevokedBy(Apply(s, e), key, t) <==> RevokedBy(s, key, t)
  {
    var s' := Apply(s, e);
    forall x ensures RotatedBy(s', x, key, t) <==> RotatedBy(s, x, key, t) {
    }
    forall x ensures SweptBy(s', x, key, t) <==> SweptBy(s, x, key, t) {
    }
  }

  lemma RotatedNext(s: State, e: Event, key: string, x: TxId)
    requires RotationOk(s, x) && Enabled(s, e)
    ensures RotatedBy(Apply(s, e), x, key, s.now + 1)
            <==> RotatedBy(s, x, key, s.now) || (e == Commit(x) && s.rotations[x].key == key)
  {
  }

  lemma SweptNext(s: State, e: Event, key: string, x: TxId)
    requires SweepOk(s, x) && Enabled(s, e)
    ensures SweptBy(Apply(s, e), x, key, s.now + 1)
            <==> SweptBy(s, x, key, s.now) || (e == EndSweep(x) && key in s.sweeps[x].seen)
  {
  }

  lemma LoggedOutNext(s: State, e: Event, key: string)
    requires RowOk(s, key) && Enabled(s, e)
    ensures LoggedOutBy(Apply(s, e), key, s.now + 1) <==> LoggedOutBy(s, key, s.now) || e == Logout(key)
  {
  }

  /** A revocation is visible next when it was, or when the event makes it so. */
  lemma RevokedNext(s: State, e: Event, key: string)
    requires Inv(s) && Enabled(s, e)
    ensures RevokedBy(Apply(s, e), key, s.now + 1) <==> RevokedBy(s, key, s.now) || Revokes(s, e, key)
  {
    forall x
      ensures RotatedBy(Apply(s, e), x, key, s.now + 1)
              <==> RotatedBy(s, x, key, s.now) || (e == Commit(x) && s.rotations[x].key == key)
      ensures SweptBy(Apply(s, e), x, key, s.now + 1)
              <==> SweptBy(s, x, key, s.now) || (e == EndSweep(x) && key in s.sweeps[x].seen)
    {
      assert RotationOk(s, x) && SweepOk(s, x);
      RotatedNext(s, e, key, x);
      SweptNext(s, e, key, x);
    }
    assert RowOk(s, key);
    LoggedOutNext(s, e, key);
  }

  /** A token that is not stored has never been revoked. */
  lemma UnstoredIsUnrevoked(s: State, key: string, t: nat)
    requires Inv(s) && key !in s.table
    ensures !RevokedBy(s, key, t)
  {
    assert RowOk(s, key);
    forall x ensures !RotatedBy(s, x, key, t) && !SweptBy(s, x, key, t) {
      assert RotationOk(s, x) && SweepOk(s, x);
    }
  }

  /** The rows after an event: new ones unrevoked, old ones revoked as before or by the event. */
  lemma RowsNext(s: State, e: Event, key: string)
    requires Inv(s) && Enabled(s, e)
    ensures var s' := Apply(s, e);
            && (key in s.table ==> key in s'.table && s'.table[key].userID == s.table[key].userID
                                   && s'.table[key].token == s.table[key].token
                                   && s'.table[key].expiresAt == s.table[key].expiresAt
                                   && s'.table[key].revoked == (s.table[key].revoked || Revokes(s, e, key)))
            && (key in s'.table && key !in s.table ==>
                  && s'.table[key].token == key && !s'.table[key].revoked && !Revokes(s, e, key)
                  && ((e.Login? && e.key == key) || (e.Commit? && s.rotations[e.x].newKey == key)))
  {
    if e.Commit? {
      assert RotationOk(s, e.x);
    } else if e.EndSweep? {
      assert SweepOk(s, e.x);
    } else if e.Login? {
      assert RowOk(s, e.key);
    }
  }

  lemma KeepsRow(s: State, e: Event, key: string)
    requires Inv(s) && Enabled(s, e)
    ensures RowOk(Apply(s, e), key)
  {
    assert RowOk(s, key);
    RowsNext(s, e, key);
    RevokedNext(s, e, key);
    if key !in s.table {
      UnstoredIsUnrevoked(s, key, s.now);
    }
    if e.Commit? {
      assert RotationOk(s, e.x) && RowOk(s, s.rotations[e.x].key);
    }
  }

  lemma ReadKeepsRotation(s: State, e: Event, x: TxId)
    requires Inv(s) && Enabled(s, e) && e.Read? && e.x == x
    ensures RotationOk(Apply(s, e), x)
  {
    var key := s.rotations[x].key;
    assert RotationOk(s, x) && RowOk(s, key);
    RevokedStable(s, e, key, s.now);
  }

  lemma BeginKeepsRotation(s: State, e: Event, x: TxId)
    requires Inv(s) && Enabled(s, e) && e.Begin? && e.x == x
    ensures RotationOk(Apply(s, e), x)
  {
    assert RowOk(s, e.newKey);
  }

  lemma CommitKeepsRotation(s: State, e: Event, x: TxId)
    requires Inv(s) && Enabled(s, e) && e.Commit?
    ensures RotationOk(Apply(s, e), x)
  {
    assert RotationOk(s, x) && ApartOk(s, x, e.x);
    if x in s.rotations {
      var r := s.rotations[x];
      RowsNext(s, e, r.key);
      RowsNext(s, e, r.newKey);
      if r.readAt < s.now {
        RevokedStable(s, e, r.key, r.readAt);
      }
    }
  }

  lemma OtherKeepsRotation(s: State, e: Event, x: TxId)
    requires Inv(s) && Enabled(s, e) && x in s.rotations && !(e.Read? && e.x == x) && !e.Commit?
    ensures RotationOk(Apply(s, e), x)
  {
    assert RotationOk(s, x);
    var r := s.rotations[x];
    RowsNext(s, e, r.key);
    RowsNext(s, e, r.newKey);
    if r.readAt < s.now {
      RevokedStable(s, e, r.key, r.readAt);
    }
  }

  lemma KeepsRotation(s: State, e: Event, x: TxId)
    requires Inv(s) && Enabled(s, e)
    ensures RotationOk(Apply(s, e), x)
  {
    assert RotationOk(s, x);
    if e.Read? && e.x == x {
      ReadKeepsRotation(s, e, x);
    } else if e.Begin? && e.x == x {
      BeginKeepsRotation(s, e, x);
    } else if e.Commit? {
      CommitKeepsRotation(s, e, x);
    } else if x in s.rotations {
      OtherKeepsRotation(s, e, x);
    }
  }

  lemma KeepsSweep(s: State, e: Event, x: TxId)
    requires Inv(s) && Enabled(s, e)
    ensures SweepOk(Apply(s, e), x)
  {
    assert SweepOk(s, x);
    var s' := Apply(s, e);
    if x in s'.sweeps {
      forall key | key in s'.sweeps[x].seen
        ensures key in s'.table && s'.table[key].userID == s'.sweeps[x].user
      {
        RowsNext(s, e, key);
      }
    }
  }

  lemma KeepsApart(s: State, e: Event, x: TxId, y: TxId)
    requires Inv(s) && Enabled(s, e)
    ensures ApartOk(Apply(s, e), x, y)
  {
    assert ApartOk(s, x, y) && RotationOk(s, x) && RotationOk(s, y);
  }

  lemma EventKeepsInv(s: State, e: Event)
    requires Inv(s) && Enabled(s, e)
    ensures Inv(Apply(s, e))
  {
    forall key ensures RowOk(Apply(s, e), key) {
      KeepsRow(s, e, key);
    }
    forall x ensures RotationOk(Apply(s, e), x) && SweepOk(Apply(s, e), x) {
      KeepsRotation(s, e, x);
      KeepsSweep(s, e, x);
    }
    forall x, y ensures ApartOk(Apply(s, e), x, y) {
      KeepsApart(s, e, x, y);
    }
  }

  lemma {:induction false} RunKeepsInv(es: seq<Event>)
    requires Legal(es)
    ensures Inv(After(es)) && After(es).now == |es|
    decreases |es|
  {
    if es != [] {
      RunKeepsInv(es[..|es| - 1]);
      EventKeepsInv(After(es[..|es| - 1]), es[|es| - 1]);
    }
  }

  // ---- Forks ----

  /**
   Two Refreshes of one token that both got an answer both succeed if and only if each read the row before
   any revocation of the token was visible; then each also read before the other committed.  When nothing
   but these two revokes the token, the second succeeds exactly when it read before the first committed.
   */
  lemma ForkExactlyOnOverlap(es: seq<Event>, a: TxId, b: TxId)
    requires Legal(es) && a != b && a in After(es).rotations && b in After(es).rotations
    requires After(es).rotations[a].key == After(es).rotations[b].key
    requires After(es).rotations[a].stage in {Committed, Refused}
    requires After(es).rotations[b].stage in {Committed, Refused}
    ensures var s, ra, rb := After(es), After(es).rotations[a], After(es).rotations[b];
            && (ra.stage == Committed && rb.stage == Committed
                <==> !RevokedBy(s, ra.key, ra.readAt) && !RevokedBy(s, rb.key, rb.readAt))
            && (ra.stage == Committed && rb.stage == Committed ==>
                  ra.readAt < rb.endedAt && rb.readAt < ra.endedAt)
    ensures var s, ra, rb := After(es), After(es).rotations[a], After(es).rotations[b];
            ra.stage == Committed
            && (forall x :: RotatedBy(s, x, ra.key, s.now) ==> x == a || x == b)
            && (forall x :: !SweptBy(s, x, ra.key, s.now)) && !LoggedOutBy(s, ra.key, s.now)
            ==> (rb.stage == Committed <==> rb.readAt < ra.endedAt)
  {
    RunKeepsInv(es);
    var s, ra, rb := After(es), After(es).rotations[a], After(es).rotations[b];
    assert RotationOk(s, a) && RotationOk(s, b);
    assert !RevokedBy(s, rb.key, rb.readAt) ==> !RotatedBy(s, a, rb.key, rb.readAt);
    assert !RevokedBy(s, ra.key, ra.readAt) ==> !RotatedBy(s, b, ra.key, ra.readAt);
    if RevokedBy(s, rb.key, rb.readAt) && (forall x :: !SweptBy(s, x, ra.key, s.now)) {
      forall x ensures !SweptBy(s, x, rb.key, rb.readAt) {
        assert !SweptBy(s, x, ra.key, s.now);
      }
      if !LoggedOutBy(s, ra.key, s.now) {
        var x :| RotatedBy(s, x, rb.key, rb.readAt);
        assert RotatedBy(s, x, ra.key, s.now);
      }
    }
  }

  /** The ticks of a transaction are the positions of its events in the run. */
  ghost predicate TicksOf(es: seq<Event>, s: State, x: TxId) {
    x in s.rotations ==>
      var r := s.rotations[x];
      && (Open(r) || r.stage == Committed || r.stage == Refused ==>
            r.readAt < |es| && es[r.readAt].Read? && es[r.readAt].x == x)
      && (r.stage == Committed ==> r.endedAt < |es| && es[r.endedAt] == Commit(x))
  }

  ghost predicate SweepTicksOf(es: seq<Event>, s: State, x: TxId) {
    x in s.sweeps ==>
      var w := s.sweeps[x];
      && w.startedAt < |es| && es[w.startedAt] == StartSweep(x)
      && (w.endedAt.Some? ==> w.endedAt.value < |es| && es[w.endedAt.value] == EndSweep(x))
  }

  lemma TicksNext(es: seq<Event>, s: State, e: Event, x: TxId)
    requires Enabled(s, e) && s.now == |es| && TicksOf(es, s, x) && SweepTicksOf(es, s, x)
    ensures TicksOf(es + [e], Apply(s, e), x)
  {
  }

  lemma SweepTicksNext(es: seq<Event>, s: State, e: Event, x: TxId)
    requires Enabled(s, e) && s.now == |es| && TicksOf(es, s, x) && SweepTicksOf(es, s, x)
    ensures SweepTicksOf(es + [e], Apply(s, e), x)
  {
  }

  lemma {:induction false} TicksArePositions(es: seq<Event>, x: TxId)
    requires Legal(es)
    ensures TicksOf(es, After(es), x) && SweepTicksOf(es, After(es), x)
    decreases |es|
  {
    if es != [] {
      var front, last := es[..|es| - 1], es[|es| - 1];
      TicksArePositions(front, x);
      RunKeepsInv(front);
      TicksNext(front, After(front), last, x);
      SweepTicksNext(front, After(front), last, x);
      assert es == front + [last];
    }
  }

  /** A Refresh that inserted its new token can always commit, and one that was refused can always revoke all. */
  lemma CommitReady(es: seq<Event>, x: TxId)
    requires Legal(es) && x in After(es).rotations
    ensures After(es).rotations[x].stage == Inserted ==> Enabled(After(es), Commit(x))
    ensures After(es).rotations[x].stage == Refused && x !in After(es).sweeps ==> Enabled(After(es), StartSweep(x))
  {
    RunKeepsInv(es);
    assert RotationOk(After(es), x) && RowOk(After(es), After(es).rotations[x].key);
  }

  /** The Refresh has committed, and nothing else has happened. */
  ghost predicate Finished(s: State, s': State, x: TxId) {
    && x in s.rotations && x in s'.rotations && s'.rotations == s.rotations[x := s'.rotations[x]]
    && s'.sweeps == s.sweeps && s'.used == s.used && s'.logins == s.logins && s.now < s'.now
    && var r, r' := s.rotations[x], s'.rotations[x];
    && r'.stage == Committed && r'.readAt == r.readAt && r'.key == r.key && s.now <= r'.endedAt
    && r.key in s.table && r.key in s.lineage && r.newKey !in s.table
    && s'.table.Keys == s.table.Keys + {r.newKey}
    && s'.table[r.newKey] == RefreshToken(s.table[r.key].userID, r.newKey, false, r'.expiresAt)
    && s'.lineage == s.lineage[r.newKey := s.lineage[r.key]]
    && forall k :: k in s.table ==>
         s'.table[k] == s.table[k].(revoked := s.table[k].revoked || k == r.key)
  }

  /** A Refresh that has not ended can give up at any point: it leaves no trace in the table and holds no lock. */
  lemma AbortLeavesNoTrace(es: seq<Event>, x: TxId)
    requires Legal(es) && x in After(es).rotations
    requires After(es).rotations[x].stage !in {Committed, Refused, Aborted}
    ensures Legal(es + [Abort(x)]) && After(es + [Abort(x)]).table == After(es).table
    ensures forall key :: !HoldsLock(After(es).rotations[x].(stage := Aborted), key)
    ensures After(es + [Abort(x)]).rotations == After(es).rotations[x := After(es).rotations[x].(stage := Aborted)]
    ensures After(es).rotations[x].newKey !in After(es + [Abort(x)]).table
  {
    RunKeepsInv(es);
    assert RotationOk(After(es), x);
    OneMore(es, Abort(x));
  }

  /** The last three statements of a Refresh. */
  function Rest(x: TxId, expiresAt: Time): seq<Event> {
    [Update(x), Insert(x, expiresAt), Commit(x)]
  }

  lemma RestRuns(s: State, x: TxId, expiresAt: Time)
    requires Inv(s) && x in s.rotations && s.rotations[x].stage == HasRead && Unlocked(s, s.rotations[x].key)
    ensures Enabled(s, Update(x)) && Enabled(Apply(s, Update(x)), Insert(x, expiresAt))
    ensures var s2 := Apply(Apply(s, Update(x)), Insert(x, expiresAt));
            Enabled(s2, Commit(x)) && Finished(s, Apply(s2, Commit(x)), x)
            && Apply(s2, Commit(x)).rotations[x].expiresAt == expiresAt
  {
    assert RotationOk(s, x) && RowOk(s, s.rotations[x].key);
  }

  /** From its valid read on, a Refresh whose row is not locked can finish, and then its new token is live. */
  lemma FinishRefresh(es: seq<Event>, x: TxId, expiresAt: Time)
    requires Legal(es) && x in After(es).rotations && After(es).rotations[x].stage == HasRead
    requires Unlocked(After(es), After(es).rotations[x].key)
    ensures Legal(es + Rest(x, expiresAt)) && Finished(After(es), After(es + Rest(x, expiresAt)), x)
    ensures After(es + Rest(x, expiresAt)).rotations[x].expiresAt == expiresAt
  {
    RunKeepsInv(es);
    RestRuns(After(es), x, expiresAt);
    ThreeMore(es, Update(x), Insert(x, expiresAt), Commit(x));
  }

  /** Two Refreshes of one token that finish one after the other leave two live tokens of its lineage. */
  lemma FinishedTwice(s: State, s1: State, s2: State, a: TxId, b: TxId)
    requires Inv(s) && Finished(s, s1, a) && Finished(s1, s2, b) && a != b && b in s.rotations
    requires s.rotations[a].key == s.rotations[b].key
    ensures var p, q := s.rotations[a].newKey, s.rotations[b].newKey;
            && p != q && p in s2.table && !s2.table[p].revoked && q in s2.table && !s2.table[q].revoked
            && p in s2.lineage && q in s2.lineage && s2.lineage[p] == s2.lineage[q]
  {
    assert ApartOk(s, a, b);
  }

  /** Whenever two Refreshes have read the same valid row and nobody has updated it yet, both can commit. */
  lemma OverlapCanFork(es: seq<Event>, a: TxId, b: TxId, expiresAt: Time)
    requires Legal(es) && a != b && a in After(es).rotations && b in After(es).rotations
    requires After(es).rotations[a].stage == HasRead && After(es).rotations[b].stage == HasRead
    requires After(es).rotations[a].key == After(es).rotations[b].key
    requires Unlocked(After(es), After(es).rotations[a].key)
    ensures Legal(es + Rest(a, expiresAt) + Rest(b, expiresAt))
    ensures var s := After(es + Rest(a, expiresAt) + Rest(b, expiresAt));
            var p, q := After(es).rotations[a].newKey, After(es).rotations[b].newKey;
            && p != q && p in s.table && !s.table[p].revoked && q in s.table && !s.table[q].revoked
            && p in s.lineage && q in s.lineage && s.lineage[p] == s.lineage[q]
  {
    RunKeepsInv(es);
    FinishRefresh(es, a, expiresAt);
    var first := es + Rest(a, expiresAt);
    FinishRefresh(first, b, expiresAt);
    FinishedTwice(After(es), After(first), After(first + Rest(b, expiresAt)), a, b);
  }

  // ---- Without a fork, one live token per lineage ----

  ghost predicate HasChild(s: State, key: string) {
    exists x :: RotatedBy(s, x, key, s.now)
  }

  /** Two Refreshes of one token of the lineage have committed. */
  ghost predicate ForkAt(s: State, lineage: nat, x: TxId, y: TxId) {
    x != y && x in s.rotations && y in s.rotations && s.rotations[x].stage == Committed
    && s.rotations[y].stage == Committed && s.rotations[x].key == s.rotations[y].key
    && s.rotations[x].key in s.lineage && s.lineage[s.rotations[x].key] == lineage
  }

  ghost predicate Forked(s: State, lineage: nat) {
    exists x, y :: ForkAt(s, lineage, x, y)
  }

  /** A lineage that has not forked has only one token that was never rotated. */
  ghost predicate LeafOk(s: State, p: string, q: string) {
    (p in s.table && q in s.table && p in s.lineage && q in s.lineage && s.lineage[p] == s.lineage[q]
     && !HasChild(s, p) && !HasChild(s, q)) ==> p == q || Forked(s, s.lineage[p])
  }

  ghost predicate LeavesOk(s: State) {
    forall p, q {:trigger LeafOk(s, p, q)} :: LeafOk(s, p, q)
  }

  /** Children stay, and only a commit adds one. */
  lemma ChildNext(s: State, e: Event, key: string)
    requires Inv(s) && Enabled(s, e)
    ensures HasChild(Apply(s, e), key) <==> HasChild(s, key) || (e.Commit? && s.rotations[e.x].key == key)
  {
    forall x
      ensures RotatedBy(Apply(s, e), x, key, s.now + 1)
              <==> RotatedBy(s, x, key, s.now) || (e == Commit(x) && s.rotations[x].key == key)
    {
      assert RotationOk(s, x);
      RotatedNext(s, e, key, x);
    }
    if e.Commit? && s.rotations[e.x].key == key {
      assert RotatedBy(Apply(s, e), e.x, key, s.now + 1);
    }
    if HasChild(s, key) {
      var x :| RotatedBy(s, x, key, s.now);
      assert RotatedBy(Apply(s, e), x, key, s.now + 1);
    }
  }

  lemma ForkStays(s: State, e: Event, lineage: nat)
    requires Inv(s) && Enabled(s, e) && Forked(s, lineage)
    ensures Forked(Apply(s, e), lineage)
  {
    var x, y :| ForkAt(s, lineage, x, y);
    assert RotationOk(s, x) && RowOk(s, s.rotations[x].key);
    if e.Commit? {
      assert RotationOk(s, e.x);
    } else if e.Login? {
      assert RowOk(s, e.key);
    }
    assert ForkAt(Apply(s, e), lineage, x, y);
  }

  lemma CommitForks(s: State, x: TxId)
    requires Inv(s) && Enabled(s, Commit(x)) && HasChild(s, s.rotations[x].key)
    ensures Forked(Apply(s, Commit(x)), s.lineage[s.rotations[x].key])
  {
    var key := s.rotations[x].key;
    var y :| RotatedBy(s, y, key, s.now);
    assert RotationOk(s, x);
    assert ForkAt(Apply(s, Commit(x)), s.lineage[key], x, y);
  }

  lemma CommitKeepsLeaf(s: State, e: Event, p: string, q: string)
    requires Inv(s) && LeavesOk(s) && Enabled(s, e) && e.Commit?
    ensures LeafOk(Apply(s, e), p, q)
  {
    var s', key, newKey := Apply(s, e), s.rotations[e.x].key, s.rotations[e.x].newKey;
    assert RotationOk(s, e.x) && RowOk(s, key);
    RowsNext(s, e, p);
    RowsNext(s, e, q);
    ChildNext(s, e, p);
    ChildNext(s, e, q);
    assert LeafOk(s, p, q) && LeafOk(s, key, q) && LeafOk(s, p, key);
    if HasChild(s, key) {
      CommitForks(s, e.x);
    }
    if Forked(s, s.lineage[key]) {
      ForkStays(s, e, s.lineage[key]);
    }
    if p in s.table && p in s.lineage && Forked(s, s.lineage[p]) {
      ForkStays(s, e, s.lineage[p]);
    }
  }

  lemma OtherKeepsLeaf(s: State, e: Event, p: string, q: string)
    requires Inv(s) && LeavesOk(s) && Enabled(s, e) && !e.Commit?
    ensures LeafOk(Apply(s, e), p, q)
  {
    RowsNext(s, e, p);
    RowsNext(s, e, q);
    ChildNext(s, e, p);
    ChildNext(s, e, q);
    assert LeafOk(s, p, q) && RowOk(s, p) && RowOk(s, q);
    if p in s.table && Forked(s, s.lineage[p]) {
      ForkStays(s, e, s.lineage[p]);
    }
  }

  lemma {:induction false} RunKeepsLeaves(es: seq<Event>)
    requires Legal(es)
    ensures LeavesOk(After(es))
    decreases |es|
  {
    if es != [] {
      var s, e := After(es[..|es| - 1]), es[|es| - 1];
      RunKeepsLeaves(es[..|es| - 1]);
      RunKeepsInv(es[..|es| - 1]);
      forall p, q ensures LeafOk(Apply(s, e), p, q) {
        if e.Commit? { CommitKeepsLeaf(s, e, p, q); } else { OtherKeepsLeaf(s, e, p, q); }
      }
    }
  }

  /**
   Two live tokens of one lineage exist only if two Refreshes of one of its tokens overlapped: both
   committed, and each had read the token's row before the other committed.
   */
  lemma TwoLiveTokensMeanOverlap(es: seq<Event>, p: string, q: string) returns (x: TxId, y: TxId)
    requires Legal(es) && p != q && p in After(es).table && q in After(es).table
    requires p in After(es).lineage && q in After(es).lineage && After(es).lineage[p] == After(es).lineage[q]
    requires !After(es).table[p].revoked && !After(es).table[q].revoked
    ensures ForkAt(After(es), After(es).lineage[p], x, y)
    ensures After(es).rotations[x].readAt < After(es).rotations[y].endedAt
    ensures After(es).rotations[y].readAt < After(es).rotations[x].endedAt
  {
    RunKeepsInv(es);
    RunKeepsLeaves(es);
    var s := After(es);
    assert RowOk(s, p) && RowOk(s, q) && LeafOk(s, p, q);
    x, y :| ForkAt(s, s.lineage[p], x, y);
    ForkExactlyOnOverlap(es, x, y);
  }

  // ---- Revoke-all against a Refresh in flight ----

  /** The user of sweep w has not logged in since it started. */
  ghost predicate NoLoginSince(s: State, w: TxId) {
    w in s.sweeps && (s.sweeps[w].user in s.logins ==> s.logins[s.sweeps[w].user] < s.sweeps[w].startedAt)
  }

  ghost predicate Serves(s: State, x: TxId, user: UserId) {
    x in s.rotations && s.rotations[x].key in s.table && s.table[s.rotations[x].key].userID == user
  }

  /** A Refresh of the user's committed after sweep w picked its rows. */
  ghost predicate CommitsAfterStart(s: State, w: TxId, x: TxId) {
    w in s.sweeps && Serves(s, x, s.sweeps[w].user) && s.rotations[x].stage == Committed
    && s.sweeps[w].startedAt < s.rotations[x].endedAt
  }

  /** It had moreover read its row before the sweep took effect. */
  ghost predicate Straddles(s: State, w: TxId, x: TxId) {
    CommitsAfterStart(s, w, x) && s.sweeps[w].endedAt.Some? && s.rotations[x].readAt < s.sweeps[w].endedAt.value
  }

  ghost predicate Straddled(s: State, w: TxId) {
    exists x :: Straddles(s, w, x)
  }

  /** A running sweep has picked the user's live token, unless it came from a Refresh committed since. */
  ghost predicate PickedOk(s: State, w: TxId, key: string) {
    NoLoginSince(s, w) && s.sweeps[w].endedAt.None? && key in LiveOf(s.table, s.sweeps[w].user) ==>
      key in s.sweeps[w].seen || exists x :: CommitsAfterStart(s, w, x)
  }

  /** After a sweep, the user has no live token and no Refresh that read later, unless a Refresh straddled it. */
  ghost predicate LockoutOk(s: State, w: TxId, key: string, x: TxId) {
    NoLoginSince(s, w) && s.sweeps[w].endedAt.Some? && !Straddled(s, w) ==>
      && key !in LiveOf(s.table, s.sweeps[w].user)
      && (Serves(s, x, s.sweeps[w].user) && Open(s.rotations[x]) ==> s.rotations[x].readAt < s.sweeps[w].endedAt.value)
  }

  ghost predicate SweepsOk(s: State) {
    && (forall w, key {:trigger PickedOk(s, w, key)} :: PickedOk(s, w, key))
    && (forall w, key, x {:trigger LockoutOk(s, w, key, x)} :: LockoutOk(s, w, key, x))
  }

  lemma ServesNext(s: State, e: Event, x: TxId, user: UserId)
    requires Inv(s) && Enabled(s, e) && x in s.rotations && s.rotations[x].key in s.table
    ensures Serves(Apply(s, e), x, user) <==> Serves(s, x, user)
  {
    RowsNext(s, e, s.rotations[x].key);
  }

  lemma CommitsAfterStartStays(s: State, e: Event, w: TxId, x: TxId)
    requires Inv(s) && Enabled(s, e) && CommitsAfterStart(s, w, x)
    ensures CommitsAfterStart(Apply(s, e), w, x)
    ensures Straddles(s, w, x) ==> Straddles(Apply(s, e), w, x)
    ensures e == EndSweep(w) ==> Straddles(Apply(s, e), w, x)
  {
    assert RotationOk(s, x);
    ServesNext(s, e, x, s.sweeps[w].user);
  }

  lemma StraddledStays(s: State, e: Event, w: TxId)
    requires Inv(s) && Enabled(s, e) && Straddled(s, w)
    ensures Straddled(Apply(s, e), w)
  {
    var x :| Straddles(s, w, x);
    CommitsAfterStartStays(s, e, w, x);
  }

  lemma LoginsNext(s: State, e: Event, w: TxId)
    requires Inv(s) && Enabled(s, e) && w in s.sweeps && NoLoginSince(Apply(s, e), w)
    ensures NoLoginSince(s, w) && (e.Login? ==> e.user != s.sweeps[w].user)
  {
    assert SweepOk(s, w);
  }

  /** Where a live token of the user comes from. */
  lemma LiveNext(s: State, e: Event, user: UserId, key: string)
    requires Inv(s) && Enabled(s, e) && key in LiveOf(Apply(s, e).table, user) && !(e.Login? && e.user == user)
    ensures key in LiveOf(s.table, user) || (e.Commit? && Serves(s, e.x, user) && s.rotations[e.x].newKey == key)
    ensures !Revokes(s, e, key)
  {
    RowsNext(s, e, key);
  }

  lemma KeepsPicked(s: State, e: Event, w: TxId, key: string)
    requires Inv(s) && SweepsOk(s) && Enabled(s, e)
    ensures PickedOk(Apply(s, e), w, key)
  {
    var s' := Apply(s, e);
    if w in s.sweeps && NoLoginSince(s', w) && s'.sweeps[w].endedAt.None?
       && key in LiveOf(s'.table, s.sweeps[w].user) {
      LoginsNext(s, e, w);
      LiveNext(s, e, s.sweeps[w].user, key);
      assert PickedOk(s, w, key);
      if key !in LiveOf(s.table, s.sweeps[w].user) {
        assert SweepOk(s, w);
        ServesNext(s, e, e.x, s.sweeps[w].user);
        assert CommitsAfterStart(s', w, e.x);
      } else if key !in s.sweeps[w].seen {
        var x :| CommitsAfterStart(s, w, x);
        CommitsAfterStartStays(s, e, w, x);
      }
    }
  }

  lemma EndKeepsLockout(s: State, e: Event, w: TxId, key: string, x: TxId)
    requires Inv(s) && SweepsOk(s) && Enabled(s, e) && e == EndSweep(w)
    ensures LockoutOk(Apply(s, e), w, key, x)
  {
    var s' := Apply(s, e);
    assert PickedOk(s, w, key);
    if NoLoginSince(s', w) && key in LiveOf(s'.table, s.sweeps[w].user) {
      LoginsNext(s, e, w);
      LiveNext(s, e, s.sweeps[w].user, key);
      var y :| CommitsAfterStart(s, w, y);
      CommitsAfterStartStays(s, e, w, y);
    }
    assert RotationOk(s, x);
  }

  lemma KeepsLockout(s: State, e: Event, w: TxId, key: string, x: TxId)
    requires Inv(s) && SweepsOk(s) && Enabled(s, e) && e != EndSweep(w)
    ensures LockoutOk(Apply(s, e), w, key, x)
  {
    var s' := Apply(s, e);
    if w in s.sweeps && NoLoginSince(s', w) && s.sweeps[w].endedAt.Some? && !Straddled(s', w) {
      var user := s.sweeps[w].user;
      LoginsNext(s, e, w);
      if Straddled(s, w) {
        StraddledStays(s, e, w);
      }
      assert LockoutOk(s, w, key, x);
      if key in LiveOf(s'.table, user) {
        LiveNext(s, e, user, key);
        CommitStraddles(s, e, w);
      }
      OpenStaysEarly(s, e, w, x);
    }
  }

  /** No Refresh of a locked-out user finds its row valid. */
  lemma OpenStaysEarly(s: State, e: Event, w: TxId, x: TxId)
    requires Inv(s) && SweepsOk(s) && Enabled(s, e) && e != EndSweep(w)
    requires NoLoginSince(s, w) && s.sweeps[w].endedAt.Some? && !Straddled(s, w)
    ensures Serves(Apply(s, e), x, s.sweeps[w].user) && Open(Apply(s, e).rotations[x]) ==>
              Apply(s, e).rotations[x].readAt < s.sweeps[w].endedAt.value
  {
    assert RotationOk(s, x);
    if x in s.rotations && s.rotations[x].key in s.table {
      ServesNext(s, e, x, s.sweeps[w].user);
      assert LockoutOk(s, w, s.rotations[x].key, x);
    }
  }

  /** A Refresh of the user's that commits after an unstraddled sweep straddles it. */
  lemma CommitStraddles(s: State, e: Event, w: TxId)
    requires Inv(s) && SweepsOk(s) && Enabled(s, e) && e.Commit? && NoLoginSince(s, w) && s.sweeps[w].endedAt.Some?
    requires Serves(s, e.x, s.sweeps[w].user)
    ensures Straddled(Apply(s, e), w)
  {
    if Straddled(s, w) {
      StraddledStays(s, e, w);
    } else {
      assert LockoutOk(s, w, s.rotations[e.x].key, e.x) && SweepOk(s, w);
      ServesNext(s, e, e.x, s.sweeps[w].user);
      assert Straddles(Apply(s, e), w, e.x);
    }
  }

  lemma {:induction false} RunKeepsSweeps(es: seq<Event>)
    requires Legal(es)
    ensures SweepsOk(After(es))
    decreases |es|
  {
    if es != [] {
      var s, e := After(es[..|es| - 1]), es[|es| - 1];
      RunKeepsSweeps(es[..|es| - 1]);
      RunKeepsInv(es[..|es| - 1]);
      forall w, key ensures PickedOk(Apply(s, e), w, key) {
        KeepsPicked(s, e, w, key);
      }
      forall w, key, x ensures LockoutOk(Apply(s, e), w, key, x) {
        if e == EndSweep(w) { EndKeepsLockout(s, e, w, key, x); } else { KeepsLockout(s, e, w, key, x); }
      }
    }
  }

  /**
   A revoke-all that took effect locks its user out until the next login, unless a Refresh of that user had
   read its row before the revoke-all took effect and committed after it had picked its rows.
   */
  lemma LockoutUnlessStraddled(es: seq<Event>, w: TxId)
    requires Legal(es) && NoLoginSince(After(es), w) && After(es).sweeps[w].endedAt.Some?
    ensures LiveOf(After(es).table, After(es).sweeps[w].user) == {} || Straddled(After(es), w)
  {
    RunKeepsSweeps(es);
    var s := After(es);
    if !Straddled(s, w) {
      forall key ensures key !in LiveOf(s.table, s.sweeps[w].user) {
        assert LockoutOk(s, w, key, 0);
      }
    }
  }

  lemma FinishedStraddles(s: State, s': State, w: TxId, x: TxId)
    requires Inv(s) && Finished(s, s', x) && Open(s.rotations[x]) && w in s.sweeps && s.sweeps[w].endedAt.Some?
    requires Serves(s, x, s.sweeps[w].user) && s.rotations[x].readAt < s.sweeps[w].endedAt.value
    ensures w in s'.sweeps && Straddled(s', w) && s.rotations[x].newKey in LiveOf(s'.table, s'.sweeps[w].user)
  {
    assert SweepOk(s, w);
    assert Straddles(s', w, x);
  }

  /** And any Refresh that has read its row when the revoke-all takes effect can still undo the lockout. */
  lemma StraddlerUnlocks(es: seq<Event>, w: TxId, x: TxId, expiresAt: Time) returns (done: seq<Event>)
    requires Legal(es) && Enabled(After(es), EndSweep(w))
    requires Serves(After(es), x, After(es).sweeps[w].user) && After(es).rotations[x].stage == HasRead
    requires Unlocked(After(es), After(es).rotations[x].key)
    ensures done == es + [EndSweep(w)] + Rest(x, expiresAt) && Legal(done)
    ensures w in After(done).sweeps && Straddled(After(done), w)
    ensures After(es).rotations[x].newKey in LiveOf(After(done).table, After(done).sweeps[w].user)
  {
    RunKeepsInv(es);
    OneMore(es, EndSweep(w));
    var swept := es + [EndSweep(w)];
    SweepLeavesOpen(After(es), w, x);
    FinishRefresh(swept, x, expiresAt);
    done := swept + Rest(x, expiresAt);
    RunKeepsInv(swept);
    FinishedStraddles(After(swept), After(done), w, x);
  }

  lemma SweepLeavesOpen(s: State, w: TxId, x: TxId)
    requires Inv(s) && Enabled(s, EndSweep(w)) && Serves(s, x, s.sweeps[w].user) && Open(s.rotations[x])
    ensures var s' := Apply(s, EndSweep(w));
            Serves(s', x, s.sweeps[w].user) && s'.rotations == s.rotations && s'.sweeps[w].user == s.sweeps[w].user
            && s'.sweeps[w].endedAt == Some(s.now) && s.rotations[x].readAt < s.now
  {
    assert RotationOk(s, x);
    RowsNext(s, EndSweep(w), s.rotations[x].key);
  }

  /** Nobody but x holds a lock on a row that the sweep has picked. */
  ghost predicate OnlyLocker(s: State, w: TxId, x: TxId)
    requires w in s.sweeps
  {
    forall y, key :: (y in s.rotations && key in s.sweeps[w].seen && HoldsLock(s.rotations[y], key)) ==> y == x
  }

  /** A Refresh that already holds its row's lock makes the revoke-all wait, and its new token escapes it. */
  lemma CommitEscapesSweep(es: seq<Event>, w: TxId, x: TxId)
    requires Legal(es) && w in After(es).sweeps && After(es).sweeps[w].endedAt.None?
    requires Serves(After(es), x, After(es).sweeps[w].user) && After(es).rotations[x].stage == Inserted
    requires OnlyLocker(After(es), w, x)
    ensures After(es).rotations[x].key in After(es).sweeps[w].seen ==> !Enabled(After(es), EndSweep(w))
    ensures Legal(es + [Commit(x), EndSweep(w)])
    ensures var s := After(es + [Commit(x), EndSweep(w)]);
            w in s.sweeps && After(es).rotations[x].newKey in LiveOf(s.table, s.sweeps[w].user) && Straddled(s, w)
  {
    RunKeepsInv(es);
    CommitReady(es, x);
    var s := After(es);
    OneMore(es, Commit(x));
    CommitBeforeSweep(s, w, x);
    OneMore(es + [Commit(x)], EndSweep(w));
    assert es + [Commit(x), EndSweep(w)] == es + [Commit(x)] + [EndSweep(w)];
    SweepAfterCommit(s, w, x);
  }

  lemma CommitBeforeSweep(s: State, w: TxId, x: TxId)
    requires Inv(s) && w in s.sweeps && s.sweeps[w].endedAt.None? && Enabled(s, Commit(x))
    requires OnlyLocker(s, w, x)
    ensures Enabled(Apply(s, Commit(x)), EndSweep(w))
  {
  }

  lemma SweepAfterCommit(s: State, w: TxId, x: TxId)
    requires Inv(s) && w in s.sweeps && s.sweeps[w].endedAt.None? && Enabled(s, Commit(x))
    requires Serves(s, x, s.sweeps[w].user) && Enabled(Apply(s, Commit(x)), EndSweep(w))
    ensures var s2 := Apply(Apply(s, Commit(x)), EndSweep(w));
            w in s2.sweeps && s.rotations[x].newKey in LiveOf(s2.table, s2.sweeps[w].user) && Straddled(s2, w)
  {
    var s1 := Apply(s, Commit(x));
    assert RotationOk(s, x) && SweepOk(s, w);
    EventKeepsInv(s, Commit(x));
    ServesNext(s, Commit(x), x, s.sweeps[w].user);
    assert CommitsAfterStart(s1, w, x);
    CommitsAfterStartStays(s1, EndSweep(w), w, x);
  }

  // ---- One at a time, the statements make up the sequential model ----

  /** The row a Refresh reads decides its course as in the sequential use case. */
  lemma ReadAgrees(issuer: Issuer, table: Table, raw: string, env: RefreshEnv)
    requires raw != "" && env.beginOk && env.findOk
    ensures var stage := ReadStage(table, issuer.hash(raw), env.now);
            var result := Refresh(issuer, Db(table, None), raw, env).1;
            && (stage == Refused <==> result == Err(TokenRevoked))
            && (stage == Aborted <==> result in {Err(TokenNotFound), Err(TokenExpired)})
  {
  }

  /** A whole Refresh without interference; `read` is the state after its SELECT. */
  lemma RunAlone(es: seq<Event>, x: TxId, key: string, newKey: string, at: Time, expiresAt: Time)
    returns (read: State, done: seq<Event>)
    requires Legal(es) && Enabled(After(es), Begin(x, key, newKey)) && Unlocked(After(es), key)
    requires ReadStage(After(es).table, key, at) == HasRead
    ensures Legal(done) && Finished(read, After(done), x) && read.table == After(es).table
    ensures read.rotations[x].key == key && read.rotations[x].newKey == newKey
    ensures After(done).rotations[x].expiresAt == expiresAt
  {
    OneMore(es, Begin(x, key, newKey));
    var begun := es + [Begin(x, key, newKey)];
    OneMore(begun, Read(x, at));
    var run := begun + [Read(x, at)];
    ReadIsAlone(After(es), After(run), x, key, newKey, at);
    FinishRefresh(run, x, expiresAt);
    read, done := After(run), run + Rest(x, expiresAt);
  }

  /** A Refresh whose statements run without interference does to the table what the sequential one does. */
  lemma AloneAgrees(es: seq<Event>, issuer: Issuer, x: TxId, raw: string, env: RefreshEnv) returns (done: seq<Event>)
    requires Legal(es) && Enabled(After(es), Begin(x, issuer.hash(raw), issuer.hash(env.newRaw)))
    requires Unlocked(After(es), issuer.hash(raw))
    requires Refresh(issuer, Db(After(es).table, None), raw, env).1.Ok?
    ensures Legal(done) && x in After(done).rotations && After(done).rotations[x].stage == Committed
    ensures After(done).table == Refresh(issuer, Db(After(es).table, None), raw, env).0.committed
  {
    TokenRuns.RefreshSucceedsExactlyWhen(issuer, After(es).table, raw, env);
    var read;
    read, done := RunAlone(es, x, issuer.hash(raw), issuer.hash(env.newRaw), env.now, env.now + issuer.refreshTTL);
    TablesAgree(issuer, read, After(done), x, raw, env);
  }

  lemma TablesAgree(issuer: Issuer, s: State, s': State, x: TxId, raw: string, env: RefreshEnv)
    requires Finished(s, s', x) && Refresh(issuer, Db(s.table, None), raw, env).1.Ok?
    requires s.rotations[x].key == issuer.hash(raw) && s.rotations[x].newKey == issuer.hash(env.newRaw)
    requires s'.rotations[x].expiresAt == env.now + issuer.refreshTTL
    ensures s'.table == Refresh(issuer, Db(s.table, None), raw, env).0.committed
  {
    TokenRuns.RefreshSucceedsExactlyWhen(issuer, s.table, raw, env);
  }

  lemma ReadIsAlone(s: State, s': State, x: TxId, key: string, newKey: string, at: Time)
    requires Enabled(s, Begin(x, key, newKey)) && Unlocked(s, key) && ReadStage(s.table, key, at) == HasRead
    requires Enabled(Apply(s, Begin(x, key, newKey)), Read(x, at))
    requires s' == Apply(Apply(s, Begin(x, key, newKey)), Read(x, at))
    ensures s'.table == s.table && x in s'.rotations && s'.rotations[x].stage == HasRead && Unlocked(s', key)
    ensures s'.rotations[x].key == key && s'.rotations[x].newKey == newKey
  {
  }

  /** Login and Logout, one statement each, are the sequential use cases. */
  lemma SingleStatementsAgree(s: State, issuer: Issuer, env: LoginEnv, raw: string)
    requires var (db, result) := TokenUsecases.Login(issuer, Db(s.table, None), env);
             result.Ok? ==> issuer.hash(env.newRaw) !in s.used
    ensures var (db, result) := TokenUsecases.Login(issuer, Db(s.table, None), env);
            result.Ok? ==>
              var e := Login(env.user.value, issuer.hash(env.newRaw), env.now + issuer.refreshTTL);
              Enabled(s, e) && Apply(s, e).table == db.committed
    ensures var (db, error) := TokenUsecases.Logout(issuer, Db(s.table, None), raw, true);
            error.None? && Unlocked(s, issuer.hash(raw)) ==>
              var e := Logout(issuer.hash(raw));
              Enabled(s, e) && Apply(s, e).table == db.committed
  {
    TokenRuns.LoginSucceedsExactlyWhen(issuer, Db(s.table, None), env);
    TokenRuns.LogoutSucceedsExactlyWhen(issuer, Db(s.table, None), raw, true);
  }

  /** A revoke-all that nobody disturbs is the sequential statement. */
  lemma SweepAgrees(table: Table, user: UserId)
    ensures RevokeThese(table, LiveOf(table, user)) == RevokeAll(table, user, true).0
  {
  }
}
