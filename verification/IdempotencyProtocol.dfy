/**
 The idempotency protocol: any number of callers of `Executor.Execute`, interleaved step by
 step over one store, under a clock that never runs backwards.

 There is no fencing token: the lock is a lease.  The guarantees for a key are therefore about runs
 that are leased for that key: every caller that holds its lock leaves its critical phase (by Delete,
 Set, marshal failure or panic) strictly before that lock expires.  Holders of other keys may overrun.
 `OverlapExactlyAtOverrun` shows that a second holder gets in exactly where this assumption fails.
 */
module IdempotencyProtocol {
  import opened Wrappers
  import opened MemoryStore
  import opened IdempotencyExecutor

  type CallerId = nat

  datatype Caller<T> = Caller(key: Key, phase: Phase<T>)

  datatype World<T> = World(now: Time, items: Items, callers: map<CallerId, Caller<T>>)

  datatype Event<T> =
    | Arrive(caller: CallerId, key: Key)
    | Move(caller: CallerId, choice: Choice<T>, at: Time)

  /** The fixed surroundings of a run: configuration, encoder, and the store's first contents and time. */
  datatype Setting<!T> = Setting(cfg: Config, codec: Codec<T>, items: Items, start: Time)

  function Init<T>(set0: Setting<T>): World<T> {
    World(set0.start, set0.items, map[])
  }

  predicate Enabled<T>(w: World<T>, e: Event<T>) {
    match e
    case Arrive(c, _) => c !in w.callers
    case Move(c, choice, at) => c in w.callers && w.now <= at && Offers(w.callers[c].phase, choice)
  }

  function Apply<T>(set0: Setting<T>, w: World<T>, e: Event<T>): World<T>
    requires Enabled(w, e)
  {
    match e
    case Arrive(c, key) => w.(callers := w.callers[c := Caller(key, Fresh)])
    case Move(c, choice, at) =>
      var caller := w.callers[c];
      var (items, phase) := Step(set0.cfg, set0.codec, w.items, caller.key, caller.phase, choice, at);
      World(at, items, w.callers[c := caller.(phase := phase)])
  }

  /** Between a successful Lock and the Set, Delete, marshal failure or panic that ends it. */
  predicate Critical<T>(phase: Phase<T>) {
    phase.Running? || phase.Releasing? || phase.Saving?
  }

  ghost predicate Holds<T>(w: World<T>, c: CallerId, key: Key) {
    c in w.callers && w.callers[c].key == key && Critical(w.callers[c].phase)
  }

  /** At time `at`, the lock of no holder of the key has run out. */
  ghost predicate LeasesLast<T>(w: World<T>, key: Key, at: Time) {
    forall c :: Holds(w, c, key) ==> at < w.callers[c].phase.until
  }

  ghost predicate EventLeased<T>(w: World<T>, key: Key, e: Event<T>) {
    e.Move? ==> LeasesLast(w, key, e.at)
  }

  // ---- Runs ----

  ghost predicate Legal<T(!new)>(set0: Setting<T>, es: seq<Event<T>>)
    decreases |es|, 0
  {
    es == [] || (Legal(set0, es[..|es| - 1]) && Enabled(After(set0, es[..|es| - 1]), es[|es| - 1]))
  }

  /** The world after a run. */
  ghost function After<T(!new)>(set0: Setting<T>, es: seq<Event<T>>): World<T>
    requires Legal(set0, es)
    decreases |es|, 1
  {
    if es == [] then Init(set0) else Apply(set0, After(set0, es[..|es| - 1]), es[|es| - 1])
  }

  lemma {:induction false} PrefixLegal<T(!new)>(set0: Setting<T>, es: seq<Event<T>>, i: nat)
    requires Legal(set0, es) && i <= |es|
    ensures Legal(set0, es[..i])
    ensures i < |es| ==> Legal(set0, es[..i + 1]) && Enabled(After(set0, es[..i]), es[i])
                         && After(set0, es[..i + 1]) == Apply(set0, After(set0, es[..i]), es[i])
    decreases |es|
  {
    assert es[..|es|] == es;
    if i < |es| - 1 {
      var front := es[..|es| - 1];
      assert front[..i] == es[..i] && front[..i + 1] == es[..i + 1];
      PrefixLegal(set0, front, i);
    }
  }

  /** A legal run in which no holder of the key overruns its lease. */
  ghost predicate Leased<T(!new)>(set0: Setting<T>, key: Key, es: seq<Event<T>>)
    decreases |es|
  {
    Legal(set0, es)
    && (es == [] ||
        (Leased(set0, key, es[..|es| - 1]) && EventLeased(After(set0, es[..|es| - 1]), key, es[|es| - 1])))
  }

  // ---- The invariant ----

  /** A caller past its check has a nonempty key, and a holder's lock item is in the store. */
  ghost predicate HolderOk<T>(w: World<T>, key: Key, c: CallerId) {
    c in w.callers && w.callers[c].key == key ==>
      var phase := w.callers[c].phase;
      && (phase.Missed? || Critical(phase) ==> key != "")
      && (Critical(phase) ==>
            key in w.items && w.items[key].record.status == InProgress && w.items[key].expiresAt == phase.until)
  }

  /** Two callers do not hold the key. */
  ghost predicate ApartOk<T>(w: World<T>, key: Key, c: CallerId, d: CallerId) {
    Holds(w, c, key) && Holds(w, d, key) ==> c == d
  }

  ghost predicate Inv<T>(w: World<T>, key: Key) {
    && (forall c {:trigger HolderOk(w, key, c)} :: HolderOk(w, key, c))
    && (forall c, d {:trigger ApartOk(w, key, c, d)} :: ApartOk(w, key, c, d))
  }

  lemma StepKeepsInv<T(!new)>(set0: Setting<T>, w: World<T>, key: Key, e: Event<T>)
    requires Inv(w, key) && Enabled(w, e) && EventLeased(w, key, e)
    ensures Inv(Apply(set0, w, e), key)
  {
    var w' := Apply(set0, w, e);
    forall c ensures HolderOk(w', key, c) {
      assert HolderOk(w, key, c) && ApartOk(w, key, c, e.caller);
    }
    forall c, d ensures ApartOk(w', key, c, d) {
      assert ApartOk(w, key, c, d) && HolderOk(w, key, c) && HolderOk(w, key, d);
    }
  }

  lemma {:induction false} LeasedKeepsInv<T(!new)>(set0: Setting<T>, key: Key, es: seq<Event<T>>)
    requires Leased(set0, key, es)
    ensures Inv(After(set0, es), key)
    decreases |es|
  {
    if es != [] {
      var front := es[..|es| - 1];
      LeasedKeepsInv(set0, key, front);
      StepKeepsInv(set0, After(set0, front), key, es[|es| - 1]);
    }
  }

  /** Mutual exclusion on a key in every run that is leased for it. */
  lemma MutualExclusion<T(!new)>(set0: Setting<T>, es: seq<Event<T>>, key: Key, c: CallerId, d: CallerId)
    requires Leased(set0, key, es)
    requires Holds(After(set0, es), c, key) && Holds(After(set0, es), d, key)
    ensures c == d
  {
    LeasedKeepsInv(set0, key, es);
    assert ApartOk(After(set0, es), key, c, d);
  }

  // ---- A key that nobody holds ----

  function ItemAt(items: Items, key: Key): Option<Item> {
    if key in items then Some(items[key]) else None
  }

  /** The key has this item, or none, and nobody holds it. */
  ghost predicate Idle<T>(w: World<T>, key: Key, item: Option<Item>) {
    ItemAt(w.items, key) == item && forall c :: !Holds(w, c, key)
  }

  /** The event is a step of a caller of the key. */
  ghost predicate StepsOn<T>(w: World<T>, e: Event<T>, key: Key) {
    e.Move? && e.caller in w.callers && w.callers[e.caller].key == key
  }

  /** The event is a Lock of the key that takes effect. */
  ghost predicate Acquires<T>(w: World<T>, e: Event<T>, key: Key) {
    StepsOn(w, e, key) && w.callers[e.caller].phase.Missed? && e.choice.Call? && e.choice.fault != Lost
    && !Occupied(w.items, key, e.at)
  }

  /** What a caller's step gives when the key is idle under this item. */
  ghost predicate IdleOutcome<T>(set0: Setting<T>, item: Option<Item>, e: Event<T>, before: Phase<T>, after: Phase<T>)
    requires e.Move? && Offers(before, e.choice)
  {
    && (before.Fresh? ==>
          var seen := if item.Some? && e.at <= item.value.expiresAt then Some(item.value.record) else None;
          after == if e.choice.fault != NoFault then Done(CheckFailed)
                   else match Settle(set0.codec, seen) case Some(o) => Done(o) case None => Missed)
    && (before.Missed? ==>
          after == if e.choice.fault != NoFault then Done(LockFailed)
                   else if item.Some? && e.at < item.value.expiresAt then Done(Concurrent)
                   else Running(e.at + set0.cfg.lockTTL))
    && (!before.Missed? ==> !Critical(after))
  }

  /** Only an effective Lock changes an idle key; the item alone decides what a caller's step gives. */
  lemma IdleStep<T(!new)>(set0: Setting<T>, w: World<T>, e: Event<T>, key: Key, item: Option<Item>)
    requires Idle(w, key, item) && Enabled(w, e)
    ensures !Acquires(w, e, key) ==> Idle(Apply(set0, w, e), key, item)
    ensures StepsOn(w, e, key) && key != "" ==>
              IdleOutcome(set0, item, e, w.callers[e.caller].phase, Apply(set0, w, e).callers[e.caller].phase)
  {
    if e.Move? {
      assert !Holds(w, e.caller, key);
    }
    forall c | !Acquires(w, e, key) ensures !Holds(Apply(set0, w, e), c, key) {
      assert !Holds(w, c, key);
    }
  }

  ghost predicate AcquiresAt<T(!new)>(set0: Setting<T>, es: seq<Event<T>>, k: nat, key: Key)
    requires Legal(set0, es) && k < |es|
  {
    PrefixLegal(set0, es, k);
    Acquires(After(set0, es[..k]), es[k], key)
  }

  /** From event i on, nobody takes a lock of the key once its item has run out; without an item, nobody does. */
  ghost predicate LeftAlone<T(!new)>(set0: Setting<T>, es: seq<Event<T>>, i: nat, key: Key, item: Option<Item>)
    requires Legal(set0, es)
  {
    forall k :: i <= k < |es| && AcquiresAt(set0, es, k, key) ==> item.Some? && es[k].at < item.value.expiresAt
  }

  lemma {:induction false} IdleStays<T(!new)>(
      set0: Setting<T>, es: seq<Event<T>>, i: nat, key: Key, item: Option<Item>)
    requires Legal(set0, es) && i <= |es| && LeftAlone(set0, es, i, key, item)
    requires Legal(set0, es[..i]) && Idle(After(set0, es[..i]), key, item)
    ensures Idle(After(set0, es), key, item)
    decreases |es|
  {
    if i == |es| {
      assert es[..i] == es;
    } else {
      var front := es[..|es| - 1];
      assert front[..i] == es[..i];
      assert !AcquiresAt(set0, es, |front|, key) || (item.Some? && es[|front|].at < item.value.expiresAt);
      forall k | i <= k < |front| && AcquiresAt(set0, front, k, key)
        ensures item.Some? && front[k].at < item.value.expiresAt
      {
        assert front[..k] == es[..k] && AcquiresAt(set0, es, k, key);
      }
      IdleStays(set0, front, i, key, item);
      IdleStep(set0, After(set0, front), es[|es| - 1], key, item);
    }
  }

  lemma {:induction false} TimeAdvances<T(!new)>(set0: Setting<T>, es: seq<Event<T>>, i: nat)
    requires Legal(set0, es) && i < |es| && es[i].Move?
    ensures es[i].at <= After(set0, es).now
    decreases |es|
  {
    if i < |es| - 1 {
      var front := es[..|es| - 1];
      assert front[i] == es[i];
      TimeAdvances(set0, front, i);
    }
  }

  /** If step j comes before the limit, so did every step before it. */
  lemma EarlierInTime<T(!new)>(set0: Setting<T>, es: seq<Event<T>>, j: nat, limit: Time)
    requires Legal(set0, es) && j < |es| && es[j].Move? && es[j].at < limit
    ensures forall k :: 0 <= k < j && es[k].Move? ==> es[k].at < limit
  {
    PrefixLegal(set0, es, j);
    forall k | 0 <= k < j && es[k].Move? ensures es[k].at < limit {
      assert es[..j][k] == es[k];
      TimeAdvances(set0, es[..j], k);
    }
  }

  /** Event i is a step of a caller of the key. */
  ghost predicate StepAt<T(!new)>(set0: Setting<T>, es: seq<Event<T>>, i: nat, key: Key)
    requires Legal(set0, es)
  {
    i < |es| && Legal(set0, es[..i]) && StepsOn(After(set0, es[..i]), es[i], key)
  }

  /** The phase of the caller that takes step i, before it. */
  ghost function PhaseBefore<T(!new)>(set0: Setting<T>, es: seq<Event<T>>, i: nat, key: Key): Phase<T>
    requires Legal(set0, es) && StepAt(set0, es, i, key)
  {
    After(set0, es[..i]).callers[es[i].caller].phase
  }

  /** The phase of the caller that takes step i, after it. */
  ghost function PhaseAfter<T(!new)>(set0: Setting<T>, es: seq<Event<T>>, i: nat, key: Key): Phase<T>
    requires Legal(set0, es) && StepAt(set0, es, i, key)
  {
    PrefixLegal(set0, es, i);
    After(set0, es[..i + 1]).callers[es[i].caller].phase
  }

  lemma IdleUpTo<T(!new)>(set0: Setting<T>, es: seq<Event<T>>, i: nat, j: nat, key: Key, item: Option<Item>)
    requires Legal(set0, es) && i < j <= |es|
    requires Legal(set0, es[..i + 1]) && Idle(After(set0, es[..i + 1]), key, item)
    requires forall k :: i < k < j && AcquiresAt(set0, es, k, key) ==>
               item.Some? && es[k].at < item.value.expiresAt
    ensures Legal(set0, es[..j]) && Idle(After(set0, es[..j]), key, item)
  {
    PrefixLegal(set0, es, j);
    var run := es[..j];
    assert run[..i + 1] == es[..i + 1];
    forall k | i + 1 <= k < |run| && AcquiresAt(set0, run, k, key)
      ensures item.Some? && run[k].at < item.value.expiresAt
    {
      assert run[..k] == es[..k] && AcquiresAt(set0, es, k, key);
    }
    IdleStays(set0, run, i + 1, key, item);
  }

  lemma IdleAt<T(!new)>(set0: Setting<T>, es: seq<Event<T>>, j: nat, key: Key, item: Option<Item>)
    requires Legal(set0, es) && StepAt(set0, es, j, key) && key != ""
    requires Idle(After(set0, es[..j]), key, item)
    ensures Offers(PhaseBefore(set0, es, j, key), es[j].choice)
    ensures IdleOutcome(set0, item, es[j], PhaseBefore(set0, es, j, key), PhaseAfter(set0, es, j, key))
  {
    PrefixLegal(set0, es, j);
    var w, w', e := After(set0, es[..j]), After(set0, es[..j + 1]), es[j];
    IdleStep(set0, w, e, key, item);
    assert w' == Apply(set0, w, e) && PhaseAfter(set0, es, j, key) == w'.callers[e.caller].phase;
  }

  /** Idle after event i and left alone up to step j, the key is idle there, and its item decides that step. */
  lemma IdleFrom<T(!new)>(set0: Setting<T>, es: seq<Event<T>>, i: nat, j: nat, key: Key, item: Option<Item>)
    requires Legal(set0, es) && i < j && StepAt(set0, es, j, key) && key != ""
    requires Legal(set0, es[..i + 1]) && Idle(After(set0, es[..i + 1]), key, item)
    requires forall k :: i < k < j && AcquiresAt(set0, es, k, key) ==>
               item.Some? && es[k].at < item.value.expiresAt
    ensures Idle(After(set0, es[..j]), key, item)
    ensures Offers(PhaseBefore(set0, es, j, key), es[j].choice)
    ensures IdleOutcome(set0, item, es[j], PhaseBefore(set0, es, j, key), PhaseAfter(set0, es, j, key))
  {
    IdleUpTo(set0, es, i, j, key, item);
    IdleAt(set0, es, j, key, item);
  }

  // ---- Replay ----

  /** Event i stores value v for the key. */
  ghost predicate Saves<T(!new)>(set0: Setting<T>, es: seq<Event<T>>, i: nat, key: Key, v: T)
    requires Legal(set0, es)
  {
    StepAt(set0, es, i, key) && es[i].choice.Call? && es[i].choice.fault != Lost
    && PhaseBefore(set0, es, i, key).Saving? && PhaseBefore(set0, es, i, key).value == v
  }

  /** A completed record that decodes to v, expiring at the deadline. */
  ghost predicate Replays<T>(set0: Setting<T>, item: Item, v: T, deadline: Time) {
    && item.expiresAt == deadline && item.record.status == Completed
    && item.record.response != [] && set0.codec.decode(item.record.response) == Some(v)
  }

  /** A saving caller's body is the encoding of its value. */
  ghost predicate BodiesEncode<T>(set0: Setting<T>, w: World<T>) {
    forall c :: c in w.callers && w.callers[c].phase.Saving? ==>
      set0.codec.encode(w.callers[c].phase.value) == Some(w.callers[c].phase.body)
  }

  lemma {:induction false} RunKeepsBodies<T(!new)>(set0: Setting<T>, es: seq<Event<T>>)
    requires Legal(set0, es)
    ensures BodiesEncode(set0, After(set0, es))
    decreases |es|
  {
    if es != [] {
      RunKeepsBodies(set0, es[..|es| - 1]);
    }
  }

  /** A Set that takes effect leaves the key idle under a record that replays the value. */
  lemma SaveSettles<T(!new)>(set0: Setting<T>, es: seq<Event<T>>, i: nat, key: Key, v: T) returns (item: Item)
    requires Faithful(set0.codec) && Legal(set0, es) && Saves(set0, es, i, key, v) && Leased(set0, key, es[..i])
    ensures key != "" && Legal(set0, es[..i + 1]) && Idle(After(set0, es[..i + 1]), key, Some(item))
    ensures Replays(set0, item, v, es[i].at + set0.cfg.completeTTL)
    ensures PhaseAfter(set0, es, i, key) == Done(if es[i].choice.fault == NoFault then Returned(v) else SaveFailed(v))
  {
    PrefixLegal(set0, es, i);
    LeasedKeepsInv(set0, key, es[..i]);
    RunKeepsBodies(set0, es[..i]);
    var w, w' := After(set0, es[..i]), After(set0, es[..i + 1]);
    item := w'.items[key];
    assert HolderOk(w, key, es[i].caller);
    OthersStayOut(set0, w, es[i], key);
  }

  /** When a holder finishes, nobody holds the key. */
  lemma OthersStayOut<T(!new)>(set0: Setting<T>, w: World<T>, e: Event<T>, key: Key)
    requires Inv(w, key) && Enabled(w, e) && StepsOn(w, e, key) && Holds(w, e.caller, key)
    requires Apply(set0, w, e).callers[e.caller].phase.Done?
    ensures forall c :: !Holds(Apply(set0, w, e), c, key)
  {
    forall c ensures !Holds(Apply(set0, w, e), c, key) {
      assert ApartOk(w, key, c, e.caller);
      assert c != e.caller ==> Holds(Apply(set0, w, e), c, key) == Holds(w, c, key);
    }
  }

  /**
   At-most-once and replay.  After event i saves v, every later step of any caller of that key,
   strictly before the saved record expires, ends in v, in a conflict or in a storage error;
   in particular it never starts `fn`.  This covers callers whose Get came before the save.
   Leases matter only up to the save.
   */
  lemma SavedValueIsReplayed<T(!new)>(set0: Setting<T>, es: seq<Event<T>>, i: nat, j: nat, key: Key, v: T)
    requires Faithful(set0.codec) && Legal(set0, es) && Saves(set0, es, i, key, v) && Leased(set0, key, es[..i])
    requires i < j && StepAt(set0, es, j, key) && es[j].at < es[i].at + set0.cfg.completeTTL
    ensures var before, after := PhaseBefore(set0, es, j, key), PhaseAfter(set0, es, j, key);
            && !Critical(after)
            && (before.Fresh? || before.Missed? ==> es[j].choice.Call?)
            && (before.Fresh? ==> after == Done(if es[j].choice.fault == NoFault then Returned(v) else CheckFailed))
            && (before.Missed? ==> after == Done(if es[j].choice.fault == NoFault then Concurrent else LockFailed))
  {
    var item := SaveSettles(set0, es, i, key, v);
    EarlierInTime(set0, es, j, item.expiresAt);
    IdleFrom(set0, es, i, j, key, Some(item));
  }

  /** So a second execution of `fn` for a saved key starts only once the saved record has expired. */
  lemma SecondRunWaitsForExpiry<T(!new)>(set0: Setting<T>, es: seq<Event<T>>, i: nat, j: nat, key: Key, v: T)
    requires Faithful(set0.codec) && Legal(set0, es) && Saves(set0, es, i, key, v) && Leased(set0, key, es[..i])
    requires i < j && StepAt(set0, es, j, key) && Critical(PhaseAfter(set0, es, j, key))
    ensures es[i].at + set0.cfg.completeTTL <= es[j].at
  {
    if es[j].at < es[i].at + set0.cfg.completeTTL {
      SavedValueIsReplayed(set0, es, i, j, key, v);
    }
  }

  /** Some event of the run is caller c's fn returning v. */
  ghost predicate FnReturned<T>(es: seq<Event<T>>, c: CallerId, v: T) {
    exists j :: 0 <= j < |es| && es[j].Move? && es[j].caller == c && es[j].choice == Fn(FnOk(v))
  }

  lemma {:induction false} SavingCameFromFn<T(!new)>(set0: Setting<T>, es: seq<Event<T>>, c: CallerId)
    requires Legal(set0, es) && c in After(set0, es).callers && After(set0, es).callers[c].phase.Saving?
    ensures FnReturned(es, c, After(set0, es).callers[c].phase.value)
    decreases |es|
  {
    var front, last := es[..|es| - 1], es[|es| - 1];
    var v := After(set0, es).callers[c].phase.value;
    if last.Move? && last.caller == c {
      assert es[|es| - 1].choice == Fn(FnOk(v));
    } else {
      SavingCameFromFn(set0, front, c);
      var j :| 0 <= j < |front| && front[j].Move? && front[j].caller == c && front[j].choice == Fn(FnOk(v));
      assert es[j] == front[j];
    }
  }

  /** What is saved, and so what is replayed, is what the saving caller's own fn returned. */
  lemma SavedValueIsFnResult<T(!new)>(set0: Setting<T>, es: seq<Event<T>>, i: nat, key: Key, v: T)
    requires Legal(set0, es) && Saves(set0, es, i, key, v)
    ensures FnReturned(es[..i], es[i].caller, v)
  {
    SavingCameFromFn(set0, es[..i], es[i].caller);
  }

  // ---- What a failure leaves behind ----

  /** Event i is a failed caller's Delete that takes effect. */
  ghost predicate Frees<T(!new)>(set0: Setting<T>, es: seq<Event<T>>, i: nat, key: Key)
    requires Legal(set0, es)
  {
    StepAt(set0, es, i, key) && es[i].choice.Call? && es[i].choice.fault != Lost
    && PhaseBefore(set0, es, i, key).Releasing?
  }

  lemma FreesIdles<T(!new)>(set0: Setting<T>, es: seq<Event<T>>, i: nat, key: Key)
    requires Legal(set0, es) && Frees(set0, es, i, key) && Leased(set0, key, es[..i])
    ensures PhaseAfter(set0, es, i, key) == Done(Failed(PhaseBefore(set0, es, i, key).error))
    ensures key != "" && Legal(set0, es[..i + 1]) && Idle(After(set0, es[..i + 1]), key, None)
  {
    PrefixLegal(set0, es, i);
    LeasedKeepsInv(set0, key, es[..i]);
    assert HolderOk(After(set0, es[..i]), key, es[i].caller);
    OthersStayOut(set0, After(set0, es[..i]), es[i], key);
  }

  /**
   Its caller gets fn's error, and from then on the key is free until someone locks it: until then every
   check misses, and the first Lock succeeds.
   */
  lemma FailureFreesTheKey<T(!new)>(set0: Setting<T>, es: seq<Event<T>>, i: nat, j: nat, key: Key)
    requires Legal(set0, es) && Frees(set0, es, i, key) && Leased(set0, key, es[..i])
    requires i < j && StepAt(set0, es, j, key) && forall k :: i < k < j ==> !AcquiresAt(set0, es, k, key)
    ensures PhaseAfter(set0, es, i, key) == Done(Failed(PhaseBefore(set0, es, i, key).error))
    ensures Idle(After(set0, es[..j]), key, None)
    ensures es[j].choice == Call(NoFault) ==>
              var before, after := PhaseBefore(set0, es, j, key), PhaseAfter(set0, es, j, key);
              && (before.Fresh? ==> after == Missed)
              && (before.Missed? ==> after == Running(es[j].at + set0.cfg.lockTTL))
  {
    FreesIdles(set0, es, i, key);
    IdleFrom(set0, es, i, j, key, None);
  }

  /** Event i ends a holder's call. */
  ghost predicate Ends<T(!new)>(set0: Setting<T>, es: seq<Event<T>>, i: nat, key: Key)
    requires Legal(set0, es)
  {
    StepAt(set0, es, i, key) && Critical(PhaseBefore(set0, es, i, key)) && PhaseAfter(set0, es, i, key).Done?
  }

  /**
   It ends without touching the lock: fn panicked, its value could not be encoded, or the Set or Delete was lost.
   Execute reports a lost Set and drops the error of a lost Delete.
   */
  ghost predicate Abandons<T(!new)>(set0: Setting<T>, es: seq<Event<T>>, i: nat, key: Key)
    requires Legal(set0, es)
  {
    Ends(set0, es, i, key) && (es[i].choice.Fn? || es[i].choice.fault == Lost)
  }

  lemma AbandonsIdles<T(!new)>(set0: Setting<T>, es: seq<Event<T>>, i: nat, key: Key) returns (item: Item)
    requires Legal(set0, es) && Abandons(set0, es, i, key) && Leased(set0, key, es[..i])
    ensures key != "" && Legal(set0, es[..i + 1]) && Idle(After(set0, es[..i + 1]), key, Some(item))
    ensures item.record.status == InProgress && item.expiresAt == PhaseBefore(set0, es, i, key).until
  {
    PrefixLegal(set0, es, i);
    LeasedKeepsInv(set0, key, es[..i]);
    assert HolderOk(After(set0, es[..i]), key, es[i].caller);
    OthersStayOut(set0, After(set0, es[..i]), es[i], key);
    item := After(set0, es[..i]).items[key];
  }

  /**
   The abandoned lock stays, and no caller of the key enters fn, until its expiry: before it every step is a
   conflict or a storage error.  From the expiry instant on, the first Lock succeeds and fn runs again.
   */
  lemma AbandonedLockRunsOut<T(!new)>(set0: Setting<T>, es: seq<Event<T>>, i: nat, j: nat, key: Key)
    requires Legal(set0, es) && Abandons(set0, es, i, key) && Leased(set0, key, es[..i])
    requires i < j && StepAt(set0, es, j, key)
    requires var until := PhaseBefore(set0, es, i, key).until;
             es[j].at < until || forall k :: i < k < j && AcquiresAt(set0, es, k, key) ==> es[k].at < until
    ensures var until := PhaseBefore(set0, es, i, key).until;
            var items := After(set0, es[..j]).items;
            key in items && items[key].expiresAt == until && forall c :: !Holds(After(set0, es[..j]), c, key)
    ensures var until := PhaseBefore(set0, es, i, key).until;
            var before, after := PhaseBefore(set0, es, j, key), PhaseAfter(set0, es, j, key);
            && (Critical(after) ==> until <= es[j].at)
            && (before.Fresh? || before.Missed? ==> es[j].choice.Call?)
            && (before.Fresh? ==>
                  after == if es[j].choice.fault != NoFault then Done(CheckFailed)
                           else if es[j].at <= until then Done(Concurrent) else Missed)
            && (before.Missed? ==>
                  after == if es[j].choice.fault != NoFault then Done(LockFailed)
                           else if es[j].at < until then Done(Concurrent) else Running(es[j].at + set0.cfg.lockTTL))
  {
    var item := AbandonsIdles(set0, es, i, key);
    if es[j].at < item.expiresAt {
      EarlierInTime(set0, es, j, item.expiresAt);
    }
    IdleFrom(set0, es, i, j, key, Some(item));
  }

  /** A Lock that takes effect but reports an error: no fn runs, and the lock it made is left behind. */
  lemma LateLockRunsOut<T(!new)>(set0: Setting<T>, es: seq<Event<T>>, i: nat, j: nat, key: Key)
    requires Legal(set0, es) && StepAt(set0, es, i, key) && AcquiresAt(set0, es, i, key)
    requires es[i].choice.fault == Late && key != "" && Leased(set0, key, es[..i + 1])
    requires i < j && StepAt(set0, es, j, key)
    requires var until := es[i].at + set0.cfg.lockTTL;
             es[j].at < until || forall k :: i < k < j && AcquiresAt(set0, es, k, key) ==> es[k].at < until
    ensures PhaseAfter(set0, es, i, key) == Done(LockFailed)
    ensures Critical(PhaseAfter(set0, es, j, key)) ==> es[i].at + set0.cfg.lockTTL <= es[j].at
    ensures PhaseBefore(set0, es, j, key).Missed? && es[j].choice == Call(NoFault) ==>
              PhaseAfter(set0, es, j, key)
              == if es[j].at < es[i].at + set0.cfg.lockTTL then Done(Concurrent)
                 else Running(es[j].at + set0.cfg.lockTTL)
  {
    var item := LateLockIdles(set0, es, i, key);
    if es[j].at < item.expiresAt {
      EarlierInTime(set0, es, j, item.expiresAt);
    }
    IdleFrom(set0, es, i, j, key, Some(item));
  }

  lemma LateLockIdles<T(!new)>(set0: Setting<T>, es: seq<Event<T>>, i: nat, key: Key) returns (item: Item)
    requires Legal(set0, es) && StepAt(set0, es, i, key) && AcquiresAt(set0, es, i, key)
    requires es[i].choice.fault == Late && Leased(set0, key, es[..i + 1])
    ensures PhaseAfter(set0, es, i, key) == Done(LockFailed)
    ensures Legal(set0, es[..i + 1]) && Idle(After(set0, es[..i + 1]), key, Some(item))
    ensures item.record.status == InProgress && item.expiresAt == es[i].at + set0.cfg.lockTTL
  {
    PrefixLegal(set0, es, i);
    assert es[..i + 1][..i] == es[..i];
    LeasedKeepsInv(set0, key, es[..i]);
    var w, w' := After(set0, es[..i]), After(set0, es[..i + 1]);
    item := w'.items[key];
    forall c ensures !Holds(w', c, key) {
      assert HolderOk(w, key, c);
    }
  }

  // ---- Calls without a key ----

  ghost predicate KeylessOk<T>(w: World<T>, c: CallerId) {
    c in w.callers && w.callers[c].key == "" ==>
      w.callers[c].phase.Fresh? || w.callers[c].phase.Direct? || w.callers[c].phase.Done?
  }

  lemma {:induction false} RunKeepsKeyless<T(!new)>(set0: Setting<T>, es: seq<Event<T>>, c: CallerId)
    requires Legal(set0, es)
    ensures KeylessOk(After(set0, es), c)
    decreases |es|
  {
    if es != [] {
      RunKeepsKeyless(set0, es[..|es| - 1], c);
    }
  }

  /**
   In every run, a caller that arrived without a key changes nothing in the store, and after its first step its
   call ends in the step in which its fn does, with fn's own result.
   */
  lemma KeylessPassesThrough<T(!new)>(set0: Setting<T>, es: seq<Event<T>>, i: nat)
    requires Legal(set0, es) && StepAt(set0, es, i, "")
    ensures Legal(set0, es[..i + 1]) && After(set0, es[..i + 1]).items == After(set0, es[..i]).items
    ensures var before, after := PhaseBefore(set0, es, i, ""), PhaseAfter(set0, es, i, "");
            if before.Fresh? then after == Direct
            else before.Direct? && es[i].choice.Fn? && after == Done(PassedThrough(es[i].choice.result))
  {
    PrefixLegal(set0, es, i);
    RunKeepsKeyless(set0, es[..i], es[i].caller);
  }

  /** How the call of a caller with a key goes on once its fn has come back, in every run. */
  lemma FnEndDecides<T(!new)>(set0: Setting<T>, es: seq<Event<T>>, i: nat, key: Key)
    requires Legal(set0, es) && StepAt(set0, es, i, key) && PhaseBefore(set0, es, i, key).Running?
    ensures es[i].choice.Fn? && Legal(set0, es[..i + 1])
    ensures After(set0, es[..i + 1]).items == After(set0, es[..i]).items
    ensures var after, until := PhaseAfter(set0, es, i, key), PhaseBefore(set0, es, i, key).until;
            match es[i].choice.result
            case FnPanic => after == Done(Panicked)
            case FnErr(e) => after == Releasing(until, e)
            case FnOk(v) =>
              if set0.codec.encode(v).None? then after == Done(MarshalFailed)
              else after == Saving(until, v, set0.codec.encode(v).value)
  {
    PrefixLegal(set0, es, i);
  }

  /** A caller's check, in every run: nothing changes, and a completed record that does not decode is BadCache. */
  lemma CheckDecides<T(!new)>(set0: Setting<T>, es: seq<Event<T>>, i: nat, key: Key)
    requires Legal(set0, es) && key != "" && StepAt(set0, es, i, key) && PhaseBefore(set0, es, i, key).Fresh?
    ensures es[i].choice.Call? && Legal(set0, es[..i + 1])
    ensures After(set0, es[..i + 1]).items == After(set0, es[..i]).items
    ensures var after, seen := PhaseAfter(set0, es, i, key), Seen(After(set0, es[..i]).items, key, es[i].at);
            && (es[i].choice.fault != NoFault ==> after == Done(CheckFailed))
            && (es[i].choice.fault == NoFault ==>
                  && (seen.None? || seen.value.status == Unrecognized ==> after == Missed)
                  && (seen.Some? && seen.value.status == InProgress ==> after == Done(Concurrent))
                  && (seen.Some? && seen.value.status == Completed ==>
                        var response := seen.value.response;
                        after == Done(if response == [] then Returned(set0.codec.zero)
                                      else if set0.codec.decode(response).None? then BadCache
                                      else Returned(set0.codec.decode(response).value))))
  {
    PrefixLegal(set0, es, i);
  }

  // ---- When fn can run again ----

  /** From when on the key can be locked again after a holder's end. */
  ghost function ReopensAt<T(!new)>(set0: Setting<T>, es: seq<Event<T>>, i: nat, key: Key): Time
    requires Legal(set0, es) && Ends(set0, es, i, key)
  {
    if Abandons(set0, es, i, key) then PhaseBefore(set0, es, i, key).until
    else if PhaseBefore(set0, es, i, key).Saving? then es[i].at + set0.cfg.completeTTL
    else es[i].at
  }

  /** After any end of a holder the key is idle, under an item that expires when it reopens or under none. */
  lemma EndIdles<T(!new)>(set0: Setting<T>, es: seq<Event<T>>, i: nat, key: Key) returns (item: Option<Item>)
    requires Legal(set0, es) && Ends(set0, es, i, key) && Leased(set0, key, es[..i])
    ensures key != "" && Legal(set0, es[..i + 1]) && Idle(After(set0, es[..i + 1]), key, item)
    ensures item.Some? ==> item.value.expiresAt == ReopensAt(set0, es, i, key)
    ensures item.None? ==> ReopensAt(set0, es, i, key) == es[i].at
  {
    PrefixLegal(set0, es, i);
    LeasedKeepsInv(set0, key, es[..i]);
    assert HolderOk(After(set0, es[..i]), key, es[i].caller);
    OthersStayOut(set0, After(set0, es[..i]), es[i], key);
    item := ItemAt(After(set0, es[..i + 1]).items, key);
  }

  /** However a holder ended, the next Lock of its key that takes the lock does so exactly when the key has reopened. */
  lemma KeyReopens<T(!new)>(set0: Setting<T>, es: seq<Event<T>>, i: nat, j: nat, key: Key)
    requires Legal(set0, es) && Ends(set0, es, i, key) && Leased(set0, key, es[..i])
    requires i < j && StepAt(set0, es, j, key) && PhaseBefore(set0, es, j, key).Missed?
    requires var reopens := ReopensAt(set0, es, i, key);
             es[j].at < reopens || forall k :: i < k < j && AcquiresAt(set0, es, k, key) ==> es[k].at < reopens
    ensures es[j].choice.Call?
    ensures PhaseAfter(set0, es, j, key)
            == if es[j].choice.fault != NoFault then Done(LockFailed)
               else if ReopensAt(set0, es, i, key) <= es[j].at then Running(es[j].at + set0.cfg.lockTTL)
               else Done(Concurrent)
  {
    var item := EndIdles(set0, es, i, key);
    var reopens := ReopensAt(set0, es, i, key);
    LaterInTime(set0, es, i, j);
    if es[j].at < reopens {
      EarlierInTime(set0, es, j, reopens);
    }
    forall k | i < k < j && AcquiresAt(set0, es, k, key)
      ensures item.Some? && es[k].at < item.value.expiresAt
    {
      LaterInTime(set0, es, i, k);
    }
    IdleFrom(set0, es, i, j, key, item);
  }

  lemma LaterInTime<T(!new)>(set0: Setting<T>, es: seq<Event<T>>, i: nat, j: nat)
    requires Legal(set0, es) && i < j < |es| && es[i].Move? && es[j].Move?
    ensures es[i].at <= es[j].at
  {
    PrefixLegal(set0, es, j);
    assert es[..j][i] == es[i];
    TimeAdvances(set0, es[..j], i);
  }

  /** The step of a caller about to Set or Delete ends its call; steps of others leave it alone. */
  lemma SettlingStep<T(!new)>(set0: Setting<T>, w: World<T>, e: Event<T>, c: CallerId)
    requires Enabled(w, e) && c in w.callers && (w.callers[c].phase.Saving? || w.callers[c].phase.Releasing?)
    ensures c in Apply(set0, w, e).callers
    ensures if e.Move? && e.caller == c
            then StepsOn(w, e, w.callers[c].key) && Apply(set0, w, e).callers[c].phase.Done?
            else Apply(set0, w, e).callers[c] == w.callers[c]
  {
  }

  /** At position n, c is this caller. */
  ghost predicate CallerAt<T(!new)>(set0: Setting<T>, es: seq<Event<T>>, n: nat, c: CallerId, caller: Caller<T>) {
    n <= |es| && Legal(set0, es[..n])
    && c in After(set0, es[..n]).callers && After(set0, es[..n]).callers[c] == caller
  }

  /** Event k ends the call of c, which was this caller. */
  ghost predicate EndsAs<T(!new)>(set0: Setting<T>, es: seq<Event<T>>, k: nat, c: CallerId, caller: Caller<T>)
    requires Legal(set0, es)
  {
    Ends(set0, es, k, caller.key) && es[k].caller == c && PhaseBefore(set0, es, k, caller.key) == caller.phase
  }

  lemma SettlesAt<T(!new)>(set0: Setting<T>, es: seq<Event<T>>, k: nat, c: CallerId, caller: Caller<T>)
    requires Legal(set0, es) && k < |es| && CallerAt(set0, es, k, c, caller)
    requires caller.phase.Saving? || caller.phase.Releasing?
    ensures CallerAt(set0, es, k + 1, c, caller) || EndsAs(set0, es, k, c, caller)
  {
    PrefixLegal(set0, es, k);
    SettlingStep(set0, After(set0, es[..k]), es[k], c);
  }

  /** A caller about to settle still is by position n, or has done so since position m. */
  lemma {:induction false} HeldUntilEnd<T(!new)>(
      set0: Setting<T>, es: seq<Event<T>>, m: nat, n: nat, c: CallerId, caller: Caller<T>)
    requires Legal(set0, es) && m <= n <= |es| && CallerAt(set0, es, m, c, caller)
    requires caller.phase.Saving? || caller.phase.Releasing?
    ensures CallerAt(set0, es, n, c, caller) || exists k :: m <= k < n && EndsAs(set0, es, k, c, caller)
    decreases n
  {
    if m < n {
      HeldUntilEnd(set0, es, m, n - 1, c, caller);
      if CallerAt(set0, es, n - 1, c, caller) {
        SettlesAt(set0, es, n - 1, c, caller);
      }
    }
  }

  lemma {:induction false} LeasedPrefix<T(!new)>(set0: Setting<T>, key: Key, es: seq<Event<T>>, i: nat)
    requires Leased(set0, key, es) && i <= |es|
    ensures Leased(set0, key, es[..i])
    decreases |es|
  {
    if i == |es| {
      assert es[..i] == es;
    } else {
      assert es[..|es| - 1][..i] == es[..i];
      LeasedPrefix(set0, key, es[..|es| - 1], i);
    }
  }

  /** While the key is held within its lease, a Lock of it does not start fn. */
  lemma HeldKeyBlocks<T(!new)>(set0: Setting<T>, w: World<T>, e: Event<T>, key: Key, c: CallerId)
    requires Inv(w, key) && Enabled(w, e) && EventLeased(w, key, e) && Holds(w, c, key)
    requires StepsOn(w, e, key) && w.callers[e.caller].phase.Missed?
    ensures !Critical(Apply(set0, w, e).callers[e.caller].phase)
  {
    assert HolderOk(w, key, c);
  }

  /** An end of a holder at event k: fn starts again at step j only from the reopening on. */
  lemma StartAfterEnd<T(!new)>(set0: Setting<T>, es: seq<Event<T>>, k: nat, j: nat, key: Key)
    requires Legal(set0, es) && Ends(set0, es, k, key) && Leased(set0, key, es[..k]) && k < j
    requires StepAt(set0, es, j, key) && PhaseBefore(set0, es, j, key).Missed? && PhaseAfter(set0, es, j, key).Running?
    ensures ReopensAt(set0, es, k, key) <= es[j].at
  {
    if es[j].at < ReopensAt(set0, es, k, key) {
      KeyReopens(set0, es, k, j, key);
    }
  }

  /**
   After a caller's fn has come back, fn runs again for the key only once the key has reopened from that caller's
   end: at its lock's expiry if it panicked or nothing was saved or deleted, completeTTL after its save, or at
   once after its Delete.
   */
  lemma NextRunWaits<T(!new)>(set0: Setting<T>, es: seq<Event<T>>, i: nat, j: nat, key: Key) returns (end: nat)
    requires Legal(set0, es) && i < j < |es| && Leased(set0, key, es[..j + 1])
    requires StepAt(set0, es, i, key) && PhaseBefore(set0, es, i, key).Running?
    requires StepAt(set0, es, j, key) && PhaseBefore(set0, es, j, key).Missed? && PhaseAfter(set0, es, j, key).Running?
    ensures i <= end < j && Ends(set0, es, end, key) && es[end].caller == es[i].caller
    ensures end == i || PhaseBefore(set0, es, end, key) == PhaseAfter(set0, es, i, key)
    ensures PhaseBefore(set0, es, end, key).until == PhaseBefore(set0, es, i, key).until
    ensures ReopensAt(set0, es, end, key) <= es[j].at
  {
    RunEnds(set0, es, i, key);
    end := i;
    if !PhaseAfter(set0, es, i, key).Done? {
      var c, caller := es[i].caller, Caller(key, PhaseAfter(set0, es, i, key));
      HeldUntilEnd(set0, es, i + 1, j, c, caller);
      if CallerAt(set0, es, j, c, caller) {
        StillHeld(set0, es, j, key, c);
        assert false;
      }
      end :| i < end < j && EndsAs(set0, es, end, c, caller);
    }
    assert es[..j + 1][..end] == es[..end];
    LeasedPrefix(set0, key, es[..j + 1], end);
    StartAfterEnd(set0, es, end, j, key);
  }

  /** What the end of fn makes of a running caller. */
  lemma RunEnds<T(!new)>(set0: Setting<T>, es: seq<Event<T>>, i: nat, key: Key)
    requires Legal(set0, es) && StepAt(set0, es, i, key) && PhaseBefore(set0, es, i, key).Running?
    ensures var after := PhaseAfter(set0, es, i, key);
            && CallerAt(set0, es, i + 1, es[i].caller, Caller(key, after))
            && (after.Done?
                || ((after.Saving? || after.Releasing?) && after.until == PhaseBefore(set0, es, i, key).until))
  {
    PrefixLegal(set0, es, i);
  }

  lemma StillHeld<T(!new)>(set0: Setting<T>, es: seq<Event<T>>, j: nat, key: Key, c: CallerId)
    requires Legal(set0, es) && StepAt(set0, es, j, key) && PhaseBefore(set0, es, j, key).Missed?
    requires Leased(set0, key, es[..j + 1]) && Holds(After(set0, es[..j]), c, key)
    ensures !Critical(PhaseAfter(set0, es, j, key))
  {
    PrefixLegal(set0, es, j);
    assert es[..j + 1][..j] == es[..j];
    LeasedKeepsInv(set0, key, es[..j]);
    HeldKeyBlocks(set0, After(set0, es[..j]), es[j], key, c);
  }

  // ---- The lease assumption is exact ----

  /** While c holds a key, another caller's Lock succeeds exactly when c's own lock has run out. */
  lemma OverlapExactlyAtOverrun<T(!new)>(
      set0: Setting<T>, es: seq<Event<T>>, key: Key, c: CallerId, d: CallerId, at: Time)
    requires Leased(set0, key, es)
    requires Holds(After(set0, es), c, key)
    requires d in After(set0, es).callers && After(set0, es).callers[d] == Caller(key, Missed)
    requires After(set0, es).now <= at
    ensures var w' := Apply(set0, After(set0, es), Move(d, Call(NoFault), at));
            Holds(w', d, key) && Holds(w', c, key) <==> After(set0, es).callers[c].phase.until <= at
  {
    LeasedKeepsInv(set0, key, es);
    assert HolderOk(After(set0, es), key, c) && HolderOk(After(set0, es), key, d);
  }

  lemma OneMoreLeased<T(!new)>(set0: Setting<T>, key: Key, es: seq<Event<T>>, e: Event<T>)
    requires Leased(set0, key, es) && Enabled(After(set0, es), e) && EventLeased(After(set0, es), key, e)
    ensures Leased(set0, key, es + [e]) && After(set0, es + [e]) == Apply(set0, After(set0, es), e)
  {
    assert (es + [e])[..|es|] == es;
  }

  /** A first caller whose value is returned by fn and whose Set is then lost. */
  lemma LostSet<T(!new)>(set0: Setting<T>, v: T) returns (es: seq<Event<T>>)
    requires set0.items == map[] && set0.cfg.lockTTL > 0 && set0.codec.encode(v).Some?
    ensures Leased(set0, "k", es) && |es| == 5 && es[3] == Move(0, Fn(FnOk(v)), set0.start)
    ensures forall i :: 0 <= i < |es| && es[i].Move? && es[i].choice.Fn? ==> i == 3
    ensures After(set0, es) == World(set0.start, map["k" := LockItem(set0.start, set0.cfg.lockTTL)],
                                     map[0 := Caller("k", Done(SaveFailed(v)))])
  {
    var go: Choice<T> := Call(NoFault);
    var now, body := set0.start, set0.codec.encode(v).value;
    es := [];
    OneMoreLeased(set0, "k", es, Arrive(0, "k"));    es := es + [Arrive(0, "k")];
    OneMoreLeased(set0, "k", es, Move(0, go, now));  es := es + [Move(0, go, now)];
    OneMoreLeased(set0, "k", es, Move(0, go, now));  es := es + [Move(0, go, now)];
    var ran := Move(0, Fn(FnOk(v)), now);
    OneMoreLeased(set0, "k", es, ran);               es := es + [ran];
    assert After(set0, es).callers[0] == Caller("k", Saving(now + set0.cfg.lockTTL, v, body));
    var lost := Move(0, Call(Lost), now);
    OneMoreLeased(set0, "k", es, lost);              es := es + [lost];
  }

  /**
   Even without an overrun, a panic or an encoding failure, fn can run twice: its value is returned, the Set
   that should have saved it is lost, and a retry after the lock's expiry runs fn again.
   */
  lemma LostSetRunsAgain<T(!new)>(set0: Setting<T>, v: T) returns (es: seq<Event<T>>)
    requires set0.items == map[] && set0.cfg.lockTTL > 0 && set0.codec.encode(v).Some?
    ensures Leased(set0, "k", es) && FnReturned(es, 0, v) && FnReturned(es, 1, v)
    ensures forall i :: 0 <= i < |es| && es[i].Move? && es[i].choice.Fn? ==> es[i].choice == Fn(FnOk(v))
    ensures 0 in After(set0, es).callers && After(set0, es).callers[0].phase == Done(SaveFailed(v))
  {
    var go: Choice<T> := Call(NoFault);
    var later := set0.start + set0.cfg.lockTTL + 1;
    es := LostSet(set0, v);
    OneMoreLeased(set0, "k", es, Arrive(1, "k"));     es := es + [Arrive(1, "k")];
    OneMoreLeased(set0, "k", es, Move(1, go, later)); es := es + [Move(1, go, later)];
    OneMoreLeased(set0, "k", es, Move(1, go, later)); es := es + [Move(1, go, later)];
    var ran := Move(1, Fn(FnOk(v)), later);
    OneMoreLeased(set0, "k", es, ran);                es := es + [ran];
    assert es[3].caller == 0 && es[8] == ran;
  }

  lemma OneMore<T(!new)>(set0: Setting<T>, es: seq<Event<T>>, e: Event<T>)
    requires Legal(set0, es) && Enabled(After(set0, es), e)
    ensures Legal(set0, es + [e]) && After(set0, es + [e]) == Apply(set0, After(set0, es), e)
  {
    assert (es + [e])[..|es|] == es;
  }

  /** A run without the lease assumption in which two callers are inside `fn` for the same key at once. */
  lemma OverrunLetsTwoRun<T(!new)>(set0: Setting<T>) returns (es: seq<Event<T>>)
    requires set0.items == map[] && set0.cfg.lockTTL > 0
    ensures Legal(set0, es)
    ensures Holds(After(set0, es), 0, "k") && Holds(After(set0, es), 1, "k")
  {
    var go: Choice<T> := Call(NoFault);
    var t0, t1 := set0.start, set0.start + set0.cfg.lockTTL;
    es := [];
    OneMore(set0, es, Arrive(0, "k"));  es := es + [Arrive(0, "k")];
    OneMore(set0, es, Arrive(1, "k"));  es := es + [Arrive(1, "k")];
    OneMore(set0, es, Move(0, go, t0)); es := es + [Move(0, go, t0)];
    OneMore(set0, es, Move(1, go, t0)); es := es + [Move(1, go, t0)];
    assert After(set0, es) == World(t0, map[], map[0 := Caller("k", Missed), 1 := Caller("k", Missed)]);
    OneMore(set0, es, Move(0, go, t0)); es := es + [Move(0, go, t0)];
    OneMore(set0, es, Move(1, go, t1)); es := es + [Move(1, go, t1)];
  }
}
