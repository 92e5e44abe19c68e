/**
 The in-memory idempotency store of pkg/idempotency/memory.go.

 Each operation runs under the store's mutex, so it is one atomic step; the clock reading
 it takes inside that section is the parameter `now`.  The store never purges an expired
 item: it only tests `expiresAt` when it is asked.  `LazyExpiryIsInvisible` shows that no
 sequence of operations can tell this from a store that drops items when they expire.
 */
module MemoryStore {
  import opened Wrappers

  /** Nanoseconds. */
  type Time = int

  type Key = string

  type Bytes = seq<bv8>

  /** `Status` is a string in the source; anything but the two named values is Unrecognized. */
  datatype Status = InProgress | Completed | Unrecognized

  datatype Record = Record(status: Status, response: Bytes, createdAt: Time)

  datatype Item = Item(record: Record, expiresAt: Time)

  type Items = map<Key, Item>

  datatype Action =
    | Lock(key: Key, ttl: Time)
    | Set(key: Key, record: Record, ttl: Time)
    | Get(key: Key)
    | Delete(key: Key)

  datatype Answer =
    | Acquired(ok: bool)
    | Found(record: Option<Record>)
    | Stored

  /** Lock's test: the item still blocks a new lock.  False at `now == expiresAt`. */
  predicate Occupied(items: Items, key: Key, now: Time) {
    key in items && now < items[key].expiresAt
  }

  /** Get's test: the item is still visible.  True at `now == expiresAt`. */
  function Lookup(items: Items, key: Key, now: Time): Option<Record> {
    if key in items && now <= items[key].expiresAt then Some(items[key].record) else None
  }

  function LockItem(now: Time, ttl: Time): Item {
    Item(Record(InProgress, [], now), now + ttl)
  }

  /** What the lazy store does for one action at time `now`. */
  function Perform(items: Items, action: Action, now: Time): (Items, Answer) {
    match action
    case Lock(key, ttl) =>
      if Occupied(items, key, now) then (items, Acquired(false))
      else (items[key := LockItem(now, ttl)], Acquired(true))
    case Set(key, record, ttl) => (items[key := Item(record, now + ttl)], Stored)
    case Get(key) => (items, Found(Lookup(items, key, now)))
    case Delete(key) => (items - {key}, Stored)
  }

  class MemoryStorage {
    var items: Items

    constructor ()
      ensures items == map[]
    {
      items := map[];
    }

    method Lock(key: Key, ttl: Time, now: Time) returns (acquired: bool)
      modifies this
      ensures (items, Acquired(acquired)) == Perform(old(items), Action.Lock(key, ttl), now)
    {
      if key in items {
        if now < items[key].expiresAt {
          return false;
        }
      }
      items := items[key := Item(Record(InProgress, [], now), now + ttl)];
      return true;
    }

    method Set(key: Key, record: Record, ttl: Time, now: Time)
      modifies this
      ensures (items, Stored) == Perform(old(items), Action.Set(key, record, ttl), now)
    {
      items := items[key := Item(record, now + ttl)];
    }

    method Get(key: Key, now: Time) returns (record: Option<Record>)
      ensures (items, Found(record)) == Perform(items, Action.Get(key), now)
    {
      if key !in items {
        return None;
      }
      if now > items[key].expiresAt {
        return None;
      }
      return Some(items[key].record);
    }

    method Delete(key: Key)
      modifies this
      ensures forall now :: (items, Stored) == Perform(old(items), Action.Delete(key), now)
    {
      items := items - {key};
    }
  }

  // ---- The reference: a store that drops each item as soon as its time is over ----

  /** The items that are not past their expiry. */
  function Live(items: Items, now: Time): Items {
    map key | key in items && now <= items[key].expiresAt :: items[key]
  }

  /**
   The eager store's answer, on items from which everything expired is already gone.
   Get is plain membership; Lock only has to let go of an item in its very last instant.
   */
  function EagerPerform(live: Items, action: Action, now: Time): (Items, Answer) {
    match action
    case Lock(key, ttl) =>
      if key in live && live[key].expiresAt != now then (live, Acquired(false))
      else (live[key := LockItem(now, ttl)], Acquired(true))
    case Set(key, record, ttl) => (live[key := Item(record, now + ttl)], Stored)
    case Get(key) => (live, Found(if key in live then Some(live[key].record) else None))
    case Delete(key) => (live - {key}, Stored)
  }

  datatype Timed = Timed(at: Time, action: Action)

  /** The clock never runs backwards. */
  predicate Ordered(ops: seq<Timed>, from: Time) {
    ops == [] || (from <= ops[0].at && Ordered(ops[1..], ops[0].at))
  }

  function LazyAnswers(items: Items, ops: seq<Timed>): seq<Answer>
    decreases ops
  {
    if ops == [] then []
    else
      var (items', answer) := Perform(items, ops[0].action, ops[0].at);
      [answer] + LazyAnswers(items', ops[1..])
  }

  function EagerAnswers(live: Items, ops: seq<Timed>): seq<Answer>
    decreases ops
  {
    if ops == [] then []
    else
      var (live', answer) := EagerPerform(Live(live, ops[0].at), ops[0].action, ops[0].at);
      [answer] + EagerAnswers(live', ops[1..])
  }

  lemma PurgingLaterIsEnough(items: Items, live: Items, from: Time, now: Time)
    requires from <= now && Live(items, from) == Live(live, from)
    ensures Live(items, now) == Live(live, now)
  {
    assert Live(items, now) == Live(Live(items, from), now);
    assert Live(live, now) == Live(Live(live, from), now);
  }

  lemma StepsAgree(items: Items, action: Action, now: Time)
    ensures var lazy := Perform(items, action, now);
            var eager := EagerPerform(Live(items, now), action, now);
            lazy.1 == eager.1 && Live(lazy.0, now) == Live(eager.0, now)
  {
  }

  /** Any operation sequence at nondecreasing times gets the same answers from both stores. */
  lemma {:induction false} LazyExpiryIsInvisible(items: Items, live: Items, ops: seq<Timed>, from: Time)
    requires Ordered(ops, from)
    requires Live(items, from) == Live(live, from)
    ensures LazyAnswers(items, ops) == EagerAnswers(live, ops)
    decreases ops
  {
    if ops != [] {
      var now := ops[0].at;
      PurgingLaterIsEnough(items, live, from, now);
      StepsAgree(items, ops[0].action, now);
      var lazy := Perform(items, ops[0].action, now).0;
      var eager := EagerPerform(Live(live, now), ops[0].action, now).0;
      LazyExpiryIsInvisible(lazy, eager, ops[1..], now);
    }
  }

  /** The two tests differ in one instant only, and a lock never throws away a record it counts as occupied. */
  lemma BoundaryInstant(items: Items, key: Key, ttl: Time, now: Time)
    requires key in items
    ensures Lookup(items, key, now).Some? && !Occupied(items, key, now) <==> now == items[key].expiresAt
    ensures Perform(items, Lock(key, ttl), now).1 == Acquired(true) <==> items[key].expiresAt <= now
    ensures Perform(items, Lock(key, ttl), now).1 == Acquired(false) ==> Perform(items, Lock(key, ttl), now).0 == items
  {
  }
}
